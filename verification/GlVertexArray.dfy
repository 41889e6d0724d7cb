// A vertex array: attributes by index, each weakly bound to a buffer.
module VertexArrays {
  import opened Common
  import B = Buffers

  datatype Attribute = Attribute(
    size: int, kind: nat, stride: int, offset: nat, normalized: bool,
    bufferChanged: bool, buffer: Option<Id>, enabilityChanged: bool, enabled: bool)
  {
    // The flags are raised with the first request of their kind and, because
    // the commit lowers them only on a copy, never come down again.
    predicate FlagSound() {
      (buffer.Some? ==> bufferChanged) && (enabled ==> enabilityChanged)
    }

    predicate Live(live: set<Id>) {
      buffer.Some? && buffer.value in live
    }

    function Pointed(): RemoteAttribute
      requires buffer.Some?
    {
      RemoteAttribute(enabled, Some(Pointer(size, kind, normalized, stride, offset, buffer.value)))
    }
  }

  // An attribute as the map creates it on first access.
  const ZERO := Attribute(0, 0, 0, 0, false, false, None, false, false)

  datatype Pointer = Pointer(size: int, kind: nat, normalized: bool, stride: int, offset: nat, buffer: Id)
  datatype RemoteAttribute = RemoteAttribute(enabled: bool, pointer: Option<Pointer>)

  type Attributes = map<nat, Attribute>

  function AttributeAt(attributes: Attributes, index: nat): Attribute {
    if index in attributes then attributes[index] else ZERO
  }

  ghost function BuffersOf(attributes: Attributes): set<Id> {
    set i | i in attributes && attributes[i].buffer.Some? :: attributes[i].buffer.value
  }

  // What one sync makes of the renderer's record of one attribute.
  function Sent(copy: map<nat, RemoteAttribute>, index: nat, a: Attribute, force: bool): RemoteAttribute
    requires a.buffer.Some?
  {
    var r := if index in copy then copy[index] else RemoteAttribute(false, None);
    RemoteAttribute(
      if force || a.enabilityChanged then a.enabled else r.enabled,
      if force || a.bufferChanged then a.Pointed().pointer else r.pointer)
  }

  // The renderer's record after the attributes `which` were sent.
  function SendSome(
    copy: map<nat, RemoteAttribute>, attributes: Attributes, which: set<nat>, live: set<Id>, force: bool)
    : map<nat, RemoteAttribute>
  {
    copy + map i | i in which && i in attributes && attributes[i].Live(live) :: Sent(copy, i, attributes[i], force)
  }

  lemma SendNext(
    copy: map<nat, RemoteAttribute>, attributes: Attributes, which: set<nat>, i: nat, live: set<Id>, force: bool)
    requires i in attributes && i !in which
    ensures var before := SendSome(copy, attributes, which, live, force);
            SendSome(copy, attributes, which + {i}, live, force) ==
            if attributes[i].Live(live) then before[i := Sent(before, i, attributes[i], force)] else before
  {
  }

  datatype Request = SetEnability(index: nat, enabled: bool) | SetPointer(index: nat, pointer: Pointer)

  datatype VertexArray = VertexArray(
    pending: Attributes, current: Attributes, proxy: Option<map<nat, RemoteAttribute>>)
  {
    function Commit(): VertexArray {
      VertexArray(pending, pending, proxy)
    }

    function Sync(force: bool, liveBuffers: set<Id>): VertexArray {
      this.(proxy := Some(SendSome(proxy.GetOr(map[]), current, current.Keys, liveBuffers, force)))
    }

    function SetEnability(index: nat, enabled: bool): VertexArray {
      this.(pending := pending[index := AttributeAt(pending, index).(enabilityChanged := true, enabled := enabled)])
    }

    function SetPointer(index: nat, pointer: Pointer): VertexArray {
      this.(pending := pending[index := AttributeAt(pending, index).(
        offset := pointer.offset, size := pointer.size, kind := pointer.kind, normalized := pointer.normalized,
        stride := pointer.stride, bufferChanged := true, buffer := Some(pointer.buffer))])
    }

    function Requested(r: Request): VertexArray {
      match r
      case SetEnability(index, enabled) => SetEnability(index, enabled)
      case SetPointer(index, pointer) => SetPointer(index, pointer)
    }

    ghost predicate FlagSound() {
      && (forall i :: i in pending ==> pending[i].FlagSound())
      && (forall i :: i in current ==> current[i].FlagSound() && Grown(current[i], AttributeAt(pending, i)))
      && (proxy.Some? ==> forall i :: i in proxy.value ==>
            i in current && current[i].buffer.Some? && (proxy.value[i].enabled ==> current[i].enabilityChanged))
    }

    // Every attribute that has a live buffer is on the renderer as it is here.
    ghost predicate Exact(liveBuffers: set<Id>) {
      proxy.Some? && forall i :: i in current && current[i].Live(liveBuffers) ==>
        i in proxy.value && proxy.value[i] == current[i].Pointed()
    }

    function Everything(): map<nat, RemoteAttribute> {
      map i | i in current && current[i].buffer.Some? :: current[i].Pointed()
    }
  }

  const NEW_ARRAY := VertexArray(map[], map[], None)

  predicate Grown(a: Attribute, b: Attribute) {
    (a.enabilityChanged ==> b.enabilityChanged) && (a.buffer.Some? ==> b.buffer.Some?)
  }

  lemma SyncIdempotent(a: VertexArray, force: bool, live: set<Id>)
    ensures a.Sync(force, live).Sync(force, live) == a.Sync(force, live)
  {
    var b := a.Sync(force, live);
    assert b.Sync(force, live).proxy.value == b.proxy.value;
  }

  // Every sync leaves each attribute with a live buffer exact.
  lemma SyncExact(a: VertexArray, force: bool, live: set<Id>)
    requires a.FlagSound()
    ensures a.Sync(force, live).Exact(live)
  {
    forall i | i in a.current && a.current[i].Live(live)
      ensures a.Sync(force, live).proxy.value[i] == a.current[i].Pointed()
    {
      assert a.current[i].FlagSound();
    }
  }

  lemma SyncKeepsFlags(a: VertexArray, force: bool, live: set<Id>)
    requires a.FlagSound()
    ensures a.Sync(force, live).FlagSound()
  {
    var b := a.Sync(force, live);
    forall i | i in b.proxy.value
      ensures i in b.current && b.current[i].buffer.Some?
              && (b.proxy.value[i].enabled ==> b.current[i].enabilityChanged)
    {
      if i in a.current {
        assert a.current[i].FlagSound();
      }
    }
  }

  // A resend of an exact array gives each live attribute the record it has.
  lemma ResendAgrees(a: VertexArray, live: set<Id>, i: nat)
    requires a.FlagSound() && a.Exact(live) && i in a.current && a.current[i].Live(live)
    ensures var r := a.(proxy := None).Sync(true, live).proxy;
            i in a.proxy.value && i in r.value && a.proxy.value[i] == r.value[i]
  {
  }

  // With no dead buffer bound, the renderer's record is exactly the array's.
  lemma SyncExactWhole(a: VertexArray, force: bool, live: set<Id>)
    requires a.FlagSound() && BuffersOf(a.current) <= live
    ensures a.Sync(force, live).proxy == Some(a.Everything())
  {
    SyncExact(a, force, live);
    SyncKeepsFlags(a, force, live);
    ExactWhole(a.Sync(force, live), live);
    assert a.Sync(force, live).Everything() == a.Everything();
  }

  lemma ResendWhole(a: VertexArray, live: set<Id>)
    requires a.FlagSound() && BuffersOf(a.current) <= live
    ensures a.(proxy := None).Sync(true, live).proxy == Some(a.Everything())
  {
    assert a.(proxy := None).FlagSound();
    SyncExactWhole(a.(proxy := None), true, live);
    assert a.(proxy := None).Everything() == a.Everything();
  }

  lemma ExactWhole(a: VertexArray, live: set<Id>)
    requires a.FlagSound() && a.Exact(live) && BuffersOf(a.current) <= live
    ensures a.proxy == Some(a.Everything())
  {
    forall i | i in a.current && a.current[i].buffer.Some?
      ensures i in a.proxy.value && a.proxy.value[i] == a.current[i].Pointed()
    {
      assert a.current[i].buffer.value in BuffersOf(a.current);
    }
    assert a.proxy.value == a.Everything();
  }

  lemma RequestsKeepFlags(a: VertexArray, r: Request)
    requires a.FlagSound()
    ensures a.Commit().FlagSound() && a.Requested(r).FlagSound()
  {
  }

  type Registry = map<Id, GlVertexArray>

  ghost predicate Filed(reg: Registry) {
    forall i :: i in reg ==> reg[i].id == i
  }

  ghost function States(reg: Registry): map<Id, VertexArray>
    reads reg.Values
  {
    map i | i in reg :: reg[i].State()
  }

  // The buffers behind a weak slot.
  ghost function PendingBuffers(all: map<Id, VertexArray>, slot: Option<Id>): set<Id> {
    if slot.Some? && slot.value in all then BuffersOf(all[slot.value].pending) else {}
  }

  ghost function CurrentBuffers(all: map<Id, VertexArray>, slot: Option<Id>): set<Id> {
    if slot.Some? && slot.value in all then BuffersOf(all[slot.value].current) else {}
  }

  ghost function CommitSome(all: map<Id, VertexArray>, which: set<Id>): map<Id, VertexArray> {
    map i | i in all :: if i in which then all[i].Commit() else all[i]
  }

  ghost function SyncSome(all: map<Id, VertexArray>, which: set<Id>, force: bool, liveBuffers: set<Id>)
    : map<Id, VertexArray>
  {
    map i | i in all :: if i in which then all[i].Sync(force, liveBuffers) else all[i]
  }

  lemma CommitSomeTwice(all: map<Id, VertexArray>, a: set<Id>, b: set<Id>)
    ensures CommitSome(CommitSome(all, a), b) == CommitSome(all, a + b)
  {
  }

  lemma SyncSomeTwice(all: map<Id, VertexArray>, a: set<Id>, b: set<Id>, force: bool, live: set<Id>)
    ensures SyncSome(SyncSome(all, a, force, live), b, force, live) == SyncSome(all, a + b, force, live)
  {
    forall i | i in all
      ensures all[i].Sync(force, live).Sync(force, live) == all[i].Sync(force, live)
    {
      SyncIdempotent(all[i], force, live);
    }
  }

  class GlVertexArray {
    const id: Id
    var pending: Attributes
    var current: Attributes
    var proxy: Option<map<nat, RemoteAttribute>>

    constructor (id: Id)
      ensures this.id == id && State() == NEW_ARRAY
    {
      this.id := id;
      pending, current, proxy := map[], map[], None;
    }

    function State(): VertexArray
      reads this
    {
      VertexArray(pending, current, proxy)
    }

    method Commit(buffers: B.Registry, shm: map<Id, Bytes>)
      requires B.Filed(buffers)
      modifies this, buffers.Values
      ensures State() == old(State()).Commit()
      ensures B.States(buffers) == B.CommitSome(old(B.States(buffers)), BuffersOf(old(pending)), shm)
    {
      ghost var start := B.States(buffers);
      ghost var done: set<nat>, reached: set<Id> := {}, {};
      current := map[];
      var keys := pending.Keys;
      while keys != {}
        invariant keys <= pending.Keys && done == pending.Keys - keys
        invariant pending == old(pending) && proxy == old(proxy)
        invariant current == map i | i in done :: pending[i]
        invariant reached == set i | i in done && pending[i].buffer.Some? :: pending[i].buffer.value
        invariant B.States(buffers) == B.CommitSome(start, reached, shm)
        decreases keys
      {
        var index :| index in keys;
        var attribute := pending[index];
        keys, done := keys - {index}, done + {index};
        current := current[index := attribute];
        assert B.States(buffers) == B.CommitSome(start, reached, shm);
        if attribute.buffer.Some? {
          B.CommitSomeTwice(start, reached, {attribute.buffer.value}, shm);
          reached := reached + {attribute.buffer.value};
          B.CommitLocked(buffers, attribute.buffer.value, shm);
        }
      }
      assert done == pending.Keys;
      assert reached == BuffersOf(pending);
      assert current == pending;
    }

    // One attribute of a sync; an attribute whose buffer is dead is skipped.
    method SyncAttribute(index: nat, session: bool, force: bool, buffers: B.Registry)
      requires session && B.Filed(buffers) && proxy.Some? && index in current
      modifies this, buffers.Values
      ensures pending == old(pending) && current == old(current) && proxy.Some?
      ensures proxy.value == if current[index].Live(buffers.Keys) then
                old(proxy.value)[index := Sent(old(proxy.value), index, current[index], force)] else old(proxy.value)
      ensures B.States(buffers) ==
              if current[index].buffer.None? then old(B.States(buffers))
              else B.SyncSome(old(B.States(buffers)), {current[index].buffer.value}, force)
    {
      var attribute := current[index];
      if attribute.buffer.None? {
        return;
      }
      var live := B.SyncLocked(buffers, attribute.buffer.value, session, force);
      if !live {
        return;
      }
      label synced:
      var r := if index in proxy.value then proxy.value[index] else RemoteAttribute(false, None);
      if force || attribute.enabilityChanged {
        r := r.(enabled := attribute.enabled);
      }
      if force || attribute.bufferChanged {
        r := r.(pointer := Some(Pointer(attribute.size, attribute.kind, attribute.normalized, attribute.stride,
                                        attribute.offset, buffers[attribute.buffer.value].RemoteId())));
      }
      proxy := Some(proxy.value[index := r]);
      assert unchanged@synced(buffers.Values);
    }

    method Sync(session: bool, force: bool, buffers: B.Registry)
      requires session && B.Filed(buffers)
      modifies this, buffers.Values
      ensures State() == old(State()).Sync(force, buffers.Keys)
      ensures B.States(buffers) == B.SyncSome(old(B.States(buffers)), BuffersOf(current), force)
    {
      ghost var start := B.States(buffers);
      if proxy.None? {
        proxy := Some(map[]);
      }
      ghost var copy := proxy.value;
      ghost var done: set<nat>, reached: set<Id> := {}, {};
      var keys := current.Keys;
      while keys != {}
        invariant keys <= current.Keys && done == current.Keys - keys
        invariant pending == old(pending) && current == old(current) && proxy.Some?
        invariant proxy.value == SendSome(copy, current, done, buffers.Keys, force)
        invariant reached == set i | i in done && current[i].buffer.Some? :: current[i].buffer.value
        invariant B.States(buffers) == B.SyncSome(start, reached, force)
        decreases keys
      {
        var index :| index in keys;
        SendNext(copy, current, done, index, buffers.Keys, force);
        keys, done := keys - {index}, done + {index};
        if current[index].buffer.Some? {
          B.SyncSomeTwice(start, reached, {current[index].buffer.value}, force);
          reached := reached + {current[index].buffer.value};
        }
        SyncAttribute(index, session, force, buffers);
      }
      assert done == current.Keys;
      assert reached == BuffersOf(current);
    }

    function RemoteId(): Id
      requires proxy.Some?
      reads this
    {
      id
    }

    method SetEnability(index: nat, enabled: bool)
      modifies this
      ensures State() == old(State()).SetEnability(index, enabled)
    {
      if index !in pending {
        pending := pending[index := ZERO];
      }
      pending := pending[index := pending[index].(enabilityChanged := true)];
      pending := pending[index := pending[index].(enabled := enabled)];
    }

    method SetPointer(index: nat, pointer: Pointer)
      modifies this
      ensures State() == old(State()).SetPointer(index, pointer)
    {
      if index !in pending {
        pending := pending[index := ZERO];
      }
      var a := pending[index];
      a := a.(offset := pointer.offset);
      a := a.(size := pointer.size, kind := pointer.kind, normalized := pointer.normalized, stride := pointer.stride);
      a := a.(bufferChanged := true, buffer := Some(pointer.buffer));
      pending := pending[index := a];
    }
  }

  // Locks a weak pointer and commits its target.
  method CommitLocked(reg: Registry, i: Id, buffers: B.Registry, shm: map<Id, Bytes>)
    requires Filed(reg) && B.Filed(buffers)
    modifies reg.Values, buffers.Values
    ensures States(reg) == CommitSome(old(States(reg)), {i})
    ensures B.States(buffers) ==
            B.CommitSome(old(B.States(buffers)), if i in reg then BuffersOf(old(reg[i].State()).pending) else {}, shm)
  {
    if i in reg {
      reg[i].Commit(buffers, shm);
    }
  }

  // Locks a weak pointer and syncs its target; tells whether it was live.
  method SyncLocked(reg: Registry, i: Id, session: bool, force: bool, buffers: B.Registry) returns (live: bool)
    requires session && Filed(reg) && B.Filed(buffers)
    modifies reg.Values, buffers.Values
    ensures States(reg) == SyncSome(old(States(reg)), {i}, force, buffers.Keys)
    ensures B.States(buffers) ==
            B.SyncSome(old(B.States(buffers)), if i in reg then BuffersOf(old(reg[i].State()).current) else {}, force)
    ensures live == (i in reg) && (live ==> reg[i].proxy.Some?)
  {
    live := i in reg;
    if live {
      reg[i].Sync(session, force, buffers);
    }
  }

  // The same for a slot that may be empty.
  method CommitSlot(reg: Registry, slot: Option<Id>, buffers: B.Registry, shm: map<Id, Bytes>)
    requires Filed(reg) && B.Filed(buffers)
    modifies reg.Values, buffers.Values
    ensures States(reg) == CommitSome(old(States(reg)), Opt(slot))
    ensures B.States(buffers) == B.CommitSome(old(B.States(buffers)), PendingBuffers(old(States(reg)), slot), shm)
  {
    if slot.Some? {
      CommitLocked(reg, slot.value, buffers, shm);
    }
  }

  method SyncSlot(reg: Registry, slot: Option<Id>, session: bool, force: bool, buffers: B.Registry) returns (live: bool)
    requires session && Filed(reg) && B.Filed(buffers)
    modifies reg.Values, buffers.Values
    ensures States(reg) == SyncSome(old(States(reg)), Opt(slot), force, buffers.Keys)
    ensures B.States(buffers) == B.SyncSome(old(B.States(buffers)), CurrentBuffers(old(States(reg)), slot), force)
    ensures live == (slot.Some? && slot.value in reg) && (live ==> reg[slot.value].proxy.Some?)
  {
    live := false;
    if slot.Some? {
      live := SyncLocked(reg, slot.value, session, force, buffers);
    }
  }

  // A lost session: no object has a copy any more.
  ghost function Dropped(all: map<Id, VertexArray>): map<Id, VertexArray> {
    map i | i in all :: all[i].(proxy := None)
  }

  method DropCopies(reg: Registry)
    requires Filed(reg)
    modifies reg.Values`proxy
    ensures States(reg) == Dropped(old(States(reg)))
  {
    forall i | i in reg {
      reg[i].proxy := None;
    }
  }
}

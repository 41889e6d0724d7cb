// The texture bindings of a technique: one entry per binding point, each
// weakly holding a texture and a sampler.
module TextureBindings {
  import opened Common
  import T = Textures
  import S = Samplers

  datatype Binding = Binding(binding: nat, name: string, target: nat, texture: Id, sampler: Id) {
    predicate Live(textures: set<Id>, samplers: set<Id>) {
      texture in textures && sampler in samplers
    }
  }

  datatype Bindings = Bindings(list: seq<Binding>, changed: bool)

  function KeepLive(list: seq<Binding>, textures: set<Id>, samplers: set<Id>): seq<Binding> {
    if list == [] then []
    else
      var rest, last := KeepLive(list[..|list| - 1], textures, samplers), list[|list| - 1];
      if last.Live(textures, samplers) then rest + [last] else rest
  }

  function RemovePoint(list: seq<Binding>, point: nat): seq<Binding> {
    if list == [] then []
    else
      var rest, last := RemovePoint(list[..|list| - 1], point), list[|list| - 1];
      if last.binding == point then rest else rest + [last]
  }

  function Emplace(list: seq<Binding>, b: Binding): seq<Binding> {
    RemovePoint(list, b.binding) + [b]
  }

  // The renderer's binding points after the list is bound in order.
  function BindAll(remote: map<nat, Binding>, list: seq<Binding>): map<nat, Binding> {
    if list == [] then remote
    else
      var last := list[|list| - 1];
      BindAll(remote, list[..|list| - 1])[last.binding := last]
  }

  ghost predicate Unique(list: seq<Binding>) {
    forall i, j :: 0 <= i < j < |list| ==> list[i].binding != list[j].binding
  }

  ghost function Points(list: seq<Binding>): set<nat> {
    set b | b in list :: b.binding
  }

  ghost function TexturesOf(list: seq<Binding>): set<Id> {
    set b | b in list :: b.texture
  }

  ghost function SamplersOf(list: seq<Binding>): set<Id> {
    set b | b in list :: b.sampler
  }

  lemma {:induction false} KeepLiveElements(list: seq<Binding>, textures: set<Id>, samplers: set<Id>)
    ensures forall b :: b in KeepLive(list, textures, samplers) <==> b in list && b.Live(textures, samplers)
    ensures Unique(list) ==> Unique(KeepLive(list, textures, samplers))
  {
    if list != [] {
      var init, last := list[..|list| - 1], list[|list| - 1];
      KeepLiveElements(init, textures, samplers);
      assert list == init + [last];
      var kept := KeepLive(init, textures, samplers);
      if Unique(list) {
        forall i | 0 <= i < |kept|
          ensures kept[i].binding != last.binding
        {
          assert kept[i] in init;
        }
      }
    }
  }

  lemma {:induction false} KeepLiveAll(list: seq<Binding>, textures: set<Id>, samplers: set<Id>)
    requires forall b :: b in list ==> b.Live(textures, samplers)
    ensures KeepLive(list, textures, samplers) == list
  {
    if list != [] {
      KeepLiveAll(list[..|list| - 1], textures, samplers);
      assert list[|list| - 1] in list;
    }
  }

  lemma {:induction false} RemovePointElements(list: seq<Binding>, point: nat)
    ensures forall b :: b in RemovePoint(list, point) <==> b in list && b.binding != point
  {
    if list != [] {
      RemovePointElements(list[..|list| - 1], point);
      assert list == list[..|list| - 1] + [list[|list| - 1]];
    }
  }

  lemma {:induction false} RemovePointUnique(list: seq<Binding>, point: nat)
    requires Unique(list)
    ensures Unique(RemovePoint(list, point))
  {
    if list != [] {
      var init, last := list[..|list| - 1], list[|list| - 1];
      RemovePointUnique(init, point);
      RemovePointElements(init, point);
      var kept := RemovePoint(init, point);
      forall i | 0 <= i < |kept|
        ensures kept[i].binding != last.binding
      {
        assert kept[i] in init;
      }
    }
  }

  // A binding point is held by at most one entry, the last one emplaced.
  lemma EmplaceUnique(list: seq<Binding>, b: Binding)
    requires Unique(list)
    ensures Unique(Emplace(list, b))
    ensures forall c :: c in Emplace(list, b) <==> c == b || (c in list && c.binding != b.binding)
    ensures Points(Emplace(list, b)) == Points(list) + {b.binding}
  {
    RemovePointUnique(list, b.binding);
    RemovePointElements(list, b.binding);
    var kept := RemovePoint(list, b.binding);
    assert forall i :: 0 <= i < |kept| ==> kept[i] in kept;
    forall p | p in Points(list) + {b.binding}
      ensures p in Points(Emplace(list, b))
    {
      if p == b.binding {
        assert b in Emplace(list, b);
      } else {
        var c :| c in list && c.binding == p;
        assert c in Emplace(list, b);
      }
    }
  }

  lemma {:induction false} BindAllKeys(remote: map<nat, Binding>, list: seq<Binding>)
    ensures BindAll(remote, list).Keys == remote.Keys + Points(list)
  {
    if list == [] {
      assert Points(list) == {};
    } else {
      var init, last := list[..|list| - 1], list[|list| - 1];
      BindAllKeys(remote, init);
      assert list == init + [last];
      assert Points(list) == Points(init) + {last.binding};
    }
  }

  // Binding a list in order leaves each of its entries at its point.
  lemma {:induction false} BindAllEntry(remote: map<nat, Binding>, list: seq<Binding>, b: Binding)
    requires Unique(list) && b in list
    ensures b.binding in BindAll(remote, list) && BindAll(remote, list)[b.binding] == b
  {
    var init, last := list[..|list| - 1], list[|list| - 1];
    assert list == init + [last];
    if b != last {
      var i :| 0 <= i < |init| && init[i] == b;
      BindAllEntry(remote, init, b);
    }
  }

  lemma TakeNext(remote: map<nat, Binding>, list: seq<Binding>, i: nat)
    requires i < |list|
    ensures TexturesOf(list[..i + 1]) == TexturesOf(list[..i]) + {list[i].texture}
    ensures SamplersOf(list[..i + 1]) == SamplersOf(list[..i]) + {list[i].sampler}
    ensures BindAll(remote, list[..i + 1]) == BindAll(remote, list[..i])[list[i].binding := list[i]]
  {
    assert list[..i + 1] == list[..i] + [list[i]];
    assert list[..i + 1][..i] == list[..i];
  }

  function CommitPending(pending: Bindings, textures: set<Id>, samplers: set<Id>): Bindings {
    Bindings(KeepLive(pending.list, textures, samplers), false)
  }

  function CommitCurrent(pending: Bindings, current: Bindings, textures: set<Id>, samplers: set<Id>): Bindings {
    Bindings(
      if pending.changed then KeepLive(pending.list, textures, samplers)
          else KeepLive(current.list, textures, samplers),
      pending.changed)
  }

  function SyncCurrent(current: Bindings, textures: set<Id>, samplers: set<Id>): Bindings {
    current.(list := KeepLive(current.list, textures, samplers))
  }

  function SyncRemote(remote: map<nat, Binding>, current: Bindings, force: bool, textures: set<Id>, samplers: set<Id>)
    : map<nat, Binding>
  {
    if force || current.changed then BindAll(remote, KeepLive(current.list, textures, samplers)) else remote
  }

  class TextureBindingList {
    const owner: Id
    const isPending: bool
    var list: seq<Binding>
    var changed: bool

    constructor (owner: Id, isPending: bool)
      ensures this.owner == owner && this.isPending == isPending && State() == Bindings([], false)
    {
      this.owner, this.isPending := owner, isPending;
      list, changed := [], false;
    }

    function State(): Bindings
      reads this
    {
      Bindings(list, changed)
    }

    method RemoveExpired(textures: set<Id>, samplers: set<Id>)
      modifies this`list
      ensures list == KeepLive(old(list), textures, samplers)
    {
      list := KeepLive(list, textures, samplers);
    }

    static method Commit(
      pending: TextureBindingList, current: TextureBindingList, textures: T.Registry, samplers: S.Registry,
      shm: map<Id, Bytes>)
      requires pending != current && T.Filed(textures) && S.Filed(samplers)
      modifies pending, current, textures.Values, samplers.Values
      ensures pending.State() == CommitPending(old(pending.State()), textures.Keys, samplers.Keys)
      ensures current.State() ==
              CommitCurrent(old(pending.State()), old(current.State()), textures.Keys, samplers.Keys)
      ensures T.States(textures) == T.CommitSome(old(T.States(textures)), TexturesOf(current.list), shm)
      ensures S.States(samplers) == S.CommitSome(old(S.States(samplers)), SamplersOf(current.list))
    {
      CommitLists(pending, current, textures.Keys, samplers.Keys);
      label listsDone:
      assert unchanged(textures.Values) && unchanged(samplers.Values);
      CommitTargets(current.list, textures, samplers, shm);
      assert unchanged@listsDone(pending) && unchanged@listsDone(current);
    }

    static method CommitLists(
      pending: TextureBindingList, current: TextureBindingList, textures: set<Id>, samplers: set<Id>)
      requires pending != current
      modifies pending, current
      ensures pending.State() == CommitPending(old(pending.State()), textures, samplers)
      ensures current.State() == CommitCurrent(old(pending.State()), old(current.State()), textures, samplers)
    {
      pending.RemoveExpired(textures, samplers);
      current.changed := pending.changed;
      if pending.changed {
        current.list := [];
        current.list := current.list + pending.list;
        pending.changed := false;
      } else {
        current.RemoveExpired(textures, samplers);
      }
    }

    static method CommitTargets(
      list: seq<Binding>, textures: T.Registry, samplers: S.Registry, shm: map<Id, Bytes>)
      requires T.Filed(textures) && S.Filed(samplers)
      modifies textures.Values, samplers.Values
      ensures T.States(textures) == T.CommitSome(old(T.States(textures)), TexturesOf(list), shm)
      ensures S.States(samplers) == S.CommitSome(old(S.States(samplers)), SamplersOf(list))
    {
      ghost var textures0, samplers0 := T.States(textures), S.States(samplers);
      ghost var ts, ss: set<Id> := {}, {};
      for i := 0 to |list|
        invariant ts == TexturesOf(list[..i]) && ss == SamplersOf(list[..i])
        invariant T.States(textures) == T.CommitSome(textures0, ts, shm)
        invariant S.States(samplers) == S.CommitSome(samplers0, ss)
      {
        TakeNext(map[], list, i);
        T.CommitSomeTwice(textures0, ts, {list[i].texture}, shm);
        S.CommitSomeTwice(samplers0, ss, {list[i].sampler});
        ts, ss := ts + {list[i].texture}, ss + {list[i].sampler};
        CommitTarget(list[i], textures, samplers, shm);
      }
      assert list[..|list|] == list;
    }

    static method CommitTarget(b: Binding, textures: T.Registry, samplers: S.Registry, shm: map<Id, Bytes>)
      requires T.Filed(textures) && S.Filed(samplers)
      modifies textures.Values, samplers.Values
      ensures T.States(textures) == T.CommitSome(old(T.States(textures)), {b.texture}, shm)
      ensures S.States(samplers) == S.CommitSome(old(S.States(samplers)), {b.sampler})
    {
      T.CommitLocked(textures, b.texture, shm);
      label textureDone:
      assert S.States(samplers) == old(S.States(samplers));
      S.CommitLocked(samplers, b.sampler);
      assert unchanged@textureDone(textures.Values);
    }

    // Returns the renderer's binding points after the sync.
    method Sync(
      remote: map<nat, Binding>, session: bool, force: bool, textures: T.Registry, samplers: S.Registry)
      returns (remote': map<nat, Binding>)
      requires session && T.Filed(textures) && S.Filed(samplers)
      modifies this, textures.Values, samplers.Values
      ensures State() == SyncCurrent(old(State()), textures.Keys, samplers.Keys)
      ensures remote' == SyncRemote(remote, old(State()), force, textures.Keys, samplers.Keys)
      ensures T.States(textures) == T.SyncSome(old(T.States(textures)), TexturesOf(list), force)
      ensures S.States(samplers) == S.SyncSome(old(S.States(samplers)), SamplersOf(list), force)
    {
      RemoveExpired(textures.Keys, samplers.Keys);
      KeepLiveElements(old(list), textures.Keys, samplers.Keys);
      remote' := SyncTargets(list, remote, session, force || changed, force, textures, samplers);
    }

    static method SyncTargets(
      list: seq<Binding>, remote: map<nat, Binding>, session: bool, bind: bool, force: bool,
      textures: T.Registry, samplers: S.Registry)
      returns (remote': map<nat, Binding>)
      requires session && T.Filed(textures) && S.Filed(samplers)
      requires forall b :: b in list ==> b.Live(textures.Keys, samplers.Keys)
      modifies textures.Values, samplers.Values
      ensures remote' == if bind then BindAll(remote, list) else remote
      ensures T.States(textures) == T.SyncSome(old(T.States(textures)), TexturesOf(list), force)
      ensures S.States(samplers) == S.SyncSome(old(S.States(samplers)), SamplersOf(list), force)
    {
      ghost var textures0, samplers0 := T.States(textures), S.States(samplers);
      ghost var ts, ss: set<Id> := {}, {};
      remote' := remote;
      for i := 0 to |list|
        invariant ts == TexturesOf(list[..i]) && ss == SamplersOf(list[..i])
        invariant remote' == if bind then BindAll(remote, list[..i]) else remote
        invariant T.States(textures) == T.SyncSome(textures0, ts, force)
        invariant S.States(samplers) == S.SyncSome(samplers0, ss, force)
      {
        var b := list[i];
        TakeNext(remote, list, i);
        T.SyncSomeTwice(textures0, ts, {b.texture}, force);
        S.SyncSomeTwice(samplers0, ss, {b.sampler}, force);
        ts, ss := ts + {b.texture}, ss + {b.sampler};
        var bound := SyncTarget(b, session, force, textures, samplers);
        if bind {
          remote' := remote'[b.binding := bound];
        }
      }
      assert list[..|list|] == list;
    }

    // Syncs both targets and returns the entry as the renderer is told it.
    static method SyncTarget(b: Binding, session: bool, force: bool, textures: T.Registry, samplers: S.Registry)
      returns (bound: Binding)
      requires session && T.Filed(textures) && S.Filed(samplers) && b.Live(textures.Keys, samplers.Keys)
      modifies textures.Values, samplers.Values
      ensures bound == b
      ensures T.States(textures) == T.SyncSome(old(T.States(textures)), {b.texture}, force)
      ensures S.States(samplers) == S.SyncSome(old(S.States(samplers)), {b.sampler}, force)
    {
      var _ := T.SyncLocked(textures, b.texture, session, force);
      label textureDone:
      assert S.States(samplers) == old(S.States(samplers));
      var _ := S.SyncLocked(samplers, b.sampler, session, force);
      assert unchanged@textureDone(textures.Values);
      bound := Binding(b.binding, b.name, b.target, textures[b.texture].RemoteId(), samplers[b.sampler].RemoteId());
    }

    method EmplaceBinding(b: Binding)
      modifies this
      ensures State() == Bindings(Emplace(old(list), b), true)
    {
      list := RemovePoint(list, b.binding);
      list := list + [b];
      changed := true;
    }
  }
}

// A GL buffer: its data is copied at commit and sent while damaged.
module Buffers {
  import opened Common

  datatype BufferPending = BufferPending(target: nat, usage: nat, data: Option<Id>)
  datatype BufferCurrent = BufferCurrent(damaged: bool, target: nat, usage: nat, data: Option<Bytes>)
  datatype Content = Content(data: Option<Bytes>, target: nat, usage: nat)

  // The copy on the renderer; a new copy has no content until some is sent.
  datatype RemoteBuffer = RemoteBuffer(content: Option<Content>)

  datatype Buffer = Buffer(pending: BufferPending, current: BufferCurrent, proxy: Option<RemoteBuffer>) {
    function Requested(target: nat, usage: nat, data: Id): Buffer {
      this.(pending := BufferPending(target, usage, Some(data)))
    }

    // The linked shm resource, unless it has been destroyed since.
    predicate HasResource(shm: map<Id, Bytes>) {
      pending.data.Some? && pending.data.value in shm
    }

    function Commit(shm: map<Id, Bytes>): Buffer {
      if !HasResource(shm) then this
      else
        Buffer(pending.(data := None),
               BufferCurrent(true, pending.target, pending.usage, Some(shm[pending.data.value])),
               proxy)
    }

    function CurrentContent(): Content {
      Content(current.data, current.target, current.usage)
    }

    function Sync(force: bool): Buffer {
      if force || current.damaged then
        Buffer(pending, current.(damaged := false), Some(RemoteBuffer(Some(CurrentContent()))))
      else
        this.(proxy := Some(proxy.GetOr(RemoteBuffer(None))))
    }

    // A clear flag means that whatever content the renderer has is current.
    predicate FlagSound() {
      proxy.Some? && proxy.value.content.Some? && !current.damaged ==>
        proxy.value.content == Some(CurrentContent())
    }

    // The renderer has this buffer but never received content for it.
    predicate Blank() {
      proxy.Some? && proxy.value.content.None?
    }

    predicate Clean() {
      proxy.Some? && !current.damaged
    }

    predicate Exact() {
      proxy == Some(RemoteBuffer(Some(CurrentContent())))
    }
  }

  // Committing twice is committing once, and likewise for a sync.
  lemma CommitIdempotent(b: Buffer, shm: map<Id, Bytes>)
    ensures b.Commit(shm).Commit(shm) == b.Commit(shm)
  {
  }

  // A sync leaves the renderer exact iff it sends, or the renderer already
  // had content: the one failure is a clean buffer first synced unforced.
  lemma SyncExactIff(b: Buffer, force: bool)
    requires b.FlagSound()
    ensures b.Sync(force).FlagSound() && b.Sync(force).Clean()
    ensures b.Sync(force).Exact() <==> (force || b.current.damaged || (b.proxy.Some? && !b.Blank()))
    ensures b.Sync(force).Exact() <==> !b.Sync(force).Blank()
  {
  }

  class GlBuffer {
    const id: Id
    var pending: BufferPending
    var current: BufferCurrent
    var proxy: Option<RemoteBuffer>

    // `current` is not initialised by the source; `junk` is what it starts as.
    constructor (id: Id, junk: BufferCurrent, target: nat, usage: nat)
      requires junk.data.None?
      ensures this.id == id && State() == Buffer(BufferPending(target, usage, None), junk, None)
    {
      this.id := id;
      pending := BufferPending(target, usage, None);
      current := junk;
      proxy := None;
    }

    function State(): Buffer
      reads this
    {
      Buffer(pending, current, proxy)
    }

    method Commit(shm: map<Id, Bytes>)
      modifies this
      ensures State() == old(State()).Commit(shm)
    {
      if !(pending.data.Some? && pending.data.value in shm) {
        return;
      }
      if current.data.Some? {
        current := current.(data := None);
      }
      current := current.(data := Some(shm[pending.data.value]));
      current := current.(damaged := true);
      current := current.(target := pending.target);
      current := current.(usage := pending.usage);
      pending := pending.(data := None);
    }

    method Sync(session: bool, force: bool)
      requires session
      modifies this
      ensures State() == old(State()).Sync(force)
    {
      if proxy.None? {
        proxy := Some(RemoteBuffer(None));
      }
      if !force && !current.damaged {
        return;
      }
      proxy := Some(RemoteBuffer(Some(Content(current.data, current.target, current.usage))));
      current := current.(damaged := false);
    }

    // The remote id; the source asserts that there is one.
    function RemoteId(): Id
      requires proxy.Some?
      reads this
    {
      id
    }

    method UpdatePendingData(target: nat, usage: nat, data: Id)
      modifies this
      ensures State() == old(State()).Requested(target, usage, data)
    {
      pending := pending.(target := target);
      pending := pending.(usage := usage);
      pending := pending.(data := Some(data));
    }
  }

  // The live objects, each filed under its own id.
  type Registry = map<Id, GlBuffer>

  ghost predicate Filed(reg: Registry) {
    forall i :: i in reg ==> reg[i].id == i
  }

  ghost function States(reg: Registry): map<Id, Buffer>
    reads reg.Values
  {
    map i | i in reg :: reg[i].State()
  }

  ghost function CommitSome(all: map<Id, Buffer>, which: set<Id>, shm: map<Id, Bytes>): map<Id, Buffer> {
    map i | i in all :: if i in which then all[i].Commit(shm) else all[i]
  }

  lemma CommitSomeTwice(all: map<Id, Buffer>, a: set<Id>, b: set<Id>, shm: map<Id, Bytes>)
    ensures CommitSome(CommitSome(all, a, shm), b, shm) == CommitSome(all, a + b, shm)
  {
    forall i | i in all
      ensures all[i].Commit(shm).Commit(shm) == all[i].Commit(shm)
    {
      CommitIdempotent(all[i], shm);
    }
  }

  // Locks a weak pointer and commits its target.
  method CommitLocked(reg: Registry, i: Id, shm: map<Id, Bytes>)
    requires Filed(reg)
    modifies reg.Values
    ensures States(reg) == CommitSome(old(States(reg)), {i}, shm)
  {
    if i in reg {
      reg[i].Commit(shm);
    }
  }

  ghost function SyncSome(all: map<Id, Buffer>, which: set<Id>, force: bool): map<Id, Buffer> {
    map i | i in all :: if i in which then all[i].Sync(force) else all[i]
  }

  lemma SyncSomeTwice(all: map<Id, Buffer>, a: set<Id>, b: set<Id>, force: bool)
    ensures SyncSome(SyncSome(all, a, force), b, force) == SyncSome(all, a + b, force)
  {
    assert forall i :: i in all ==> all[i].Sync(force).Sync(force) == all[i].Sync(force);
  }

  // Locks a weak pointer and syncs its target; tells whether it was live.
  method SyncLocked(reg: Registry, i: Id, session: bool, force: bool) returns (live: bool)
    requires session && Filed(reg)
    modifies reg.Values
    ensures States(reg) == SyncSome(old(States(reg)), {i}, force)
    ensures live == (i in reg) && (live ==> reg[i].proxy.Some?)
  {
    live := i in reg;
    if live {
      reg[i].Sync(session, force);
    }
  }

  // A lost session: no object has a copy any more.
  ghost function Dropped(all: map<Id, Buffer>): map<Id, Buffer> {
    map i | i in all :: all[i].(proxy := None)
  }

  method DropCopies(reg: Registry)
    requires Filed(reg)
    modifies reg.Values`proxy
    ensures States(reg) == Dropped(old(States(reg)))
  {
    forall i | i in reg {
      reg[i].proxy := None;
    }
  }
}

// The draw call of a technique.
module DrawCalls {
  import opened Common
  import B = Buffers

  datatype Draw =
    | NoDraw
    | Arrays(mode: nat, first: int, count: nat)
    | Elements(mode: nat, count: nat, indexType: nat, offset: nat, buffer: Id)
  {
    predicate Live(buffers: set<Id>) {
      Elements? ==> buffer in buffers
    }

    ghost function BufferSet(): set<Id> {
      if Elements? then {buffer} else {}
    }
  }

  datatype DrawArgs = DrawArgs(data: Draw, changed: bool)

  function CommitPending(pending: DrawArgs): DrawArgs {
    if pending.changed then DrawArgs(NoDraw, false) else pending
  }

  function CommitCurrent(pending: DrawArgs, current: DrawArgs): DrawArgs {
    if pending.changed then pending else current.(changed := false)
  }

  // The index buffer is committed only together with a new draw call.
  ghost function CommitBuffers(pending: DrawArgs): set<Id> {
    if pending.changed then pending.data.BufferSet() else {}
  }

  // A draw call whose index buffer is dead is not sent.
  function SyncRemote(remote: Draw, current: DrawArgs, force: bool, buffers: set<Id>): Draw {
    if (force || current.changed) && !current.data.NoDraw? && current.data.Live(buffers) then current.data else remote
  }

  class DrawApiArgs {
    const owner: Id
    const isPending: bool
    var data: Draw
    var changed: bool

    constructor (owner: Id, isPending: bool)
      ensures this.owner == owner && this.isPending == isPending
      ensures State() == DrawArgs(NoDraw, false)
    {
      this.owner, this.isPending := owner, isPending;
      data, changed := NoDraw, false;
    }

    function State(): DrawArgs
      reads this
    {
      DrawArgs(data, changed)
    }

    static method Commit(pending: DrawApiArgs, current: DrawApiArgs, buffers: B.Registry, shm: map<Id, Bytes>)
      requires pending != current && B.Filed(buffers)
      modifies pending, current, buffers.Values
      ensures pending.State() == CommitPending(old(pending.State()))
      ensures current.State() == CommitCurrent(old(pending.State()), old(current.State()))
      ensures B.States(buffers) == B.CommitSome(old(B.States(buffers)), CommitBuffers(old(pending.State())), shm)
    {
      if pending.changed && pending.data.Elements? {
        B.CommitLocked(buffers, pending.data.buffer, shm);
      }
      label buffersDone:
      current.changed := pending.changed;
      if pending.changed {
        current.data := pending.data;
        pending.data := NoDraw;
        pending.changed := false;
      }
      assert unchanged@buffersDone(buffers.Values);
    }

    // Returns the renderer's draw call after the sync.
    method Sync(remote: Draw, session: bool, force: bool, buffers: B.Registry) returns (remote': Draw)
      requires session && B.Filed(buffers)
      modifies buffers.Values
      ensures remote' == SyncRemote(remote, State(), force, buffers.Keys)
      ensures B.States(buffers) == B.SyncSome(old(B.States(buffers)), data.BufferSet(), force)
    {
      remote' := remote;
      var shouldSync := force || changed;
      match data
      case Arrays(mode, first, count) =>
        if shouldSync {
          remote' := Arrays(mode, first, count);
        }
      case Elements(mode, count, indexType, offset, buffer) =>
        var live := B.SyncLocked(buffers, buffer, session, force);
        if !live {
          return;
        }
        if shouldSync {
          remote' := Elements(mode, count, indexType, offset, buffers[buffer].RemoteId());
        }
      case NoDraw =>
    }

    method SetArraysArgs(mode: nat, first: int, count: nat)
      modifies this
      ensures State() == DrawArgs(Arrays(mode, first, count), true)
    {
      changed := true;
      data := Arrays(mode, first, count);
    }

    method SetElementsArgs(mode: nat, count: nat, indexType: nat, offset: nat, buffer: Id)
      modifies this
      ensures State() == DrawArgs(Elements(mode, count, indexType, offset, buffer), true)
    {
      changed := true;
      data := Elements(mode, count, indexType, offset, buffer);
    }
  }
}

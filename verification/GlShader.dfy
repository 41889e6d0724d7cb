// A GL shader: its copy on the renderer is made on demand.
module Shaders {
  import opened Common

  datatype Shader = Shader(kind: nat, source: Bytes, proxy: bool) {
    function Sync(): Shader {
      this.(proxy := true)
    }
  }

  class GlShader {
    const id: Id
    const kind: nat
    const source: Bytes
    var proxy: bool

    constructor (id: Id, kind: nat, source: Bytes)
      ensures this.id == id && State() == Shader(kind, source, false)
    {
      this.id, this.kind, this.source := id, kind, source;
      proxy := false;
    }

    function State(): Shader
      reads this
    {
      Shader(kind, source, proxy)
    }

    method Sync(session: bool)
      requires session
      modifies this
      ensures State() == old(State()).Sync()
    {
      if !proxy {
        proxy := true;
      }
    }

    function RemoteId(): Id
      requires proxy
      reads this
    {
      id
    }
  }

  // The live objects, each filed under its own id.
  type Registry = map<Id, GlShader>

  ghost predicate Filed(reg: Registry) {
    forall i :: i in reg ==> reg[i].id == i
  }

  ghost function States(reg: Registry): map<Id, Shader>
    reads reg.Values
  {
    map i | i in reg :: reg[i].State()
  }

  ghost function SyncSome(all: map<Id, Shader>, which: set<Id>): map<Id, Shader> {
    map i | i in all :: if i in which then all[i].Sync() else all[i]
  }

  lemma SyncSomeTwice(all: map<Id, Shader>, a: set<Id>, b: set<Id>)
    ensures SyncSome(SyncSome(all, a), b) == SyncSome(all, a + b)
  {
    assert forall i :: i in all ==> all[i].Sync().Sync() == all[i].Sync();
  }

  // Locks a weak pointer and syncs its target; tells whether it was live.
  method SyncLocked(reg: Registry, i: Id, session: bool) returns (live: bool)
    requires session && Filed(reg)
    modifies reg.Values
    ensures States(reg) == SyncSome(old(States(reg)), {i})
    ensures live == (i in reg) && (live ==> reg[i].proxy)
  {
    live := i in reg;
    if live {
      reg[i].Sync(session);
    }
  }

  // A lost session: no object has a copy any more.
  ghost function Dropped(all: map<Id, Shader>): map<Id, Shader> {
    map i | i in all :: all[i].(proxy := false)
  }

  method DropCopies(reg: Registry)
    requires Filed(reg)
    modifies reg.Values`proxy
    ensures States(reg) == Dropped(old(States(reg)))
  {
    forall i | i in reg {
      reg[i].proxy := false;
    }
  }
}

// A GL sampler: pending parameters overlay the current ones, and every
// parameter stays flagged for ever.
module Samplers {
  import opened Common

  datatype ParamType = F | I | FV | IV | IIV | IUIV
  datatype Param = Param(changed: bool, paramType: ParamType, value: Bytes)
  datatype RemoteParam = RemoteParam(paramType: ParamType, value: Bytes)

  const MIN_FILTER := 0x2801
  const MAG_FILTER := 0x2800
  const WRAP_S := 0x2802
  const WRAP_T := 0x2803
  const WRAP_R := 0x8072
  const MIN_LOD := 0x813A
  const MAX_LOD := 0x813B
  const COMPARE_MODE := 0x884C
  const COMPARE_FUNC := 0x884D
  const BORDER_COLOR := 0x1004

  // The byte size of each known parameter.
  function ExpectedSize(pname: nat): Option<nat> {
    if pname == BORDER_COLOR then Some(16)
    else if pname in {MIN_FILTER, MAG_FILTER, WRAP_S, WRAP_T, WRAP_R, MIN_LOD, MAX_LOD, COMPARE_MODE, COMPARE_FUNC} then
      Some(4)
    else None
  }

  datatype ParamError = InvalidEnum | WrongSize

  datatype Sampler = Sampler(pending: map<nat, Param>, current: map<nat, Param>, proxy: Option<map<nat, RemoteParam>>) {
    function Commit(): Sampler {
      Sampler(map[], current + pending, proxy)
    }

    function Sync(force: bool): Sampler {
      this.(proxy := Some(proxy.GetOr(map[]) + Sent(force)))
    }

    function Sent(force: bool): map<nat, RemoteParam> {
      map p | p in current && (force || current[p].changed) :: RemoteParam(current[p].paramType, current[p].value)
    }

    function Rejects(pname: nat, value: Bytes): Option<ParamError> {
      var expected := ExpectedSize(pname);
      if expected.None? then Some(InvalidEnum)
      else if |value| != expected.value then Some(WrongSize)
      else None
    }

    function SetParameter(paramType: ParamType, pname: nat, value: Bytes): Sampler {
      if Rejects(pname, value).Some? then this
      else this.(pending := pending[pname := Param(true, paramType, value)])
    }

    // No flag is ever cleared, and the renderer knows no other parameter.
    ghost predicate FlagSound() {
      && (forall p :: p in pending ==> pending[p].changed)
      && (forall p :: p in current ==> current[p].changed)
      && (proxy.Some? ==> proxy.value.Keys <= current.Keys)
    }

    function Everything(): map<nat, RemoteParam> {
      map p | p in current :: RemoteParam(current[p].paramType, current[p].value)
    }

    predicate Exact() {
      proxy == Some(Everything())
    }
  }

  lemma CommitIdempotent(s: Sampler)
    ensures s.Commit().Commit() == s.Commit()
  {
    assert s.Commit().current + map[] == s.Commit().current;
  }

  lemma SyncIdempotent(s: Sampler, force: bool)
    ensures s.Sync(force).Sync(force) == s.Sync(force)
  {
    var r := s.proxy.GetOr(map[]);
    assert r + s.Sent(force) + s.Sent(force) == r + s.Sent(force);
  }

  // Every sync leaves the renderer with exactly the current parameters.
  lemma SyncExact(s: Sampler, force: bool)
    requires s.FlagSound()
    ensures s.Sync(force).FlagSound() && s.Sync(force).Exact()
    ensures s.Commit().FlagSound()
  {
    assert s.Sent(force) == s.Everything();
    assert s.proxy.GetOr(map[]) + s.Everything() == s.Everything();
    assert s.Sync(force).Everything() == s.Everything();
  }

  class GlSampler {
    const id: Id
    var pending: map<nat, Param>
    var current: map<nat, Param>
    var proxy: Option<map<nat, RemoteParam>>

    constructor (id: Id)
      ensures this.id == id && State() == Sampler(map[], map[], None)
    {
      this.id := id;
      pending, current, proxy := map[], map[], None;
    }

    function State(): Sampler
      reads this
    {
      Sampler(pending, current, proxy)
    }

    method Commit()
      modifies this
      ensures State() == old(State()).Commit()
    {
      ghost var done: set<nat> := {};
      var keys := pending.Keys;
      while keys != {}
        invariant keys <= pending.Keys && done == pending.Keys - keys
        invariant pending == old(pending) && proxy == old(proxy)
        invariant current == old(current) + map p | p in done :: pending[p]
        decreases keys
      {
        var pname :| pname in keys;
        current := current[pname := pending[pname]];
        keys := keys - {pname};
        done := done + {pname};
      }
      assert (map p | p in done :: pending[p]) == pending;
      pending := map[];
    }

    method Sync(session: bool, force: bool)
      requires session
      modifies this
      ensures State() == old(State()).Sync(force)
    {
      if proxy.None? {
        proxy := Some(map[]);
      }
      ghost var start := proxy.value;
      ghost var done: set<nat> := {};
      var keys := current.Keys;
      while keys != {}
        invariant keys <= current.Keys && done == current.Keys - keys
        invariant pending == old(pending) && current == old(current) && proxy.Some?
        invariant proxy.value == start + map p | p in done && (force || current[p].changed) ::
                    RemoteParam(current[p].paramType, current[p].value)
        decreases keys
      {
        var pname :| pname in keys;
        keys := keys - {pname};
        done := done + {pname};
        var param := current[pname];
        if force || param.changed {
          proxy := Some(proxy.value[pname := RemoteParam(param.paramType, param.value)]);
        }
      }
      assert done == current.Keys;
      assert (map p | p in done && (force || current[p].changed) :: RemoteParam(current[p].paramType, current[p].value))
          == old(State()).Sent(force);
    }

    function RemoteId(): Id
      requires proxy.Some?
      reads this
    {
      id
    }

    method SetParameter(paramType: ParamType, pname: nat, value: Bytes) returns (error: Option<ParamError>)
      modifies this
      ensures error == old(State()).Rejects(pname, value)
      ensures State() == old(State()).SetParameter(paramType, pname, value)
    {
      var expected := ExpectedSize(pname);
      if expected.None? {
        return Some(InvalidEnum);
      }
      if |value| != expected.value {
        return Some(WrongSize);
      }
      pending := pending[pname := Param(true, paramType, value)];
      error := None;
    }
  }

  // The live objects, each filed under its own id.
  type Registry = map<Id, GlSampler>

  ghost predicate Filed(reg: Registry) {
    forall i :: i in reg ==> reg[i].id == i
  }

  ghost function States(reg: Registry): map<Id, Sampler>
    reads reg.Values
  {
    map i | i in reg :: reg[i].State()
  }

  ghost function CommitSome(all: map<Id, Sampler>, which: set<Id>): map<Id, Sampler> {
    map i | i in all :: if i in which then all[i].Commit() else all[i]
  }

  lemma CommitSomeTwice(all: map<Id, Sampler>, a: set<Id>, b: set<Id>)
    ensures CommitSome(CommitSome(all, a), b) == CommitSome(all, a + b)
  {
    forall i | i in all
      ensures all[i].Commit().Commit() == all[i].Commit()
    {
      CommitIdempotent(all[i]);
    }
  }

  // Locks a weak pointer and commits its target.
  method CommitLocked(reg: Registry, i: Id)
    requires Filed(reg)
    modifies reg.Values
    ensures States(reg) == CommitSome(old(States(reg)), {i})
  {
    if i in reg {
      reg[i].Commit();
    }
  }

  ghost function SyncSome(all: map<Id, Sampler>, which: set<Id>, force: bool): map<Id, Sampler> {
    map i | i in all :: if i in which then all[i].Sync(force) else all[i]
  }

  lemma SyncSomeTwice(all: map<Id, Sampler>, a: set<Id>, b: set<Id>, force: bool)
    ensures SyncSome(SyncSome(all, a, force), b, force) == SyncSome(all, a + b, force)
  {
    forall i | i in all
      ensures all[i].Sync(force).Sync(force) == all[i].Sync(force)
    {
      SyncIdempotent(all[i], force);
    }
  }

  // Locks a weak pointer and syncs its target; tells whether it was live.
  method SyncLocked(reg: Registry, i: Id, session: bool, force: bool) returns (live: bool)
    requires session && Filed(reg)
    modifies reg.Values
    ensures States(reg) == SyncSome(old(States(reg)), {i}, force)
    ensures live == (i in reg) && (live ==> reg[i].proxy.Some?)
  {
    live := i in reg;
    if live {
      reg[i].Sync(session, force);
    }
  }

  // A lost session: no object has a copy any more.
  ghost function Dropped(all: map<Id, Sampler>): map<Id, Sampler> {
    map i | i in all :: all[i].(proxy := None)
  }

  method DropCopies(reg: Registry)
    requires Filed(reg)
    modifies reg.Values`proxy
    ensures States(reg) == Dropped(old(States(reg)))
  {
    forall i | i in reg {
      reg[i].proxy := None;
    }
  }
}

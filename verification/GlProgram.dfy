// A GL program: shaders are attached lazily, when the one link happens or
// when a new session forces a resend.
module Programs {
  import opened Common
  import S = Shaders

  datatype ProgramPending = ProgramPending(damaged: bool, shouldLink: bool, shaders: seq<Id>)
  datatype ProgramCurrent = ProgramCurrent(linked: bool, shouldLink: bool, shaders: seq<Id>)

  // The copy on the renderer: attached shaders, and those of the last link.
  datatype RemoteProgram = RemoteProgram(attached: set<Id>, linked: Option<set<Id>>)

  function KeepLive(ids: seq<Id>, live: set<Id>): seq<Id> {
    if ids == [] then []
    else
      var rest, last := KeepLive(ids[..|ids| - 1], live), ids[|ids| - 1];
      if last in live then rest + [last] else rest
  }

  function Elements(ids: seq<Id>): set<Id> {
    set i | i in ids
  }

  lemma {:induction false} KeepLiveElements(ids: seq<Id>, live: set<Id>)
    ensures Elements(KeepLive(ids, live)) == Elements(ids) * live
    ensures Elements(ids) <= live ==> KeepLive(ids, live) == ids
    ensures KeepLive(KeepLive(ids, live), live) == KeepLive(ids, live)
  {
    if ids != [] {
      var init, last := ids[..|ids| - 1], ids[|ids| - 1];
      KeepLiveElements(init, live);
      assert ids == init + [last];
      var kept := KeepLive(init, live);
      assert (kept + [last])[..|kept + [last]| - 1] == kept;
      forall i | i in ids
        ensures i in Elements(KeepLive(ids, live)) <==> i in live
      {
        if i in init {
          assert i in Elements(kept) <==> i in live;
        }
      }
      forall i | i in KeepLive(ids, live)
        ensures i in ids
      {
        if i in kept {
          assert i in Elements(kept);
        }
      }
      if Elements(ids) <= live {
        assert last in Elements(ids);
        assert Elements(init) <= Elements(ids);
      }
    }
  }

  datatype Request = AttachShader(shader: Id) | RequestLink

  datatype Program = Program(pending: ProgramPending, current: ProgramCurrent, proxy: Option<RemoteProgram>) {
    // A second link is a protocol error; the commit then changes nothing.
    predicate Relinks() {
      pending.damaged && pending.shouldLink && current.linked
    }

    function Commit(): Program {
      if !pending.damaged || Relinks() then this
      else
        Program(
          ProgramPending(false, false, []),
          ProgramCurrent(current.linked || pending.shouldLink,
                         current.shouldLink || pending.shouldLink,
                         current.shaders + pending.shaders),
          proxy)
    }

    function Sync(force: bool, liveShaders: set<Id>): Program {
      var attach := force || current.shouldLink;
      var kept := KeepLive(current.shaders, liveShaders);
      var copy := proxy.GetOr(RemoteProgram({}, None));
      var attached := copy.attached + Elements(kept);
      Program(
        pending,
        current.(shaders := kept, shouldLink := current.shouldLink && !attach),
        Some(if attach then RemoteProgram(attached, Some(attached)) else copy))
    }

    function RequestLink(): Program {
      this.(pending := pending.(damaged := true, shouldLink := true))
    }

    function AttachShader(shader: Id): Program {
      this.(pending := pending.(damaged := true, shaders := pending.shaders + [shader]))
    }

    function Requested(r: Request): Program {
      match r
      case AttachShader(shader) => AttachShader(shader)
      case RequestLink => RequestLink()
    }

    // Known to the renderer, but never linked there.
    predicate Blank() {
      proxy.Some? && proxy.value.linked.None?
    }

    predicate Clean() {
      proxy.Some? && !current.shouldLink
    }

    predicate LinkRequested() {
      pending.shouldLink || current.linked
    }

    // The client has attached everything before its one link request.
    predicate Ordered() {
      && (pending.shouldLink || pending.shaders != [] ==> pending.damaged)
      && (current.linked ==> !pending.shouldLink && pending.shaders == [])
      && (current.shouldLink ==> current.linked)
    }

    predicate RemoteSound() {
      proxy.Some? ==>
        && proxy.value.attached <= Elements(current.shaders)
        && (current.linked && !current.shouldLink && proxy.value.linked.Some? ==>
              proxy.value.linked.value == Elements(current.shaders))
    }
  }

  lemma CommitIdempotent(p: Program)
    ensures p.Commit().Commit() == p.Commit()
  {
  }

  lemma SyncIdempotent(p: Program, force: bool, live: set<Id>)
    ensures p.Sync(force, live).Sync(force, live) == p.Sync(force, live)
  {
    KeepLiveElements(p.current.shaders, live);
  }

  // After a sync of a linked program, the renderer has linked exactly the
  // attached shaders iff this sync linked, or an earlier one in the session did.
  lemma SyncLinksIff(p: Program, force: bool, live: set<Id>)
    requires p.Ordered() && p.RemoteSound() && p.current.linked
    requires Elements(p.current.shaders) <= live
    ensures p.Sync(force, live).Ordered() && p.Sync(force, live).RemoteSound()
    ensures p.Sync(force, live).Clean()
    ensures p.Sync(force, live).proxy.value.linked == Some(Elements(p.current.shaders)) <==>
            (force || p.current.shouldLink || (p.proxy.Some? && !p.Blank()))
  {
    KeepLiveElements(p.current.shaders, live);
  }

  // ---- link independence over every run ---------------------------------------

  datatype Event = Attach(shader: Id) | Link | Commit | Sync(force: bool) | Lost

  function Step(p: Program, e: Event, live: set<Id>): Program {
    match e
    case Attach(shader) => p.AttachShader(shader)
    case Link => p.RequestLink()
    case Commit => p.Commit()
    case Sync(force) => p.Sync(force, live)
    case Lost => p.(proxy := None)
  }

  const NEW_PROGRAM := Program(ProgramPending(false, false, []), ProgramCurrent(false, false, []), None)

  function Run(es: seq<Event>, live: set<Id>): Program {
    if es == [] then NEW_PROGRAM else Step(Run(es[..|es| - 1], live), es[|es| - 1], live)
  }

  // What a run has done so far.
  datatype Past = Past(attached: set<Id>, linkAsked: bool, linkCommitted: bool, linkSynced: bool, resendDue: bool)

  function PastOf(es: seq<Event>): Past {
    if es == [] then Past({}, false, false, false, false)
    else
      var past := PastOf(es[..|es| - 1]);
      match es[|es| - 1]
      case Attach(shader) => past.(attached := past.attached + {shader})
      case Link => past.(linkAsked := true)
      case Commit => past.(linkCommitted := past.linkAsked)
      case Sync(_) => past.(linkSynced := past.linkCommitted, resendDue := false)
      case Lost => past.(resendDue := true)
  }

  // Attaches come before the single link request, and the first sync of each
  // later session is the forced one: the program is reachable when it starts.
  predicate Disciplined(es: seq<Event>) {
    es != [] ==>
      && Disciplined(es[..|es| - 1])
      && var past := PastOf(es[..|es| - 1]);
         match es[|es| - 1]
         case Attach(_) => !past.linkAsked
         case Link => !past.linkAsked
         case Commit => true
         case Sync(force) => past.resendDue ==> force
         case Lost => true
  }

  lemma {:induction false} LinkInvariant(es: seq<Event>, live: set<Id>)
    requires Disciplined(es) && PastOf(es).attached <= live
    ensures var p, past := Run(es, live), PastOf(es);
            && p.Ordered() && p.RemoteSound()
            && Elements(p.current.shaders) + Elements(p.pending.shaders) == past.attached
            && p.LinkRequested() == past.linkAsked
            && p.current.linked == past.linkCommitted
            && (past.linkSynced ==> p.current.linked && !p.current.shouldLink)
            && (p.current.linked && !p.current.shouldLink ==> if p.proxy.Some? then !p.Blank() else past.resendDue)
  {
    if es != [] {
      var init := es[..|es| - 1];
      LinkInvariant(init, live);
      var p := Run(init, live);
      match es[|es| - 1] {
        case Attach(shader) =>
          assert Elements(p.pending.shaders + [shader]) == Elements(p.pending.shaders) + {shader};
        case Commit =>
          assert Elements(p.current.shaders + p.pending.shaders)
              == Elements(p.current.shaders) + Elements(p.pending.shaders);
        case Sync(force) => KeepLiveElements(p.current.shaders, live);
        case _ =>
      }
    }
  }

  // No matter how attaches, commits, syncs and reconnects interleave, once the
  // linking commit has been synced, the renderer, while it is there, has linked
  // exactly the shaders ever attached.
  lemma LinkIndependentOfInterleaving(es: seq<Event>, live: set<Id>)
    requires Disciplined(es) && PastOf(es).attached <= live
    requires PastOf(es).linkSynced
    ensures var p := Run(es, live);
            p.proxy.Some? ==> p.proxy.value.linked == Some(PastOf(es).attached)
  {
    LinkInvariant(es, live);
    var p := Run(es, live);
    assert Elements(p.pending.shaders) == {};
    assert Elements(p.current.shaders) == PastOf(es).attached;
  }

  // A scan of `list` has come to its `n`th shader: `kept` are those found live,
  // and `shaders` is the list as left so far.
  ghost predicate Scanned(list: seq<Id>, live: set<Id>, n: nat, kept: seq<Id>, shaders: seq<Id>) {
    n <= |list| && kept == KeepLive(list[..n], live) && shaders == kept + list[n..]
  }

  lemma ScanNext(list: seq<Id>, live: set<Id>, n: nat, kept: seq<Id>, shaders: seq<Id>)
    requires n < |list| && Scanned(list, live, n, kept, shaders)
    ensures |kept| < |shaders| && shaders[|kept|] == list[n]
    ensures Elements(list[..n + 1]) == Elements(list[..n]) + {list[n]}
    ensures list[n] in live ==>
              Scanned(list, live, n + 1, kept + [list[n]], shaders)
                  && Elements(kept + [list[n]]) == Elements(kept) + {list[n]}
    ensures list[n] !in live ==>
              Scanned(list, live, n + 1, kept, shaders[..|kept|] + shaders[|kept| + 1..])
  {
    assert list[..n + 1][..n] == list[..n];
    assert list[..n + 1] == list[..n] + [list[n]];
    assert list[n..] == [list[n]] + list[n + 1..];
  }

  // ---- the object -------------------------------------------------------------

  class GlProgram {
    const id: Id
    var pending: ProgramPending
    var current: ProgramCurrent
    var proxy: Option<RemoteProgram>

    constructor (id: Id)
      ensures this.id == id && State() == NEW_PROGRAM
    {
      this.id := id;
      pending := ProgramPending(false, false, []);
      current := ProgramCurrent(false, false, []);
      proxy := None;
    }

    function State(): Program
      reads this
    {
      Program(pending, current, proxy)
    }

    // True when the client relinks, which is a protocol error.
    method Commit() returns (error: bool)
      modifies this
      ensures error == old(State()).Relinks()
      ensures State() == old(State()).Commit()
    {
      if !pending.damaged {
        return false;
      }
      if pending.shouldLink {
        if current.linked {
          return true;
        }
        current := current.(shouldLink := true);
        current := current.(linked := true);
      }
      current := current.(shaders := current.shaders + pending.shaders);
      pending := pending.(shaders := []);
      pending := pending.(damaged := false);
      pending := pending.(shouldLink := false);
      error := false;
    }

    // One turn of the scan: a dead shader is erased in place, a live one gets a
    // copy and, when a link is coming, is attached.
    method SyncShaderAt(i: nat, session: bool, shouldAttach: bool, shaders: S.Registry) returns (live: bool)
      requires session && S.Filed(shaders) && proxy.Some? && i < |current.shaders|
      modifies this, shaders.Values
      ensures live == (old(current.shaders[i]) in shaders)
      ensures pending == old(pending)
      ensures current == if live then old(current) else
                old(current).(shaders := old(current.shaders[..i]) + old(current.shaders[i + 1..]))
      ensures proxy == Some(if live && shouldAttach then
                              old(proxy.value).(attached := old(proxy.value.attached) + {old(current.shaders[i])})
                            else old(proxy.value))
      ensures S.States(shaders) == S.SyncSome(old(S.States(shaders)), {old(current.shaders[i])})
    {
      var shader := current.shaders[i];
      live := S.SyncLocked(shaders, shader, session);
      label synced:
      if !live {
        current := current.(shaders := current.shaders[..i] + current.shaders[i + 1..]);
      } else if shouldAttach {
        proxy := Some(proxy.value.(attached := proxy.value.attached + {shaders[shader].RemoteId()}));
      }
      assert unchanged@synced(shaders.Values);
    }

    method SyncShaders(session: bool, shouldAttach: bool, shaders: S.Registry)
      requires session && S.Filed(shaders) && proxy.Some?
      modifies this, shaders.Values
      ensures pending == old(pending)
      ensures current == old(current).(shaders := KeepLive(old(current.shaders), shaders.Keys))
      ensures proxy == Some(if shouldAttach then
                              old(proxy.value).(attached := old(proxy.value.attached) + Elements(current.shaders))
                            else old(proxy.value))
      ensures S.States(shaders) == S.SyncSome(old(S.States(shaders)), Elements(old(current.shaders)))
    {
      ghost var list, live, start, copy := current.shaders, shaders.Keys, S.States(shaders), proxy.value;
      ghost var n, kept: seq<Id>, done: set<Id> := 0, [], {};
      var i := 0;
      while i < |current.shaders|
        invariant Scanned(list, live, n, kept, current.shaders) && i == |kept|
        invariant pending == old(pending)
        invariant current.linked == old(current.linked) && current.shouldLink == old(current.shouldLink)
        invariant proxy.Some? && proxy.value.linked == copy.linked
        invariant proxy.value.attached == copy.attached + if shouldAttach then Elements(kept) else {}
        invariant done == Elements(list[..n])
        invariant S.States(shaders) == S.SyncSome(start, done)
        decreases |list| - n
      {
        ScanNext(list, live, n, kept, current.shaders);
        S.SyncSomeTwice(start, done, {list[n]});
        var alive := SyncShaderAt(i, session, shouldAttach, shaders);
        done := done + {list[n]};
        if alive {
          kept := kept + [list[n]];
          i := i + 1;
        }
        n := n + 1;
      }
      assert list[..n] == list;
    }

    method Sync(session: bool, force: bool, shaders: S.Registry)
      requires session && S.Filed(shaders)
      modifies this, shaders.Values
      ensures State() == old(State()).Sync(force, shaders.Keys)
      ensures S.States(shaders) == S.SyncSome(old(S.States(shaders)), Elements(old(current.shaders)))
    {
      if proxy.None? {
        proxy := Some(RemoteProgram({}, None));
      }
      var shouldAttach := force || current.shouldLink;
      SyncShaders(session, shouldAttach, shaders);
      if !shouldAttach {
        return;
      }
      proxy := Some(proxy.value.(linked := Some(proxy.value.attached)));
      current := current.(shouldLink := false);
    }

    function RemoteId(): Id
      requires proxy.Some?
      reads this
    {
      id
    }

    method RequestLink()
      modifies this
      ensures State() == old(State()).RequestLink()
    {
      pending := pending.(damaged := true);
      pending := pending.(shouldLink := true);
    }

    method AttachShader(shader: Id)
      modifies this
      ensures State() == old(State()).AttachShader(shader)
    {
      pending := pending.(damaged := true);
      pending := pending.(shaders := pending.shaders + [shader]);
    }
  }

  // The live objects, each filed under its own id.
  type Registry = map<Id, GlProgram>

  ghost predicate Filed(reg: Registry) {
    forall i :: i in reg ==> reg[i].id == i
  }

  ghost function States(reg: Registry): map<Id, Program>
    reads reg.Values
  {
    map i | i in reg :: reg[i].State()
  }

  // The live shaders behind a weak slot.
  ghost function CurrentShaders(all: map<Id, Program>, slot: Option<Id>, live: set<Id>): set<Id> {
    if slot.Some? && slot.value in all then Elements(all[slot.value].current.shaders) * live else {}
  }

  ghost function CommitSome(all: map<Id, Program>, which: set<Id>): map<Id, Program> {
    map i | i in all :: if i in which then all[i].Commit() else all[i]
  }

  ghost function SyncSome(all: map<Id, Program>, which: set<Id>, force: bool, liveShaders: set<Id>): map<Id, Program> {
    map i | i in all :: if i in which then all[i].Sync(force, liveShaders) else all[i]
  }

  lemma CommitSomeTwice(all: map<Id, Program>, a: set<Id>, b: set<Id>)
    ensures CommitSome(CommitSome(all, a), b) == CommitSome(all, a + b)
  {
    forall i | i in all
      ensures all[i].Commit().Commit() == all[i].Commit()
    {
      CommitIdempotent(all[i]);
    }
  }

  lemma SyncSomeTwice(all: map<Id, Program>, a: set<Id>, b: set<Id>, force: bool, live: set<Id>)
    ensures SyncSome(SyncSome(all, a, force, live), b, force, live) == SyncSome(all, a + b, force, live)
  {
    forall i | i in all
      ensures all[i].Sync(force, live).Sync(force, live) == all[i].Sync(force, live)
    {
      SyncIdempotent(all[i], force, live);
    }
  }

  // Locks a weak pointer and commits its target; tells of a relink.
  method CommitLocked(reg: Registry, i: Id) returns (error: bool)
    requires Filed(reg)
    modifies reg.Values
    ensures States(reg) == CommitSome(old(States(reg)), {i})
    ensures error == (i in reg && old(reg[i].State()).Relinks())
  {
    error := false;
    if i in reg {
      error := reg[i].Commit();
    }
  }

  // Locks a weak pointer and syncs its target; tells whether it was live.
  method SyncLocked(reg: Registry, i: Id, session: bool, force: bool, shaders: S.Registry) returns (live: bool)
    requires session && Filed(reg) && S.Filed(shaders)
    modifies reg.Values, shaders.Values
    ensures States(reg) == SyncSome(old(States(reg)), {i}, force, shaders.Keys)
    ensures S.States(shaders) ==
            S.SyncSome(old(S.States(shaders)), if i in reg then Elements(old(reg[i].State()).current.shaders) else {})
    ensures live == (i in reg) && (live ==> reg[i].proxy.Some?)
  {
    live := i in reg;
    if live {
      reg[i].Sync(session, force, shaders);
    }
  }

  // The same for a slot that may be empty.
  method CommitSlot(reg: Registry, slot: Option<Id>) returns (error: bool)
    requires Filed(reg)
    modifies reg.Values
    ensures States(reg) == CommitSome(old(States(reg)), Opt(slot))
    ensures error == (slot.Some? && slot.value in reg && old(reg[slot.value].State()).Relinks())
  {
    error := false;
    if slot.Some? {
      error := CommitLocked(reg, slot.value);
    }
  }

  method SyncSlot(reg: Registry, slot: Option<Id>, session: bool, force: bool, shaders: S.Registry) returns (live: bool)
    requires session && Filed(reg) && S.Filed(shaders)
    modifies reg.Values, shaders.Values
    ensures States(reg) == SyncSome(old(States(reg)), Opt(slot), force, shaders.Keys)
    ensures S.States(shaders) ==
            S.SyncSome(old(S.States(shaders)), CurrentShaders(old(States(reg)), slot, shaders.Keys))
    ensures live == (slot.Some? && slot.value in reg) && (live ==> reg[slot.value].proxy.Some?)
  {
    live := false;
    if slot.Some? {
      live := SyncLocked(reg, slot.value, session, force, shaders);
    }
  }

  // A lost session: no object has a copy any more.
  ghost function Dropped(all: map<Id, Program>): map<Id, Program> {
    map i | i in all :: all[i].(proxy := None)
  }

  method DropCopies(reg: Registry)
    requires Filed(reg)
    modifies reg.Values`proxy
    ensures States(reg) == Dropped(old(States(reg)))
  {
    forall i | i in reg {
      reg[i].proxy := None;
    }
  }
}

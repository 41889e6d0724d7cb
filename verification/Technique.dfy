// The state of a technique and of its copy on the renderer, and what it means
// for the copy to mirror the current state.
module Techniques {
  import opened Common
  import U = Uniforms
  import D = DrawCalls
  import TB = TextureBindings

  // The ids at which a weak pointer of each kind can be locked.
  datatype Live = Live(buffers: set<Id>, textures: set<Id>, samplers: set<Id>, programs: set<Id>, arrays: set<Id>) {
    predicate Within(other: Live) {
      && buffers <= other.buffers && textures <= other.textures && samplers <= other.samplers
      && programs <= other.programs && arrays <= other.arrays
    }
  }

  datatype Bound = Bound(
    programChanged: bool, program: Option<Id>,
    arrayChanged: bool, vertexArray: Option<Id>,
    textures: TB.Bindings, draw: D.DrawArgs, uniforms: seq<U.Uniform>)

  datatype RemoteTechnique = RemoteTechnique(
    program: Option<Id>, vertexArray: Option<Id>,
    textures: map<nat, TB.Binding>, uniforms: seq<U.Message>, draw: D.Draw)

  const NOTHING_BOUND := Bound(false, None, false, None, TB.Bindings([], false), D.DrawArgs(D.NoDraw, false), [])
  const NEW_COPY := RemoteTechnique(None, None, map[], [], D.NoDraw)

  // A bind request that has changed the slot replaces the current target.
  function Pick(changed: bool, pending: Option<Id>, current: Option<Id>): Option<Id> {
    if changed then pending else current
  }

  // The slot is sent when it is flagged or forced, and its target is live.
  function Send(send: bool, current: Option<Id>, live: set<Id>, remote: Option<Id>): Option<Id> {
    if send && current.Some? && current.value in live then current else remote
  }

  datatype Request =
    | BindProgram(program: Id)
    | BindVertexArray(vertexArray: Id)
    | BindTexture(binding: TB.Binding)
    | NewUniform(uniform: U.Uniform)
    | SetDraw(draw: D.Draw)
  {
    // The request names live objects.
    predicate Allowed(live: Live) {
      match this
      case BindProgram(p) => p in live.programs
      case BindVertexArray(a) => a in live.arrays
      case BindTexture(b) => b.Live(live.textures, live.samplers)
      case NewUniform(_) => true
      case SetDraw(d) => !d.NoDraw? && d.Live(live.buffers)
    }
  }

  datatype Technique = Technique(
    unit: Id, committed: bool, pending: Bound, current: Bound, proxy: Option<RemoteTechnique>)
  {
    function Requested(r: Request): Technique {
      this.(pending :=
        match r
        case BindProgram(p) => pending.(programChanged := true, program := Some(p))
        case BindVertexArray(a) => pending.(arrayChanged := true, vertexArray := Some(a))
        case BindTexture(b) => pending.(textures := TB.Bindings(TB.Emplace(pending.textures.list, b), true))
        case NewUniform(u) => pending.(uniforms := pending.uniforms + [u.Flagged(false)])
        case SetDraw(d) => pending.(draw := D.DrawArgs(d, true)))
    }

    function CommittedCurrent(live: Live): Bound {
      Bound(
        pending.programChanged, Pick(pending.programChanged, pending.program, current.program),
        pending.arrayChanged, Pick(pending.arrayChanged, pending.vertexArray, current.vertexArray),
        TB.CommitCurrent(pending.textures, current.textures, live.textures, live.samplers),
        D.CommitCurrent(pending.draw, current.draw),
        U.CommitList(current.uniforms, pending.uniforms))
    }

    function CommittedPending(live: Live): Bound {
      pending.(programChanged := false, arrayChanged := false,
               textures := TB.CommitPending(pending.textures, live.textures, live.samplers),
               draw := D.CommitPending(pending.draw), uniforms := [])
    }

    function Commit(live: Live): Technique {
      Technique(unit, true, CommittedPending(live), CommittedCurrent(live), proxy)
    }

    function Copy(): RemoteTechnique {
      proxy.GetOr(NEW_COPY)
    }

    function SyncedCopy(force: bool, live: Live): RemoteTechnique {
      var r := Copy();
      RemoteTechnique(
        Send(force || current.programChanged, current.program, live.programs, r.program),
        Send(force || current.arrayChanged, current.vertexArray, live.arrays, r.vertexArray),
        TB.SyncRemote(r.textures, current.textures, force, live.textures, live.samplers),
        r.uniforms + U.Messages(current.uniforms, force),
        D.SyncRemote(r.draw, current.draw, force, live.buffers))
    }

    function Sync(force: bool, live: Live): Technique {
      this.(current := current.(textures := TB.SyncCurrent(current.textures, live.textures, live.samplers)),
            proxy := Some(SyncedCopy(force, live)))
    }

    // What a fresh copy receives when everything is resent.
    function Resent(live: Live): RemoteTechnique {
      this.(proxy := None).SyncedCopy(true, live)
    }

    // No name on the renderer is about to give way to a vector of unknown type.
    ghost predicate DisplacesNone() {
      forall name :: !U.Displaces(current.uniforms, pending.uniforms, name)
    }

    ghost predicate WellFormed() {
      && (pending.programChanged ==> pending.program.Some?)
      && (pending.arrayChanged ==> pending.vertexArray.Some?)
      && (pending.draw.changed ==> !pending.draw.data.NoDraw?)
      && TB.Unique(pending.textures.list) && TB.Unique(current.textures.list)
      && (!committed ==> current == NOTHING_BOUND)
    }
  }

  function NewTechnique(unit: Id): Technique {
    Technique(unit, false, NOTHING_BOUND, NOTHING_BOUND, None)
  }

  // ---- mirroring ----------------------------------------------------------------

  predicate SlotMirrored(remote: Option<Id>, current: Option<Id>, live: set<Id>) {
    if current.None? then remote.None? else current.value in live ==> remote == current
  }

  ghost predicate TexturesMirrored(remote: map<nat, TB.Binding>, current: TB.Bindings, live: Live) {
    forall b :: b in current.list && b.Live(live.textures, live.samplers) ==>
      b.binding in remote && remote[b.binding] == b
  }

  predicate DrawMirrored(remote: D.Draw, current: D.Draw, live: set<Id>) {
    if current.NoDraw? then remote.NoDraw? else current.Live(live) ==> remote == current
  }

  // Every slot whose target is live is on the renderer as it is here.
  ghost predicate Mirrored(r: RemoteTechnique, c: Bound, live: Live) {
    && SlotMirrored(r.program, c.program, live.programs)
    && SlotMirrored(r.vertexArray, c.vertexArray, live.arrays)
    && TexturesMirrored(r.textures, c.textures, live)
    && U.Mirrors(r.uniforms, c.uniforms)
    && DrawMirrored(r.draw, c.draw.data, live.buffers)
  }

  // The same, but for what the change flags say is still to be sent.
  ghost predicate MirroredButFlagged(r: RemoteTechnique, c: Bound, live: Live) {
    && (if c.programChanged then c.program.Some? else SlotMirrored(r.program, c.program, live.programs))
    && (if c.arrayChanged then c.vertexArray.Some? else SlotMirrored(r.vertexArray, c.vertexArray, live.arrays))
    && (c.textures.changed || TexturesMirrored(r.textures, c.textures, live))
    && U.Mirrors(r.uniforms + U.Messages(c.uniforms, false), c.uniforms)
    && (if c.draw.changed then !c.draw.data.NoDraw? else DrawMirrored(r.draw, c.draw.data, live.buffers))
  }

  // A commit raises a flag for everything it changes, and leaves the mirror
  // to a sync iff it displaces no uniform.
  lemma CommitFlagsIff(t: Technique, live: Live)
    requires t.WellFormed() && Mirrored(t.Copy(), t.current, live)
    ensures MirroredButFlagged(t.Copy(), t.Commit(live).current, live) <==> t.DisplacesNone()
  {
    TB.KeepLiveElements(t.pending.textures.list, live.textures, live.samplers);
    TB.KeepLiveElements(t.current.textures.list, live.textures, live.samplers);
    U.IncrementalSendIff(t.Copy().uniforms, t.current.uniforms, t.pending.uniforms);
  }

  lemma RequestWellFormed(t: Technique, r: Request, live: Live)
    requires t.WellFormed() && r.Allowed(live)
    ensures t.Requested(r).WellFormed()
  {
    if r.BindTexture? {
      TB.EmplaceUnique(t.pending.textures.list, r.binding);
    }
  }

  lemma CommitWellFormed(t: Technique, live: Live)
    requires t.WellFormed()
    ensures t.Commit(live).WellFormed()
  {
    TB.KeepLiveElements(t.pending.textures.list, live.textures, live.samplers);
    TB.KeepLiveElements(t.current.textures.list, live.textures, live.samplers);
  }

  lemma SyncWellFormed(t: Technique, force: bool, live: Live)
    requires t.WellFormed()
    ensures t.Sync(force, live).WellFormed()
  {
    TB.KeepLiveElements(t.current.textures.list, live.textures, live.samplers);
  }

  lemma TexturesSent(remote: map<nat, TB.Binding>, current: TB.Bindings, force: bool, live: Live)
    requires TB.Unique(current.list)
    requires force || current.changed || TexturesMirrored(remote, current, live)
    ensures var after := TB.SyncCurrent(current, live.textures, live.samplers);
            TexturesMirrored(TB.SyncRemote(remote, current, force, live.textures, live.samplers), after, live)
  {
    TB.KeepLiveElements(current.list, live.textures, live.samplers);
    var kept := TB.KeepLive(current.list, live.textures, live.samplers);
    if force || current.changed {
      forall b | b in kept {
        TB.BindAllEntry(remote, kept, b);
      }
    }
  }

  // A plain sync sends the flagged slots, and ends in a mirror iff nothing but
  // those was missing.
  lemma SyncRestoresIff(t: Technique, live: Live)
    requires t.WellFormed()
    requires t.current.programChanged ==> t.current.program.Some?
    requires t.current.arrayChanged ==> t.current.vertexArray.Some?
    requires t.current.draw.changed ==> !t.current.draw.data.NoDraw?
    ensures Mirrored(t.Sync(false, live).Copy(), t.Sync(false, live).current, live) <==>
            MirroredButFlagged(t.Copy(), t.current, live)
  {
    if t.current.textures.changed {
      TexturesSent(t.Copy().textures, t.current.textures, false, live);
    } else {
      TB.KeepLiveElements(t.current.textures.list, live.textures, live.samplers);
    }
  }

  // From a mirror, a commit and the sync after it lead to a mirror again iff
  // the commit displaces no uniform.
  lemma CommitMirrorsIff(t: Technique, live: Live)
    requires t.WellFormed() && Mirrored(t.Copy(), t.current, live)
    ensures var t' := t.Commit(live).Sync(false, live);
            Mirrored(t'.Copy(), t'.current, live) <==> t.DisplacesNone()
  {
    CommitFlagsIff(t, live);
    CommitWellFormed(t, live);
    SyncRestoresIff(t.Commit(live), live);
  }

  // A forced sync of a fresh copy establishes the mirror, whatever the flags
  // have lost.
  lemma ForcedSyncEstablishes(t: Technique, live: Live)
    requires t.WellFormed() && t.proxy.None?
    ensures Mirrored(t.Sync(true, live).Copy(), t.Sync(true, live).current, live)
  {
    TexturesSent(map[], t.current.textures, true, live);
    assert [] + U.Messages(t.current.uniforms, true) == U.Messages(t.current.uniforms, true);
  }

  // ---- what can be seen of a copy -------------------------------------------------

  datatype View = View(
    program: Option<Id>, vertexArray: Option<Id>, textures: map<nat, TB.Binding>, uniforms: map<int, U.Value>,
        draw: D.Draw)

  function SlotView(remote: Option<Id>, current: Option<Id>, live: set<Id>): Option<Id> {
    if current.Some? && current.value !in live then None else remote
  }

  // The copy restricted to the slots whose current target is alive.
  ghost function ViewOf(r: RemoteTechnique, c: Bound, live: Live, lookup: U.Lookup): View {
    View(
      SlotView(r.program, c.program, live.programs),
      SlotView(r.vertexArray, c.vertexArray, live.arrays),
      map p | p in TB.Points(TB.KeepLive(c.textures.list, live.textures, live.samplers)) && p in r.textures ::
          r.textures[p],
      U.Replay(lookup, r.uniforms),
      if c.draw.data.Live(live.buffers) then r.draw else D.NoDraw)
  }

  // Two copies that mirror one state cannot be told apart.
  lemma MirrorsLookAlike(r: RemoteTechnique, q: RemoteTechnique, c: Bound, live: Live, lookup: U.Lookup)
    requires Mirrored(r, c, live) && Mirrored(q, c, live)
    ensures ViewOf(r, c, live, lookup) == ViewOf(q, c, live, lookup)
  {
    var kept := TB.KeepLive(c.textures.list, live.textures, live.samplers);
    TB.KeepLiveElements(c.textures.list, live.textures, live.samplers);
    forall p | p in TB.Points(kept)
      ensures p in r.textures && p in q.textures && r.textures[p] == q.textures[p]
    {
      var b :| b in kept && b.binding == p;
    }
    assert U.Replay(lookup, r.uniforms) == U.Replay(lookup, q.uniforms);
  }

  // ---- exact equality, while nothing bound has died ---------------------------------

  predicate AllLive(c: Bound, live: Live) {
    && (c.program.Some? ==> c.program.value in live.programs)
    && (c.vertexArray.Some? ==> c.vertexArray.value in live.arrays)
    && (forall b :: b in c.textures.list ==> b.Live(live.textures, live.samplers))
    && c.draw.data.Live(live.buffers)
  }

  // The renderer holds no binding point that the technique has let go.
  ghost predicate NoStalePoints(t: Technique) {
    && TB.Points(t.current.textures.list) <= TB.Points(t.pending.textures.list)
    && t.Copy().textures.Keys <= TB.Points(t.current.textures.list)
  }

  ghost predicate SameRecord(r: RemoteTechnique, q: RemoteTechnique) {
    && r.program == q.program && r.vertexArray == q.vertexArray && r.textures == q.textures && r.draw == q.draw
    && forall lookup: U.Lookup :: U.Replay(lookup, r.uniforms) == U.Replay(lookup, q.uniforms)
  }

  // A mirroring copy is what a full resend would make, up to the order of
  // uniform calls, iff it keeps nothing for a target that has died.
  lemma ExactRecordIff(t: Technique, live: Live)
    requires t.WellFormed() && t.proxy.Some? && Mirrored(t.Copy(), t.current, live)
    ensures SameRecord(t.Copy(), t.Resent(live)) <==>
            && SlotView(t.Copy().program, t.current.program, live.programs) == t.Copy().program
            && SlotView(t.Copy().vertexArray, t.current.vertexArray, live.arrays) == t.Copy().vertexArray
            && t.Copy().textures.Keys <= TB.Points(TB.KeepLive(t.current.textures.list, live.textures, live.samplers))
            && (t.current.draw.data.Live(live.buffers) || t.Copy().draw.NoDraw?)
  {
    var kept := TB.KeepLive(t.current.textures.list, live.textures, live.samplers);
    TB.KeepLiveElements(t.current.textures.list, live.textures, live.samplers);
    TB.BindAllKeys(map[], kept);
    assert t.Resent(live).textures.Keys == TB.Points(kept);
    forall p | p in TB.Points(kept)
      ensures p in t.Copy().textures && t.Copy().textures[p] == t.Resent(live).textures[p]
    {
      var b :| b in kept && b.binding == p;
      TB.BindAllEntry(map[], kept, b);
    }
    assert t.Copy().textures.Keys <= TB.Points(kept) <==> t.Copy().textures == t.Resent(live).textures;
    assert t.Resent(live).uniforms == U.Messages(t.current.uniforms, true);
  }

  lemma ExactRecord(t: Technique, live: Live)
    requires t.WellFormed() && t.proxy.Some?
    requires Mirrored(t.Copy(), t.current, live) && AllLive(t.current, live) && NoStalePoints(t)
    ensures SameRecord(t.Copy(), t.Resent(live))
  {
    TB.KeepLiveAll(t.current.textures.list, live.textures, live.samplers);
    ExactRecordIff(t, live);
  }

  lemma CommitKeepsPoints(t: Technique, live: Live)
    requires NoStalePoints(t) && AllLive(t.current, live)
    requires forall b :: b in t.pending.textures.list ==> b.Live(live.textures, live.samplers)
    ensures NoStalePoints(t.Commit(live))
    ensures t.Commit(live).current.textures.list ==
            (if t.pending.textures.changed then t.pending.textures.list else t.current.textures.list)
    ensures t.Commit(live).pending.textures.list == t.pending.textures.list
  {
    TB.KeepLiveAll(t.pending.textures.list, live.textures, live.samplers);
    TB.KeepLiveAll(t.current.textures.list, live.textures, live.samplers);
  }

  lemma SyncKeepsPoints(t: Technique, force: bool, live: Live)
    requires NoStalePoints(t) && AllLive(t.current, live)
    ensures NoStalePoints(t.Sync(force, live))
    ensures t.Sync(force, live).current == t.current
  {
    TB.KeepLiveAll(t.current.textures.list, live.textures, live.samplers);
    TB.BindAllKeys(t.Copy().textures, t.current.textures.list);
  }
}

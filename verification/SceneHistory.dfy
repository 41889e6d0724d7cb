// What the renderer holds content for is decided by the run alone: by which
// parts were on show when a session came up, or were on show and flagged in a
// commit since.
module SceneHistory {
  import opened Common
  import opened Scenes
  import opened SceneInvariant
  import opened SceneCascade
  import TB = TextureBindings
  import A = VertexArrays
  import Q = Techniques

  // A part of the state that is sent as a whole, when its own flag is up.
  datatype Part = BufferData(id: Id) | TextureImage(id: Id) | TextureMipmap(id: Id) | ProgramLink(id: Id)

  ghost predicate Held(g: Gl, x: Part) {
    match x
    case BufferData(i) => i in g.buffers
    case TextureImage(i) => i in g.textures
    case TextureMipmap(i) => i in g.textures
    case ProgramLink(i) => i in g.programs
  }

  // The renderer has received that part since the session came up.
  ghost predicate Filled(g: Gl, x: Part) {
    && Held(g, x)
    && match x
       case BufferData(i) => g.buffers[i].proxy.Some? && !g.buffers[i].Blank()
       case TextureImage(i) => g.textures[i].proxy.Some? && !g.textures[i].Blank()
       case TextureMipmap(i) => g.textures[i].proxy.Some? && g.textures[i].proxy.value.mipmap.Some?
       case ProgramLink(i) => g.programs[i].proxy.Some? && !g.programs[i].Blank()
  }

  // Its flag is up.
  ghost predicate Due(g: Gl, x: Part) {
    && Held(g, x)
    && match x
       case BufferData(i) => g.buffers[i].current.damaged
       case TextureImage(i) => g.textures[i].current.dataChanged
       case TextureMipmap(i) => g.textures[i].current.mipmapChanged
       case ProgramLink(i) => g.programs[i].current.shouldLink
  }

  // A commit raises its flag.
  ghost predicate Raises(g: Gl, x: Part) {
    && Held(g, x)
    && match x
       case BufferData(i) => g.buffers[i].HasResource(g.shm)
       case TextureImage(i) => g.textures[i].HasResource(g.shm)
       case TextureMipmap(i) => g.textures[i].pending.mipmapTarget != 0
       case ProgramLink(i) =>
         g.programs[i].pending.damaged && g.programs[i].pending.shouldLink && !g.programs[i].current.linked
  }

  ghost predicate Reached(r: Reach, x: Part) {
    match x
    case BufferData(i) => i in r.buffers
    case TextureImage(i) => i in r.textures
    case TextureMipmap(i) => i in r.textures
    case ProgramLink(i) => i in r.programs
  }

  // ---- what is on show ---------------------------------------------------------

  ghost predicate ShowsPair(g: Gl, c: Q.Bound, b: TB.Binding) {
    b in c.textures.list && b.Live(g.textures.Keys, g.samplers.Keys)
  }

  ghost predicate ShowsTexture(g: Gl, c: Q.Bound, i: Id) {
    exists b :: ShowsPair(g, c, b) && b.texture == i
  }

  ghost predicate ShowsBuffer(g: Gl, c: Q.Bound, b: Id) {
    b in g.buffers && (b in c.draw.data.BufferSet() || b in A.CurrentBuffers(g.arrays, c.vertexArray))
  }

  ghost predicate Shows(g: Gl, c: Q.Bound, x: Part) {
    match x
    case BufferData(i) => ShowsBuffer(g, c, i)
    case TextureImage(i) => ShowsTexture(g, c, i)
    case TextureMipmap(i) => ShowsTexture(g, c, i)
    case ProgramLink(i) => c.program == Some(i) && i in g.programs
  }

  ghost predicate ShownBy(g: Gl, ts: set<Id>, x: Part) {
    exists t :: t in ts && t in g.techniques && Shows(g, g.techniques[t].current, x)
  }

  lemma ShownIsReached(g: Gl, t: Q.Technique, x: Part)
    requires Held(g, x)
    ensures Reached(SyncReach(g, t), x) <==> Shows(g, t.current, x)
  {
    var list := t.current.textures.list;
    TB.KeepLiveElements(list, g.textures.Keys, g.samplers.Keys);
    if x.TextureImage? || x.TextureMipmap? {
      var kept := TB.KeepLive(list, g.textures.Keys, g.samplers.Keys);
      assert x.id in TB.TexturesOf(kept) <==> exists b :: b in kept && b.texture == x.id;
      assert forall b :: b in kept <==> ShowsPair(g, t.current, b);
    }
  }

  lemma ReachedTogether(m: map<Id, Reach>, x: Part)
    ensures Reached(Together(m), x) <==> exists t :: t in m && Reached(m[t], x)
  {
  }

  lemma ShownByReached(g: Gl, ts: set<Id>, x: Part)
    requires Held(g, x)
    ensures Reached(SyncReachAll(g, ts), x) <==> ShownBy(g, ts, x)
  {
    hide SyncReach, Together, Reached, Shows;
    var m := SyncReaches(g, ts);
    ReachedTogether(m, x);
    forall t | t in m
      ensures Reached(m[t], x) <==> Shows(g, g.techniques[t].current, x)
    {
      ShownIsReached(g, g.techniques[t], x);
    }
  }

  // ---- one cascade ------------------------------------------------------------------

  lemma LeavesFill(g: Gl, r: Reach, force: bool, x: Part)
    ensures Filled(SyncLeaves(g, r, force), x) <==>
            Filled(g, x) || (Held(g, x) && Reached(r, x) && (force || Due(g, x)))
  {
  }

  // A sync fills what it shows, when forced or when the flag is up, and empties
  // nothing.
  lemma SyncFillsIff(g: Gl, ts: set<Id>, force: bool, x: Part)
    ensures Filled(SyncTechniques(g, ts, force), x) <==>
            Filled(g, x) || (Held(g, x) && ShownBy(g, ts, x) && (force || Due(g, x)))
  {
    hide SyncReachAll, SyncLeaves, ShownBy;
    LeavesFill(g, SyncReachAll(g, ts), force, x);
    TechniquesApart(SyncLeaves(g, SyncReachAll(g, ts), force), SyncTechniques(g, ts, force).techniques, x);
    if Held(g, x) {
      ShownByReached(g, ts, x);
    }
  }

  lemma TechniquesApart(g: Gl, techniques: map<Id, Q.Technique>, x: Part)
    ensures Filled(g.(techniques := techniques), x) <==> Filled(g, x)
    ensures Held(g.(techniques := techniques), x) <==> Held(g, x)
    ensures Due(g.(techniques := techniques), x) <==> Due(g, x)
  {
  }

  lemma LeavesRaise(g: Gl, r: Reach, x: Part)
    ensures Due(CommitLeaves(g, r), x) <==> Due(g, x) || (Reached(r, x) && Raises(g, x))
    ensures Filled(CommitLeaves(g, r), x) <==> Filled(g, x)
    ensures Held(CommitLeaves(g, r), x) <==> Held(g, x)
  {
  }

  // A commit sends nothing, and raises the flag of what it reaches and finds
  // changed.
  lemma CommitRaisesIff(g: Gl, ts: set<Id>, x: Part)
    ensures Due(CommitTechniques(g, ts), x) <==> Due(g, x) || (Reached(CommitReachAll(g, ts), x) && Raises(g, x))
    ensures Filled(CommitTechniques(g, ts), x) <==> Filled(g, x)
    ensures Held(CommitTechniques(g, ts), x) <==> Held(g, x)
  {
    hide CommitReachAll, CommitLeaves, Reached, Raises, Due, Filled, Held;
    LeavesRaise(g, CommitReachAll(g, ts), x);
    TechniquesApart(CommitLeaves(g, CommitReachAll(g, ts)), CommitTechniques(g, ts).techniques, x);
  }

  lemma NothingFilled(g: Gl, x: Part)
    requires NoCopies(g)
    ensures !Filled(g, x)
  {
  }

  lemma LossEmpties(g: Gl, x: Part)
    ensures !Filled(DropCopies(g), x)
  {
  }

  lemma QuietFills(g: Gl, g': Gl, n: Id, x: Part)
    requires KnownGl(g, n) && QuietGl(g, g', n)
    ensures Filled(g', x) <==> Filled(g, x) && Held(g', x)
  {
    if Filled(g, x) {
      assert x.id in g.buffers.Keys || x.id in g.textures.Keys || x.id in g.programs;
    }
  }

  // ---- one step ---------------------------------------------------------------------------

  // This step sends the part: it is on show when the session comes up, or it is
  // on show after a commit in a session, with its flag up by then.
  ghost predicate SendsPart(s: Scene, e: Event, x: Part) {
    match e
    case SessionEstablished => !s.session && ShownBy(s.gl, CommittedTechniques(s.gl), x)
    case CommitRequest(v) => s.session && CommitSendsPart(s, v, x)
    case MoveApp(v, _, _) => s.session && CommitSendsPart(s, v, x)
    case _ => false
  }

  ghost predicate CommitSendsPart(s: Scene, v: Id, x: Part) {
    var ts := TechniquesOf(s, {v});
    && ShownBy(CommitTechniques(s.gl, ts), ts, x)
    && (Due(s.gl, x) || (Reached(CommitReachAll(s.gl, ts), x) && Raises(s.gl, x)))
  }

  ghost function CommittedTechniques(g: Gl): set<Id> {
    set t | t in g.techniques && g.techniques[t].committed
  }

  lemma ShownIsHeld(g: Gl, ts: set<Id>, x: Part)
    requires ShownBy(g, ts, x)
    ensures Held(g, x)
  {
  }

  lemma CommitFillsIff(s: Scene, v: Id, x: Part)
    requires Structured(s) && v in s.objects && s.objects[v].app.Some?
    ensures Filled(Commit(s, v).gl, x) <==> Filled(s.gl, x) || (s.session && CommitSendsPart(s, v, x))
  {
    hide Structured, CommitTechniques, SyncTechniques, CommitReachAll, Filled, Held, Due, Raises, Reached, ShownBy;
    CommitParts(s, v);
    var ts := TechniquesOf(s, {v});
    var g1 := CommitTechniques(s.gl, ts);
    CommitRaisesIff(s.gl, ts, x);
    SyncFillsIff(g1, ts, false, x);
    if ShownBy(g1, ts, x) {
      ShownIsHeld(g1, ts, x);
    }
  }

  lemma EstablishmentFillsIff(s: Scene, x: Part)
    requires Structured(s) && Hierarchy(s)
    ensures Filled(SessionUp(s).gl, x) <==>
            Filled(s.gl, x) || (!s.session && ShownBy(s.gl, CommittedTechniques(s.gl), x))
  {
    hide SyncTechniques, Filled, Held, Due, ShownBy;
    if !s.session {
      UpParts(s);
      EverythingIsShown(s);
      assert CommittedOf(s, CommittedObjects(s)) == CommittedTechniques(s.gl);
      SyncFillsIff(s.gl, CommittedTechniques(s.gl), true, x);
      if ShownBy(s.gl, CommittedTechniques(s.gl), x) {
        ShownIsHeld(s.gl, CommittedTechniques(s.gl), x);
      }
    }
  }

  lemma MovedSends(s: Scene, v: Id, polar: real, azimuthal: real, x: Part)
    requires Structured(s) && v in s.objects && s.objects[v].app.Some?
    ensures Structured(Moved(s, v, polar, azimuthal))
    ensures CommitSendsPart(Moved(s, v, polar, azimuthal), v, x) <==> CommitSendsPart(s, v, x)
  {
    hide CommitTechniques, CommitReachAll, ShownBy, Due, Raises, Reached;
    assert TechniquesOf(Moved(s, v, polar, azimuthal), {v}) == TechniquesOf(s, {v});
  }

  lemma FilledIsHeld(g: Gl, x: Part)
    requires Filled(g, x)
    ensures Held(g, x)
  {
  }

  // Content stays on the renderer while its object and the session last, and
  // comes only with a step that sends it.
  lemma StepFillsIff(s: Scene, e: Event, x: Part)
    requires Inv(s) && Allowed(s, e)
    ensures Filled(Step(s, e).gl, x) <==>
            Held(Step(s, e).gl, x) && !e.SessionLost? && (Filled(s.gl, x) || SendsPart(s, e, x))
  {
    hide Commit, SessionUp, DropCopies, QuietStep, CommitSendsPart, Filled, ShownBy, Sound, Shown;
    if e.CommitRequest? {
      CommitFillsIff(s, e.id, x);
    } else if e.MoveApp? {
      MovedSends(s, e.id, e.polar, e.azimuthal, x);
      CommitFillsIff(Moved(s, e.id, e.polar, e.azimuthal), e.id, x);
    } else if e.SessionEstablished? {
      EstablishmentFillsIff(s, x);
    } else if e.SessionLost? {
      LossEmpties(s.gl, x);
    } else if e.DestroyOwner? {
      TechniquesApart(s.gl, Uprooted(s, e.id).gl.techniques, x);
    } else {
      GlAfterKept(s.gl, s.next, e);
      QuietGraphics(s, e);
      QuietFills(s.gl, GlAfter(s.gl, s.next, e), s.next, x);
    }
    if Filled(Step(s, e).gl, x) {
      FilledIsHeld(Step(s, e).gl, x);
    }
  }

  // ---- every run --------------------------------------------------------------------------

  // The run sent the part after the session last came up, or as it did.
  ghost predicate SentSince(es: seq<Event>, x: Part)
    requires Possible(es)
  {
    && es != []
    && Held(Run(es).gl, x)
    && !es[|es| - 1].SessionLost?
    && (SentSince(es[..|es| - 1], x) || SendsPart(Run(es[..|es| - 1]), es[|es| - 1], x))
  }

  lemma {:induction false} FilledIffSent(es: seq<Event>, x: Part)
    requires Possible(es)
    ensures Filled(Run(es).gl, x) <==> SentSince(es, x)
  {
    hide Filled, Held, SendsPart, Step, Allowed;
    if es == [] {
      NothingFilled(EMPTY.gl, x);
    } else {
      var init := es[..|es| - 1];
      RunKeeps(init);
      FilledIffSent(init, x);
      StepFillsIff(Run(init), es[|es| - 1], x);
    }
  }
}

// Runs of one small scene, event by event: one to which the main theorem
// applies, and those that show what its restrictions are for.
module SceneExample {
  import opened Common
  import opened Scenes
  import opened SceneInvariant
  import opened SceneCascade
  import opened SceneHistory
  import opened SceneMirror
  import B = Buffers
  import D = DrawCalls
  import L = Links
  import Q = Techniques

  const BUILD: seq<Event> := [
    Create(NewObject), AttachApp(0, Pose(0.0, 0.0)), Create(NewUnit(0)), Create(NewTechnique(1))]

  lemma Next(es: seq<Event>, e: Event)
    requires Possible(es) && Allowed(Run(es), e)
    ensures Possible(es + [e]) && Run(es + [e]) == Step(Run(es), e)
  {
    assert (es + [e])[..|es + [e]| - 1] == es;
  }

  // One object, one unit, one technique that only draws; of the rest, what the
  // runs below turn on.
  datatype Snap = Snap(
    session: bool, next: Id, app: bool, committed: bool, pending: D.DrawArgs, current: D.DrawArgs, copy: Option<D.Draw>,
    shm: map<Id, Bytes>, buffers: map<Id, B.Buffer>)
  {
    // What a commit makes of it.
    ghost function Commit(): Snap {
      var now := D.CommitCurrent(pending, current);
      var after := this.(committed := true, pending := D.CommitPending(pending), current := now,
                         buffers := B.CommitSome(buffers, D.CommitBuffers(pending), shm));
      if session then after.Sync(false) else after
    }

    ghost function Sync(force: bool): Snap {
      this.(copy := Some(D.SyncRemote(copy.GetOr(D.NoDraw), current, force, buffers.Keys)),
            buffers := B.SyncSome(buffers, current.data.BufferSet(), force))
    }
  }

  predicate OnlyDraws(c: Q.Bound) {
    && !c.programChanged && c.program.None? && !c.arrayChanged && c.vertexArray.None?
    && c.textures.list == [] && c.uniforms == []
  }

  ghost predicate Built(s: Scene) {
    && s.objects.Keys == {0}
    && s.units.Keys == {1} && s.units[1].owner == 0
    && s.gl.techniques.Keys == {2} && s.gl.techniques[2].unit == 1
    && OnlyDraws(s.gl.techniques[2].pending) && OnlyDraws(s.gl.techniques[2].current)
  }

  ghost predicate Looks(s: Scene, n: Snap) {
    && Built(s) && s.session == n.session && s.next == n.next && s.objects[0].app.Some? == n.app
    && s.objects[0].committed == s.units[1].committed == s.gl.techniques[2].committed == n.committed
    && s.gl.shm == n.shm && s.gl.buffers == n.buffers
    && Draws(s.gl.techniques[2], n.pending, n.current, n.copy)
  }

  ghost predicate Draws(t: Q.Technique, pending: D.DrawArgs, current: D.DrawArgs, copy: Option<D.Draw>) {
    && t.pending.draw == pending && t.current.draw == current
    && copy == (if t.proxy.Some? then Some(t.proxy.value.draw) else None)
  }

  const NOT_DRAWN := D.DrawArgs(D.NoDraw, false)
  const START := Snap(false, 3, true, false, NOT_DRAWN, NOT_DRAWN, None, map[], map[])

  ghost predicate Bare(s: Scene, app: bool) {
    && s == EMPTY.(next := 2, units := s.units, objects := s.objects)
    && s.objects.Keys == {0} && s.objects[0].app.Some? == app && !s.objects[0].committed
    && s.units.Keys == {1} && s.units[1].owner == 0 && !s.units[1].committed
  }

  lemma TechniqueLooks(s: Scene, app: bool)
    requires Bare(s, app)
    ensures Allowed(s, Create(NewTechnique(1)))
    ensures Looks(Step(s, Create(NewTechnique(1))), START.(app := app))
  {
  }

  lemma BuildIsPossible()
    ensures Possible(BUILD) && Looks(Run(BUILD), START)
  {
    hide Looks;
    Next([], BUILD[0]);
    var es1 := [] + [BUILD[0]];
    Next(es1, BUILD[1]);
    var es2 := es1 + [BUILD[1]];
    Next(es2, BUILD[2]);
    var es3 := es2 + [BUILD[2]];
    TechniqueLooks(Run(es3), true);
    Next(es3, BUILD[3]);
    assert BUILD == es3 + [BUILD[3]];
  }

  // ---- commits and sessions -------------------------------------------------------

  lemma SmallReach(g: Gl)
    requires g.techniques.Keys == {2} && OnlyDraws(g.techniques[2].pending) && OnlyDraws(g.techniques[2].current)
    ensures CommitReachAll(g, {2}).buffers == D.CommitBuffers(g.techniques[2].pending.draw)
    ensures SyncReachAll(g, {2}).buffers == g.techniques[2].current.draw.data.BufferSet()
  {
    hide CommitReachAll, SyncReachAll;
    L.CommitReachOne(g, 2);
    L.SyncReachOne(g, 2);
  }

  lemma TechniqueCommits(t: Q.Technique, live: Q.Live)
    requires OnlyDraws(t.pending) && OnlyDraws(t.current)
    ensures var t' := t.Commit(live);
            && t'.unit == t.unit && t'.committed && OnlyDraws(t'.pending) && OnlyDraws(t'.current)
               && t'.proxy == t.proxy
            && t'.pending.draw == D.CommitPending(t.pending.draw)
            && t'.current.draw == D.CommitCurrent(t.pending.draw, t.current.draw)
  {
  }

  lemma TechniqueSyncs(t: Q.Technique, force: bool, live: Q.Live, n: Snap)
    requires OnlyDraws(t.pending) && OnlyDraws(t.current) && Draws(t, n.pending, n.current, n.copy)
    requires live.buffers == n.buffers.Keys
    ensures var t' := t.Sync(force, live);
            && t'.unit == t.unit && t'.committed == t.committed && OnlyDraws(t'.pending) && OnlyDraws(t'.current)
            && Draws(t', n.pending, n.current, n.Sync(force).copy)
  {
  }

  lemma SmallTechniques(s: Scene)
    requires Built(s)
    ensures TechniquesOf(s, {0}) == {2}
    ensures s.objects[0].app.Some? ==> CommitAllowed(s, 0)
  {
    assert s.gl.techniques[2].DisplacesNone();
  }

  // A commit alone, and the sync that follows it in a session.
  lemma CommitGl(g: Gl, n: Snap)
    requires g.techniques.Keys == {2} && OnlyDraws(g.techniques[2].pending) && OnlyDraws(g.techniques[2].current)
    requires g.shm == n.shm && g.buffers == n.buffers && Draws(g.techniques[2], n.pending, n.current, n.copy)
    ensures var g1, n1 := CommitTechniques(g, {2}), n.(session := false).Commit();
            && g1.techniques.Keys == {2} && OnlyDraws(g1.techniques[2].pending) && OnlyDraws(g1.techniques[2].current)
            && g1.techniques[2].committed && g1.techniques[2].unit == g.techniques[2].unit
            && g1.shm == n1.shm && g1.buffers == n1.buffers && Draws(g1.techniques[2], n1.pending, n1.current, n1.copy)
  {
    hide CommitReachAll, OnlyDraws, Q.Technique.Commit;
    SmallReach(g);
    TechniqueCommits(g.techniques[2], g.Live());
  }

  lemma SyncGl(g: Gl, force: bool, n: Snap)
    requires g.techniques.Keys == {2} && OnlyDraws(g.techniques[2].pending) && OnlyDraws(g.techniques[2].current)
    requires g.shm == n.shm && g.buffers == n.buffers && Draws(g.techniques[2], n.pending, n.current, n.copy)
    ensures var g1, n1 := SyncTechniques(g, {2}, force), n.Sync(force);
            && g1.techniques.Keys == {2} && OnlyDraws(g1.techniques[2].pending) && OnlyDraws(g1.techniques[2].current)
            && g1.techniques[2].committed == g.techniques[2].committed && g1.techniques[2].unit == g.techniques[2].unit
            && g1.shm == n1.shm && g1.buffers == n1.buffers && Draws(g1.techniques[2], n1.pending, n1.current, n1.copy)
  {
    hide SyncReachAll, OnlyDraws, Q.Technique.Sync;
    SmallReach(g);
    TechniqueSyncs(g.techniques[2], force, g.Live(), n);
  }

  lemma CommitLooks(s: Scene, n: Snap)
    requires Structured(s) && Looks(s, n) && n.app
    ensures Allowed(s, CommitRequest(0)) && Looks(Step(s, CommitRequest(0)), n.Commit())
  {
    hide CommitTechniques, SyncTechniques, TechniquesOf, OnlyDraws, Draws, Structured, Snap.Sync;
    SmallTechniques(s);
    CommitParts(s, 0);
    CommitGl(s.gl, n);
    if s.session {
      var now := n.(session := false).Commit().(session := true);
      SyncGl(CommitTechniques(s.gl, {2}), false, now);
      Synced(now, false);
    }
  }

  lemma UpLooks(s: Scene, n: Snap)
    requires Structured(s) && Looks(s, n) && !n.session
    ensures Looks(Step(s, SessionEstablished), if n.committed then n.(session := true).Sync(true)
            else n.(session := true))
  {
    hide SyncTechniques, OnlyDraws, Draws, Snap.Sync, CommittedOf, Structured;
    UpParts(s);
    SmallCommitted(s, n);
    if n.committed {
      SyncGl(s.gl, true, n.(session := true));
    } else {
      L.SyncNothing(s.gl, true);
    }
    Synced(n.(session := true), true);
  }

  lemma Synced(n: Snap, force: bool)
    ensures n.Sync(force) == n.(copy := n.Sync(force).copy, buffers := n.Sync(force).buffers)
  {
  }

  lemma SmallCommitted(s: Scene, n: Snap)
    requires Structured(s) && Looks(s, n)
    ensures CommittedOf(s, CommittedObjects(s)) == if n.committed then {2} else {}
    ensures CommittedObjects(s) == if n.committed then {0} else {}
  {
    EverythingIsShown(s);
  }

  lemma LossLooks(s: Scene, n: Snap)
    requires Looks(s, n)
    ensures Looks(Step(s, SessionLost), n.(session := false, copy := None, buffers := B.Dropped(n.buffers)))
  {
  }

  // ---- requests -------------------------------------------------------------------

  lemma DrawLooks(s: Scene, n: Snap, d: D.Draw)
    requires Looks(s, n) && !d.NoDraw? && d.Live(n.buffers.Keys)
    ensures Allowed(s, OnTechnique(2, Q.SetDraw(d)))
    ensures Looks(Step(s, OnTechnique(2, Q.SetDraw(d))), n.(pending := D.DrawArgs(d, true)))
  {
  }

  const JUNK := B.BufferCurrent(false, 0, 0, None)
  const BLANK := B.Buffer(B.BufferPending(0, 0, None), JUNK, None)

  lemma BufferLooks(s: Scene, n: Snap)
    requires Looks(s, n) && n.next > 2
    ensures Allowed(s, Create(NewBuffer(JUNK, 0, 0)))
    ensures Looks(Step(s, Create(NewBuffer(JUNK, 0, 0))), n.(next := n.next + 1, buffers := n.buffers[n.next := BLANK]))
  {
  }

  lemma MemoryLooks(s: Scene, n: Snap)
    requires Looks(s, n) && n.next > 2
    ensures Allowed(s, Create(NewMemory([1])))
    ensures Looks(Step(s, Create(NewMemory([1]))), n.(next := n.next + 1, shm := n.shm[n.next := [1]]))
  {
  }

  lemma DataLooks(s: Scene, n: Snap, b: Id, m: Id)
    requires Looks(s, n) && b in n.buffers && m in n.shm
    ensures Allowed(s, OnBuffer(b, 0, 0, m))
    ensures Looks(Step(s, OnBuffer(b, 0, 0, m)), n.(buffers := n.buffers[b := n.buffers[b].Requested(0, 0, m)]))
  {
  }

  lemma DestroyLooks(s: Scene, n: Snap, i: Id)
    requires Looks(s, n) && i > 2
    ensures Allowed(s, Destroy(i))
    ensures Looks(Step(s, Destroy(i)), n.(shm := n.shm - {i}, buffers := n.buffers - {i}))
  {
  }

  // ---- a run to which the main theorem applies ----------------------------------------

  const UP: seq<Event> := BUILD + [SessionEstablished]
  const SHOW: seq<Event> := UP + [CommitRequest(0)]

  lemma UpIsPossible()
    ensures Possible(UP) && Looks(Run(UP), START.(session := true))
  {
    hide Looks, Built, Run, Possible, Inv;
    BuildIsPossible();
    RunKeeps(BUILD);
    InvStructured(Run(BUILD));
    UpLooks(Run(BUILD), START);
    Next(BUILD, SessionEstablished);
  }

  lemma InvStructured(s: Scene)
    requires Inv(s)
    ensures Structured(s)
  {
  }

  lemma CommitNext(es: seq<Event>, n: Snap)
    requires Possible(es) && Looks(Run(es), n) && n.app
    ensures Possible(es + [CommitRequest(0)]) && Looks(Run(es + [CommitRequest(0)]), n.Commit())
  {
    hide Looks, Inv, Allowed, Step;
    RunKeeps(es);
    InvStructured(Run(es));
    CommitLooks(Run(es), n);
    Next(es, CommitRequest(0));
  }

  // The technique is on show at the end of the run.
  lemma ShowIsPossible()
    ensures Possible(SHOW) && Run(SHOW).session
    ensures 2 in Run(SHOW).gl.techniques && Run(SHOW).gl.techniques[2].committed
            && Run(SHOW).gl.techniques[2].proxy.Some?
  {
    UpIsPossible();
    CommitNext(UP, START.(session := true));
  }

  // ---- a target that dies ---------------------------------------------------------------

  const ARRAYS := D.Arrays(4, 0, 3)

  function Indexed(b: Id): D.Draw {
    D.Elements(4, 3, 5123, 0, b)
  }

  lemma DrawNext(es: seq<Event>, n: Snap, d: D.Draw)
    requires Possible(es) && Looks(Run(es), n) && !d.NoDraw? && d.Live(n.buffers.Keys)
    ensures var e := OnTechnique(2, Q.SetDraw(d));
            Possible(es + [e]) && Looks(Run(es + [e]), n.(pending := D.DrawArgs(d, true)))
  {
    hide Looks, Allowed, Step;
    DrawLooks(Run(es), n, d);
    Next(es, OnTechnique(2, Q.SetDraw(d)));
  }

  lemma BufferNext(es: seq<Event>, n: Snap)
    requires Possible(es) && Looks(Run(es), n) && n.next > 2
    ensures var e := Create(NewBuffer(JUNK, 0, 0));
            Possible(es + [e]) && Looks(Run(es + [e]), n.(next := n.next + 1, buffers := n.buffers[n.next := BLANK]))
  {
    hide Looks, Allowed, Step;
    BufferLooks(Run(es), n);
    Next(es, Create(NewBuffer(JUNK, 0, 0)));
  }

  lemma DestroyNext(es: seq<Event>, n: Snap, i: Id)
    requires Possible(es) && Looks(Run(es), n) && i > 2
    ensures Possible(es + [Destroy(i)])
    ensures Looks(Run(es + [Destroy(i)]), n.(shm := n.shm - {i}, buffers := n.buffers - {i}))
  {
    hide Looks, Allowed, Step;
    DestroyLooks(Run(es), n, i);
    Next(es, Destroy(i));
  }

  const STALE: seq<Event> :=
    UP + [OnTechnique(2, Q.SetDraw(ARRAYS))] + [CommitRequest(0)] + [Create(NewBuffer(JUNK, 0, 0))]
    + [OnTechnique(2, Q.SetDraw(Indexed(3)))] + [Destroy(3)] + [CommitRequest(0)]

  lemma StaleIsPossible()
    ensures Possible(STALE) && Run(STALE).session && Built(Run(STALE)) && Run(STALE).gl.techniques[2].committed
    ensures Draws(Run(STALE).gl.techniques[2], NOT_DRAWN, D.DrawArgs(Indexed(3), true), Some(ARRAYS))
    ensures Run(STALE).gl.buffers == map[]
  {
    hide Run, Possible;
    UpIsPossible();
    var n0 := START.(session := true);
    DrawNext(UP, n0, ARRAYS);
    var es1, n1 := UP + [OnTechnique(2, Q.SetDraw(ARRAYS))], n0.(pending := D.DrawArgs(ARRAYS, true));
    CommitNext(es1, n1);
    var es2, n2 := es1 + [CommitRequest(0)], n1.Commit();
    assert n2.buffers == map[] && n2.copy == Some(ARRAYS);
    BufferNext(es2, n2);
    var es3, n3 := es2 + [Create(NewBuffer(JUNK, 0, 0))], n2.(next := 4, buffers := n2.buffers[3 := BLANK]);
    DrawNext(es3, n3, Indexed(3));
    var es4 := es3 + [OnTechnique(2, Q.SetDraw(Indexed(3)))];
    var n4 := n3.(pending := D.DrawArgs(Indexed(3), true));
    DestroyNext(es4, n4, 3);
    var es5, n5 := es4 + [Destroy(3)], n4.(shm := n4.shm - {3}, buffers := n4.buffers - {3});
    assert n5.buffers == map[];
    CommitNext(es5, n5);
  }

  // The client drew arrays, asked to draw elements, and destroyed their buffer
  // before it committed: the renderer, which is never told to stop, still
  // draws the arrays. A resend would have it draw nothing.
  lemma DeadTargetLeavesStaleDraw()
    ensures Possible(STALE) && Run(STALE).session && 2 in Run(STALE).gl.techniques
    ensures var g := Run(STALE).gl;
            && g.techniques[2].committed && 2 in Resent(g).techniques
            && g.techniques[2].Copy().draw == ARRAYS && Resent(g).techniques[2].Copy().draw == D.NoDraw
            && !Q.SameRecord(g.techniques[2].Copy(), Resent(g).techniques[2].Copy())
  {
    hide Run, Possible;
    StaleIsPossible();
    ResentTechnique(Run(STALE).gl, 2);
  }

  // ---- content that is not sent again ------------------------------------------------------

  lemma MemoryNext(es: seq<Event>, n: Snap)
    requires Possible(es) && Looks(Run(es), n) && n.next > 2
    ensures var e := Create(NewMemory([1]));
            Possible(es + [e]) && Looks(Run(es + [e]), n.(next := n.next + 1, shm := n.shm[n.next := [1]]))
  {
    hide Looks, Allowed, Step;
    MemoryLooks(Run(es), n);
    Next(es, Create(NewMemory([1])));
  }

  lemma DataNext(es: seq<Event>, n: Snap, b: Id, m: Id)
    requires Possible(es) && Looks(Run(es), n) && b in n.buffers && m in n.shm
    ensures var e := OnBuffer(b, 0, 0, m);
            Possible(es + [e]) && Looks(Run(es + [e]), n.(buffers := n.buffers[b := n.buffers[b].Requested(0, 0, m)]))
  {
    hide Looks, Allowed, Step;
    DataLooks(Run(es), n, b, m);
    Next(es, OnBuffer(b, 0, 0, m));
  }

  lemma ReconnectNext(es: seq<Event>, n: Snap)
    requires Possible(es) && Looks(Run(es), n) && n.committed
    ensures var es' := es + [SessionLost] + [SessionEstablished];
            && Possible(es')
            && Looks(Run(es'), n.(session := true, copy := None, buffers := B.Dropped(n.buffers)).Sync(true))
  {
    hide Looks, Inv, Allowed, Step;
    var down := n.(session := false, copy := None, buffers := B.Dropped(n.buffers));
    LossLooks(Run(es), n);
    AlwaysAllowed(Run(es));
    Next(es, SessionLost);
    var es1 := es + [SessionLost];
    RunKeeps(es1);
    InvStructured(Run(es1));
    UpLooks(Run(es1), down);
    AlwaysAllowed(Run(es1));
    Next(es1, SessionEstablished);
  }

  lemma AlwaysAllowed(s: Scene)
    ensures Allowed(s, SessionLost) && Allowed(s, SessionEstablished)
  {
  }

  // A buffer is filled, shown and committed, and let go.
  const LET_GO: seq<Event> :=
    UP + [Create(NewMemory([1]))] + [Create(NewBuffer(JUNK, 0, 0))] + [OnBuffer(4, 0, 0, 3)]
    + [OnTechnique(2, Q.SetDraw(Indexed(4)))] + [CommitRequest(0)]
    + [OnTechnique(2, Q.SetDraw(ARRAYS))] + [CommitRequest(0)]
  // After a reconnect it is shown again.
  const AGAIN: seq<Event> :=
    LET_GO + [SessionLost] + [SessionEstablished] + [OnTechnique(2, Q.SetDraw(Indexed(4)))] + [CommitRequest(0)]

  const SENT := B.Buffer(
    B.BufferPending(0, 0, None), B.BufferCurrent(false, 0, 0, Some([1])),
        Some(B.RemoteBuffer(Some(B.Content(Some([1]), 0, 0)))))

  ghost predicate LetGo(n: Snap) {
    && n.session && n.app && n.committed && n.pending == NOT_DRAWN && n.current == D.DrawArgs(ARRAYS, true)
    && n.buffers == map[4 := SENT]
  }

  lemma FillsBuffer(n: Snap)
    requires n.session && n.shm == map[3 := [1]] && n.pending == D.DrawArgs(Indexed(4), true)
    requires n.buffers == map[4 := BLANK.Requested(0, 0, 3)]
    ensures n.Commit().buffers == map[4 := SENT] && n.Commit().session && n.Commit().app == n.app
  {
  }

  lemma LetsGo(n: Snap)
    requires n.session && n.app && n.buffers == map[4 := SENT] && n.pending == D.DrawArgs(ARRAYS, true)
    ensures LetGo(n.Commit())
  {
  }

  lemma LetGoIsPossible() returns (n: Snap)
    ensures Possible(LET_GO) && Looks(Run(LET_GO), n) && LetGo(n)
  {
    hide Run, Possible, Looks, Snap.Commit;
    UpIsPossible();
    var n0 := START.(session := true);
    MemoryNext(UP, n0);
    var es1, n1 := UP + [Create(NewMemory([1]))], n0.(next := 4, shm := map[3 := [1]]);
    assert n0.shm[3 := [1]] == map[3 := [1]];
    BufferNext(es1, n1);
    var es2, n2 := es1 + [Create(NewBuffer(JUNK, 0, 0))], n1.(next := 5, buffers := map[4 := BLANK]);
    assert n1.buffers[4 := BLANK] == map[4 := BLANK];
    DataNext(es2, n2, 4, 3);
    var es3, n3 := es2 + [OnBuffer(4, 0, 0, 3)], n2.(buffers := map[4 := BLANK.Requested(0, 0, 3)]);
    assert n2.buffers[4 := BLANK.Requested(0, 0, 3)] == map[4 := BLANK.Requested(0, 0, 3)];
    DrawNext(es3, n3, Indexed(4));
    var es4 := es3 + [OnTechnique(2, Q.SetDraw(Indexed(4)))];
    var n4 := n3.(pending := D.DrawArgs(Indexed(4), true));
    CommitNext(es4, n4);
    FillsBuffer(n4);
    var es5, n5 := es4 + [CommitRequest(0)], n4.Commit();
    DrawNext(es5, n5, ARRAYS);
    var es6, n6 := es5 + [OnTechnique(2, Q.SetDraw(ARRAYS))], n5.(pending := D.DrawArgs(ARRAYS, true));
    LetsGo(n6);
    CommitNext(es6, n6);
    n := n6.Commit();
  }

  lemma NotSentAgain(n: Snap)
    requires LetGo(n)
    ensures var up := n.(session := true, copy := None, buffers := B.Dropped(n.buffers)).Sync(true);
            var again := up.(pending := D.DrawArgs(Indexed(4), true)).Commit();
            && 4 in up.buffers && 4 in again.buffers && again.buffers[4].Blank() && again.session && again.committed
               && up.app
            && again.current.data == Indexed(4)
  {
  }

  // On show, and blank: nothing is sent of a buffer that was not shown when
  // the session came up and has not changed since.
  lemma RebindingLeavesBlank()
    ensures Possible(AGAIN) && Run(AGAIN).session && 2 in Run(AGAIN).gl.techniques
    ensures var g := Run(AGAIN).gl;
            && g.techniques[2].committed && ShowsBuffer(g, g.techniques[2].current, 4) && g.buffers[4].Blank()
    ensures !SentSince(AGAIN, BufferData(4))
  {
    hide Run, Possible, SentSince;
    var n := LetGoIsPossible();
    NotSentAgain(n);
    ReconnectNext(LET_GO, n);
    var es1 := LET_GO + [SessionLost] + [SessionEstablished];
    var n1 := n.(session := true, copy := None, buffers := B.Dropped(n.buffers)).Sync(true);
    DrawNext(es1, n1, Indexed(4));
    var es2 := es1 + [OnTechnique(2, Q.SetDraw(Indexed(4)))];
    CommitNext(es2, n1.(pending := D.DrawArgs(Indexed(4), true)));
    FilledIffSent(AGAIN, BufferData(4));
  }

  // ---- a commit before there is an app -------------------------------------------------------

  const EARLY: seq<Event> :=
    [Create(NewObject)] + [Create(NewUnit(0))] + [Create(NewTechnique(1))] + [SessionEstablished]
    + [OnTechnique(2, Q.SetDraw(ARRAYS))]
  const EARLY_START := START.(session := true, app := false, pending := D.DrawArgs(ARRAYS, true))

  lemma EarlyBuilt(es: seq<Event>)
    requires es == [Create(NewObject)] + [Create(NewUnit(0))] + [Create(NewTechnique(1))]
    ensures Possible(es) && Looks(Run(es), START.(app := false))
  {
    hide Looks;
    Next([], Create(NewObject));
    var es1 := [] + [Create(NewObject)];
    assert es1 == [Create(NewObject)];
    Next(es1, Create(NewUnit(0)));
    TechniqueLooks(Run(es1 + [Create(NewUnit(0))]), false);
    Next(es1 + [Create(NewUnit(0))], Create(NewTechnique(1)));
  }

  lemma EarlyIsPossible()
    ensures Possible(EARLY) && Looks(Run(EARLY), EARLY_START)
  {
    hide Looks, Run, Possible;
    var es := [Create(NewObject)] + [Create(NewUnit(0))] + [Create(NewTechnique(1))];
    EarlyBuilt(es);
    EarlyUp(es);
    DrawNext(es + [SessionEstablished], START.(session := true, app := false), ARRAYS);
  }

  lemma EarlyUp(es: seq<Event>)
    requires Possible(es) && Looks(Run(es), START.(app := false))
    ensures Possible(es + [SessionEstablished])
    ensures Looks(Run(es + [SessionEstablished]), START.(session := true, app := false))
  {
    hide Looks, Inv, Allowed, Step;
    RunKeeps(es);
    InvStructured(Run(es));
    UpLooks(Run(es), START.(app := false));
    AlwaysAllowed(Run(es));
    Next(es, SessionEstablished);
  }

  ghost function Attached(s: Scene, v: Id): Scene
    requires v in s.objects
  {
    s.(objects := s.objects[v := s.objects[v].(app := Some(Pose(0.0, 0.0)))])
  }

  // Committing early and then attaching the app is attaching it and then
  // committing where nothing is sent.
  lemma EarlyIsUnsent(s: Scene, n: Snap)
    requires Structured(s) && Looks(s, n) && !n.app
    ensures 0 in s.objects && 0 in Commit(s, 0).objects
    ensures Attached(Commit(s, 0), 0) == CommitObject(Attached(s, 0), 0)
  {
    hide CommitTechniques;
    assert TechniquesOf(Attached(s, 0), {0}) == TechniquesOf(s, {0});
    L.NoAppNoSync(CommitObject(s, 0), 0, false);
  }

  lemma AttachedLooks(s: Scene, n: Snap)
    requires Structured(s) && Looks(s, n) && !n.committed
    ensures Structured(Attached(s, 0)) && Looks(Attached(s, 0), n.(app := true))
  {
  }

  lemma ObjectLooks(s: Scene, n: Snap)
    requires Structured(s) && Looks(s, n) && n.app
    ensures 0 in s.objects && Structured(CommitObject(s, 0))
    ensures Looks(CommitObject(s, 0), n.(session := false).Commit().(session := n.session))
  {
    hide CommitTechniques, TechniquesOf, OnlyDraws, Draws;
    SmallTechniques(s);
    CommitGl(s.gl, n);
    CommitTreeOnly(s, 0);
  }

  // A commit before the app is attached lowers the flags and sends nothing; the
  // commit after it makes the copy, and does not send what was lost.
  lemma EarlyCommitLosesFlags()
    ensures Possible(EARLY) && Run(EARLY).session && 0 in Run(EARLY).objects && Run(EARLY).objects[0].app.None?
    ensures 0 in Commit(Run(EARLY), 0).objects
    ensures var s := Commit(Attached(Commit(Run(EARLY), 0), 0), 0);
            && s.session && 2 in s.gl.techniques && s.gl.techniques[2].proxy.Some?
            && s.gl.techniques[2].current.draw.data == ARRAYS && s.gl.techniques[2].Copy().draw == D.NoDraw
            && !Q.Mirrored(s.gl.techniques[2].Copy(), s.gl.techniques[2].current, s.gl.Live())
  {
    hide Run, Possible, Inv, Commit, CommitObject, Structured;
    EarlyIsPossible();
    RunKeeps(EARLY);
    var s, n := Run(EARLY), EARLY_START;
    InvStructured(s);
    EarlyIsUnsent(s, n);
    AttachedLooks(s, n);
    ObjectLooks(Attached(s, 0), n.(app := true));
    var s2, n2 := Attached(Commit(s, 0), 0), n.(app := true, session := false).Commit().(session := true);
    assert n2.copy == None && n2.current == D.DrawArgs(ARRAYS, true) && n2.pending == NOT_DRAWN;
    CommitLooks(s2, n2);
  }
}

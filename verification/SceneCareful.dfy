// Runs of careful clients, who destroy nothing in use and attach every shader
// before the one link: there the renderer's records equal a resend's outright.
module SceneCareful {
  import opened Common
  import opened Scenes
  import opened SceneInvariant
  import opened SceneCascade
  import opened SceneHistory
  import opened SceneMirror
  import P = Programs
  import A = VertexArrays
  import TB = TextureBindings
  import Q = Techniques

  predicate Mentions(c: Q.Bound, i: Id) {
    || c.program == Some(i) || c.vertexArray == Some(i)
    || (exists b :: b in c.textures.list && (b.texture == i || b.sampler == i))
    || (c.draw.data.Elements? && c.draw.data.buffer == i)
  }

  // Nothing pending or current refers to `i`.
  ghost predicate Unused(g: Gl, i: Id) {
    && (forall t :: t in g.techniques ==>
       !Mentions(g.techniques[t].pending, i) && !Mentions(g.techniques[t].current, i))
    && (forall a :: a in g.arrays ==> i !in A.BuffersOf(g.arrays[a].pending) && i !in A.BuffersOf(g.arrays[a].current))
    && (forall p :: p in g.programs ==> i !in g.programs[p].pending.shaders && i !in g.programs[p].current.shaders)
  }

  ghost predicate Careful(s: Scene, e: Event) {
    && (e.Destroy? ==> Unused(s.gl, e.id))
    && (e.OnProgram? ==> e.id in s.gl.programs && !s.gl.programs[e.id].LinkRequested())
  }

  ghost predicate CarefulRun(es: seq<Event>)
    requires Possible(es)
  {
    es != [] ==> CarefulRun(es[..|es| - 1]) && Careful(Run(es[..|es| - 1]), es[|es| - 1])
  }

  ghost predicate TidyTechniques(techniques: map<Id, Q.Technique>, live: Q.Live) {
    forall t :: t in techniques ==>
      Q.AllLive(techniques[t].pending, live) && Q.AllLive(techniques[t].current, live) && Q.NoStalePoints(techniques[t])
  }

  ghost predicate TidyArrays(arrays: map<Id, A.VertexArray>, buffers: set<Id>) {
    forall a :: a in arrays ==> A.BuffersOf(arrays[a].pending) <= buffers && A.BuffersOf(arrays[a].current) <= buffers
  }

  ghost predicate TidyPrograms(programs: map<Id, P.Program>, shaders: set<Id>) {
    forall p :: p in programs ==>
      && P.Elements(programs[p].pending.shaders) <= shaders && P.Elements(programs[p].current.shaders) <= shaders
      && programs[p].Ordered() && programs[p].RemoteSound()
  }

  // Everything referred to is alive, and nothing stale is on the renderer.
  ghost predicate Tidy(g: Gl) {
    TidyTechniques(g.techniques, g.Live()) && TidyArrays(g.arrays, g.buffers.Keys)
        && TidyPrograms(g.programs, g.shaders.Keys)
  }

  // ---- quiet steps -----------------------------------------------------------------

  lemma TidyWithin(techniques: map<Id, Q.Technique>, live: Q.Live, more: Q.Live)
    requires TidyTechniques(techniques, live) && live.Within(more)
    ensures TidyTechniques(techniques, more)
  {
    hide Q.NoStalePoints;
    assert forall b: TB.Binding :: b.Live(live.textures, live.samplers) ==> b.Live(more.textures, more.samplers);
  }

  lemma OneMoreTidy(techniques: map<Id, Q.Technique>, live: Q.Live, n: Id, u: Id)
    requires TidyTechniques(techniques, live)
    ensures TidyTechniques(techniques[n := Q.NewTechnique(u)], live)
  {
    assert TB.Points([]) == {};
  }

  lemma MadeTidyArrays(g: Gl, n: Id, c: Creation)
    requires TidyArrays(g.arrays, g.buffers.Keys) && TidyPrograms(g.programs, g.shaders.Keys)
    ensures TidyArrays(Made(g, n, c).arrays, Made(g, n, c).buffers.Keys)
    ensures TidyPrograms(Made(g, n, c).programs, Made(g, n, c).shaders.Keys)
  {
    assert g.buffers.Keys <= Made(g, n, c).buffers.Keys && g.shaders.Keys <= Made(g, n, c).shaders.Keys;
  }

  lemma MadeTidy(g: Gl, n: Id, c: Creation)
    requires Tidy(g)
    ensures Tidy(Made(g, n, c))
  {
    hide TidyTechniques, TidyArrays, TidyPrograms;
    var g' := Made(g, n, c);
    assert g.Live().Within(g'.Live());
    TidyWithin(g.techniques, g.Live(), g'.Live());
    if c.NewTechnique? {
      OneMoreTidy(g.techniques, g'.Live(), n, c.ofUnit);
    }
    MadeTidyArrays(g, n, c);
  }

  lemma WithoutTidyTechniques(g: Gl, i: Id)
    requires Tidy(g) && Unused(g, i)
    ensures TidyTechniques(Without(g, i).techniques, Without(g, i).Live())
  {
    forall t | t in Without(g, i).techniques
      ensures Q.AllLive(g.techniques[t].pending, Without(g, i).Live())
      ensures Q.AllLive(g.techniques[t].current, Without(g, i).Live())
    {
      UnmentionedAlive(g.techniques[t].pending, g.Live(), Without(g, i).Live(), i);
      UnmentionedAlive(g.techniques[t].current, g.Live(), Without(g, i).Live(), i);
    }
  }

  lemma UnmentionedAlive(c: Q.Bound, live: Q.Live, fewer: Q.Live, i: Id)
    requires Q.AllLive(c, live) && !Mentions(c, i)
    requires fewer == Q.Live(live.buffers - {i}, live.textures - {i}, live.samplers - {i}, live.programs - {i},
             live.arrays - {i})
    ensures Q.AllLive(c, fewer)
  {
  }

  lemma WithoutTidy(g: Gl, i: Id)
    requires Tidy(g) && Unused(g, i)
    ensures Tidy(Without(g, i))
  {
    WithoutTidyTechniques(g, i);
    assert TidyArrays(Without(g, i).arrays, Without(g, i).buffers.Keys);
  }

  lemma ProgramTidy(g: Gl, i: Id, r: P.Request)
    requires Tidy(g) && i in g.programs && (r.AttachShader? ==> r.shader in g.shaders) && !g.programs[i].LinkRequested()
    ensures Tidy(g.(programs := g.programs[i := g.programs[i].Requested(r)]))
  {
  }

  lemma ArrayTidy(g: Gl, i: Id, r: A.Request)
    requires Tidy(g) && i in g.arrays && (r.SetPointer? ==> r.pointer.buffer in g.buffers)
    ensures Tidy(g.(arrays := g.arrays[i := g.arrays[i].Requested(r)]))
  {
    var a, a' := g.arrays[i], g.arrays[i].Requested(r);
    forall b | b in A.BuffersOf(a'.pending)
      ensures b in g.buffers.Keys
    {
      var k :| k in a'.pending && a'.pending[k].buffer == Some(b);
      if k in a.pending && a.pending[k].buffer == Some(b) {
        assert b in A.BuffersOf(a.pending);
      }
    }
  }

  lemma TechniqueTidy(g: Gl, i: Id, r: Q.Request)
    requires Tidy(g) && Sound(g) && i in g.techniques && r.Allowed(g.Live())
    ensures Tidy(g.(techniques := g.techniques[i := g.techniques[i].Requested(r)]))
  {
    if r.BindTexture? {
      assert g.techniques[i].WellFormed();
      TB.EmplaceUnique(g.techniques[i].pending.textures.list, r.binding);
    }
  }

  // A request to a buffer, texture or sampler, or a write to memory.
  lemma DataTidy(g: Gl, n: Id, e: Event)
    requires Tidy(g) && NamesGl(g, e)
    requires e.WriteMemory? || e.OnBuffer? || e.OnTexture? || e.OnSampler?
    ensures Tidy(GlAfter(g, n, e))
  {
    assert GlAfter(g, n, e).Live() == g.Live();
  }

  lemma QuietTidy(s: Scene, e: Event)
    requires Inv(s) && Tidy(s.gl) && Allowed(s, e) && !Cascades(e) && Careful(s, e)
    ensures Tidy(GlAfter(s.gl, s.next, e))
  {
    hide Tidy, Sound, Structured, Known, Hierarchy, Shown;
    if e.Create? {
      MadeTidy(s.gl, s.next, e.creation);
    } else if e.Destroy? {
      WithoutTidy(s.gl, e.id);
    } else if e.OnProgram? {
      ProgramTidy(s.gl, e.id, e.programRequest);
    } else if e.OnVertexArray? {
      ArrayTidy(s.gl, e.id, e.arrayRequest);
    } else if e.OnTechnique? {
      TechniqueTidy(s.gl, e.id, e.techniqueRequest);
    } else if !e.AttachApp? {
      DataTidy(s.gl, s.next, e);
    }
  }

  // ---- cascades -----------------------------------------------------------------------

  lemma TechniqueCommitTidy(t: Q.Technique, live: Q.Live)
    requires Q.AllLive(t.pending, live) && Q.AllLive(t.current, live) && Q.NoStalePoints(t)
    ensures Q.AllLive(t.Commit(live).pending, live) && Q.AllLive(t.Commit(live).current, live)
    ensures Q.NoStalePoints(t.Commit(live))
  {
    Q.CommitKeepsPoints(t, live);
  }

  lemma ProgramCommitTidy(p: P.Program, shaders: set<Id>)
    requires P.Elements(p.pending.shaders) <= shaders && P.Elements(p.current.shaders) <= shaders
    requires p.Ordered() && p.RemoteSound()
    ensures var q := p.Commit();
            && P.Elements(q.pending.shaders) <= shaders && P.Elements(q.current.shaders) <= shaders
            && q.Ordered() && q.RemoteSound()
  {
    assert P.Elements(p.current.shaders + p.pending.shaders) ==
      P.Elements(p.current.shaders) + P.Elements(p.pending.shaders);
    assert p.pending.shaders == [] ==> p.current.shaders + p.pending.shaders == p.current.shaders;
  }

  lemma ProgramSyncTidy(p: P.Program, force: bool, shaders: set<Id>)
    requires P.Elements(p.pending.shaders) <= shaders && P.Elements(p.current.shaders) <= shaders
    requires p.Ordered() && p.RemoteSound()
    ensures var q := p.Sync(force, shaders);
            && P.Elements(q.pending.shaders) <= shaders && P.Elements(q.current.shaders) <= shaders
            && q.Ordered() && q.RemoteSound()
  {
    P.KeepLiveElements(p.current.shaders, shaders);
  }

  lemma CommitTidyTechniques(g: Gl, ts: set<Id>)
    requires TidyTechniques(g.techniques, g.Live())
    ensures TidyTechniques(CommitTechniques(g, ts).techniques, g.Live())
  {
    hide CommitReachAll, Q.AllLive, Q.NoStalePoints;
    forall t | t in g.techniques {
      TechniqueCommitTidy(g.techniques[t], g.Live());
    }
  }

  lemma CommitTidyPrograms(g: Gl, ts: set<Id>)
    requires TidyPrograms(g.programs, g.shaders.Keys)
    ensures TidyPrograms(CommitTechniques(g, ts).programs, g.shaders.Keys)
  {
    hide CommitReachAll;
    forall p | p in g.programs {
      ProgramCommitTidy(g.programs[p], g.shaders.Keys);
    }
  }

  lemma CommitTidy(g: Gl, ts: set<Id>)
    requires Tidy(g)
    ensures Tidy(CommitTechniques(g, ts))
  {
    hide CommitReachAll, TidyTechniques, TidyPrograms;
    assert CommitTechniques(g, ts).Live() == g.Live();
    CommitTidyTechniques(g, ts);
    CommitTidyPrograms(g, ts);
  }

  lemma SyncTidyTechniques(g: Gl, ts: set<Id>, force: bool)
    requires TidyTechniques(g.techniques, g.Live())
    ensures TidyTechniques(SyncTechniques(g, ts, force).techniques, g.Live())
  {
    hide SyncReachAll, Q.AllLive, Q.NoStalePoints;
    forall t | t in g.techniques
      ensures Q.NoStalePoints(g.techniques[t].Sync(force, g.Live()))
      ensures g.techniques[t].Sync(force, g.Live()).current == g.techniques[t].current
      ensures g.techniques[t].Sync(force, g.Live()).pending == g.techniques[t].pending
    {
      Q.SyncKeepsPoints(g.techniques[t], force, g.Live());
    }
  }

  lemma SyncTidyPrograms(g: Gl, ts: set<Id>, force: bool)
    requires TidyPrograms(g.programs, g.shaders.Keys)
    ensures TidyPrograms(SyncTechniques(g, ts, force).programs, g.shaders.Keys)
  {
    hide SyncReachAll;
    forall p | p in g.programs {
      ProgramSyncTidy(g.programs[p], force, g.shaders.Keys);
    }
  }

  lemma SyncTidy(g: Gl, ts: set<Id>, force: bool)
    requires Tidy(g)
    ensures Tidy(SyncTechniques(g, ts, force))
  {
    hide SyncReachAll, TidyTechniques, TidyPrograms;
    assert SyncTechniques(g, ts, force).Live() == g.Live();
    assert SyncTechniques(g, ts, force).shaders.Keys == g.shaders.Keys;
    SyncTidyTechniques(g, ts, force);
    SyncTidyPrograms(g, ts, force);
  }

  lemma DropTidy(g: Gl)
    requires Tidy(g)
    ensures Tidy(DropCopies(g))
  {
    hide Q.AllLive;
    var d := DropCopies(g);
    assert d.Live() == g.Live();
    forall t | t in g.techniques
      ensures Q.NoStalePoints(d.techniques[t])
    {
      assert Q.NoStalePoints(g.techniques[t]);
    }
    assert TidyArrays(d.arrays, d.buffers.Keys);
  }

  lemma CommitEventTidy(s: Scene, v: Id)
    requires Structured(s) && v in s.objects && s.objects[v].app.Some? && Tidy(s.gl)
    ensures Tidy(Commit(s, v).gl)
  {
    CommitParts(s, v);
    CommitTidy(s.gl, TechniquesOf(s, {v}));
    SyncTidy(CommitTechniques(s.gl, TechniquesOf(s, {v})), TechniquesOf(s, {v}), false);
  }

  lemma StepTidy(s: Scene, e: Event)
    requires Inv(s) && Tidy(s.gl) && Allowed(s, e) && Careful(s, e)
    ensures Tidy(Step(s, e).gl)
  {
    hide Tidy, Commit, SessionUp, Sound, Known, Hierarchy, Shown, QuietStep;
    if e.CommitRequest? {
      CommitEventTidy(s, e.id);
    } else if e.MoveApp? {
      MovedTidy(s, e.id, e.polar, e.azimuthal);
      CommitEventTidy(Moved(s, e.id, e.polar, e.azimuthal), e.id);
    } else if e.SessionEstablished? {
      UpTidy(s);
    } else if e.SessionLost? {
      DropTidy(s.gl);
    } else if e.DestroyOwner? {
      UprootTidy(s, e.id);
    } else {
      QuietTidy(s, e);
      QuietGraphics(s, e);
    }
  }

  lemma UprootTidy(s: Scene, i: Id)
    requires Tidy(s.gl)
    ensures Tidy(Uprooted(s, i).gl)
  {
    assert Uprooted(s, i).gl.Live() == s.gl.Live();
  }

  lemma MovedTidy(s: Scene, v: Id, polar: real, azimuthal: real)
    requires Structured(s) && Tidy(s.gl) && v in s.objects && s.objects[v].app.Some?
    ensures Structured(Moved(s, v, polar, azimuthal)) && Tidy(Moved(s, v, polar, azimuthal).gl)
  {
  }

  lemma UpTidy(s: Scene)
    requires Structured(s) && Tidy(s.gl)
    ensures Tidy(SessionUp(s).gl)
  {
    if !s.session {
      UpParts(s);
      SyncTidy(s.gl, CommittedOf(s, CommittedObjects(s)), true);
    }
  }

  lemma {:induction false} RunTidy(es: seq<Event>)
    requires Possible(es) && CarefulRun(es)
    ensures Tidy(Run(es).gl)
  {
    if es != [] {
      RunKeeps(es[..|es| - 1]);
      RunTidy(es[..|es| - 1]);
      StepTidy(Run(es[..|es| - 1]), es[|es| - 1]);
    }
  }

  // ---- main result -----------------------------------------------------------------------

  lemma TidyTechniqueRecord(q: Q.Technique, live: Q.Live)
    requires q.WellFormed() && q.proxy.Some? && Q.Mirrored(q.Copy(), q.current, live)
    requires Q.AllLive(q.current, live) && Q.NoStalePoints(q)
    ensures Q.SameRecord(q.Copy(), q.(proxy := None).Sync(true, live).Copy())
  {
    Q.ExactRecord(q, live);
  }

  ghost predicate RecordAgrees(g: Gl, r: Gl, t: Id) {
    && t in g.techniques && t in r.techniques && g.techniques[t].proxy.Some? && r.techniques[t].proxy.Some?
    && Q.SameRecord(g.techniques[t].Copy(), r.techniques[t].Copy())
  }

  ghost predicate ArrayAgrees(g: Gl, r: Gl, a: Id) {
    a in g.arrays && a in r.arrays && g.arrays[a].proxy == r.arrays[a].proxy
  }

  // A resend links all the shaders; the renderer has linked them iff it has
  // linked at all.
  ghost predicate LinkAgrees(g: Gl, r: Gl, p: Id) {
    && p in g.programs && p in r.programs && g.programs[p].proxy.Some? && r.programs[p].proxy.Some?
    && r.programs[p].proxy.value.linked == Some(P.Elements(g.programs[p].current.shaders))
    && (g.programs[p].proxy.value.linked == r.programs[p].proxy.value.linked <==> Filled(g, ProgramLink(p)))
  }

  lemma TidyRecords(g: Gl, t: Id)
    requires Tidy(g) && OnShow(g, t)
    ensures RecordAgrees(g, Resent(g), t)
  {
    hide Settled, Resent;
    ResentTechnique(g, t);
    TidyTechniqueRecord(g.techniques[t], g.Live());
  }

  lemma TidyArrayRecord(g: Gl, t: Id, a: Id)
    requires Tidy(g) && OnShow(g, t) && g.techniques[t].current.vertexArray == Some(a)
    ensures ArrayAgrees(g, Resent(g), a)
  {
    hide Resent, TidyPrograms;
    ArrayResent(g, t, a);
    ArrayWhole(g.arrays[a], g.buffers.Keys);
  }

  lemma ArrayWhole(q: A.VertexArray, live: set<Id>)
    requires q.FlagSound() && q.Exact(live) && A.BuffersOf(q.current) <= live
    ensures q.(proxy := None).Sync(true, live).proxy == q.proxy
  {
    A.ExactWhole(q, live);
    A.ResendWhole(q, live);
  }

  lemma ProgramResent(g: Gl, t: Id, p: Id)
    requires t in CommittedTechniques(g) && g.techniques[t].current.program == Some(p) && p in g.programs
    ensures p in Resent(g).programs && Resent(g).programs[p] == g.programs[p].(proxy := None).Sync(true, g.shaders.Keys)
  {
    hide SyncReachAll;
    ResentReaches(g, t);
    assert p in SyncReach(DropCopies(g), DropCopies(g).techniques[t]).programs;
    assert DropCopies(g).shaders.Keys == g.shaders.Keys;
  }

  lemma TidyProgramRecordIff(g: Gl, t: Id, p: Id)
    requires Tidy(g) && OnShow(g, t) && g.techniques[t].current.program == Some(p) && p in g.programs
    requires g.programs[p].current.linked
    ensures LinkAgrees(g, Resent(g), p)
  {
    hide Resent, TidyTechniques, TidyArrays, Sound, SyncReachAll;
    ProgramResent(g, t, p);
    var q := g.programs[p];
    assert q.Clean();
    P.SyncLinksIff(q.(proxy := None), true, g.shaders.Keys);
  }

  // In every careful run the renderer's record of a technique on show, and of
  // its vertex array, is the one a reconnect would build; so is the linked
  // program's iff the run sent the link in this session.
  lemma CarefulRunsMirrorOutright(es: seq<Event>, t: Id)
    requires Possible(es) && CarefulRun(es) && Run(es).session
    requires t in Run(es).gl.techniques && Run(es).gl.techniques[t].committed
    ensures Reconnect(Run(es)).gl == Resent(Run(es).gl)
    ensures var g, r := Run(es).gl, Resent(Run(es).gl);
            var c := g.techniques[t].current;
            && RecordAgrees(g, r, t)
            && (c.vertexArray.Some? ==> ArrayAgrees(g, r, c.vertexArray.value))
            && (c.program.Some? && c.program.value in g.programs && g.programs[c.program.value].current.linked ==>
                  && LinkAgrees(g, r, c.program.value)
                  && (Filled(g, ProgramLink(c.program.value)) <==> SentSince(es, ProgramLink(c.program.value))))
  {
    hide RecordAgrees, ArrayAgrees, LinkAgrees, Tidy, OnShow, Inv, Resent, Reconnect;
    RunKeeps(es);
    RunTidy(es);
    LossKeeps(Run(es));
    assert Structured(SessionDown(Run(es))) by {
      assert Inv(SessionDown(Run(es)));
    }
    ReconnectResends(Run(es));
    var g := Run(es).gl;
    var c := g.techniques[t].current;
    InvShows(Run(es), t);
    TidyRecords(g, t);
    if c.vertexArray.Some? {
      TidyArrayRecord(g, t, c.vertexArray.value);
    }
    if c.program.Some? && c.program.value in g.programs && g.programs[c.program.value].current.linked {
      TidyProgramRecordIff(g, t, c.program.value);
      FilledIffSent(es, ProgramLink(c.program.value));
    }
  }
}

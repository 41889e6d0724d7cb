// Commits, sessions and losses keep the invariant: what a commit touches the
// sync after it reaches, and a forced sync repairs every lost flag.
module SceneCascade {
  import opened Common
  import opened Scenes
  import opened SceneInvariant
  import U = Uniforms
  import S = Samplers
  import P = Programs
  import A = VertexArrays
  import TB = TextureBindings
  import Q = Techniques

  // ---- soundness of flags ---------------------------------------------------------

  lemma CommitSoundTechniques(g: Gl, ts: set<Id>)
    requires SoundTechniques(g.techniques)
    ensures SoundTechniques(CommitTechniques(g, ts).techniques)
  {
    hide CommitReachAll;
    forall i | i in g.techniques
      ensures g.techniques[i].Commit(g.Live()).WellFormed()
    {
      Q.CommitWellFormed(g.techniques[i], g.Live());
    }
  }

  lemma CommitSound(g: Gl, ts: set<Id>)
    requires Sound(g)
    ensures Sound(CommitTechniques(g, ts))
  {
    hide CommitReachAll, SoundTechniques, SoundArrays;
    CommitSoundTechniques(g, ts);
    CommitSoundArrays(g, ts);
    forall i | i in g.samplers {
      S.SyncExact(g.samplers[i], false);
    }
  }

  lemma CommitSoundArrays(g: Gl, ts: set<Id>)
    requires SoundArrays(g.arrays)
    ensures SoundArrays(CommitTechniques(g, ts).arrays)
  {
    hide CommitReachAll;
  }

  lemma SyncSoundTechniques(g: Gl, ts: set<Id>, force: bool)
    requires SoundTechniques(g.techniques)
    ensures SoundTechniques(SyncTechniques(g, ts, force).techniques)
  {
    hide SyncReachAll;
    forall i | i in g.techniques
      ensures g.techniques[i].Sync(force, g.Live()).WellFormed()
    {
      Q.SyncWellFormed(g.techniques[i], force, g.Live());
    }
  }

  lemma SyncSoundSamplers(g: Gl, ts: set<Id>, force: bool)
    requires SoundSamplers(g.samplers)
    ensures SoundSamplers(SyncTechniques(g, ts, force).samplers)
  {
    hide SyncReachAll;
    forall i | i in g.samplers
      ensures g.samplers[i].Sync(force).FlagSound()
    {
      S.SyncExact(g.samplers[i], force);
    }
  }

  lemma SyncSoundArrays(g: Gl, ts: set<Id>, force: bool)
    requires SoundArrays(g.arrays)
    ensures SoundArrays(SyncTechniques(g, ts, force).arrays)
  {
    hide SyncReachAll;
    forall i | i in g.arrays
      ensures g.arrays[i].Sync(force, g.buffers.Keys).FlagSound()
    {
      A.SyncKeepsFlags(g.arrays[i], force, g.buffers.Keys);
    }
  }

  lemma SyncSound(g: Gl, ts: set<Id>, force: bool)
    requires Sound(g)
    ensures Sound(SyncTechniques(g, ts, force))
  {
    hide SyncReachAll, SoundTechniques, SoundSamplers, SoundArrays;
    SyncSoundTechniques(g, ts, force);
    SyncSoundSamplers(g, ts, force);
    SyncSoundArrays(g, ts, force);
  }

  // ---- ids ----------------------------------------------------------------------------

  lemma CommitBelow(t: Q.Technique, live: Q.Live, n: Id)
    requires BoundBelow(t.pending, n) && BoundBelow(t.current, n)
    ensures BoundBelow(t.Commit(live).pending, n) && BoundBelow(t.Commit(live).current, n)
  {
    TB.KeepLiveElements(t.pending.textures.list, live.textures, live.samplers);
    TB.KeepLiveElements(t.current.textures.list, live.textures, live.samplers);
  }

  lemma SyncBelow(t: Q.Technique, force: bool, live: Q.Live, n: Id)
    requires BoundBelow(t.current, n)
    ensures BoundBelow(t.Sync(force, live).current, n)
  {
    TB.KeepLiveElements(t.current.textures.list, live.textures, live.samplers);
  }

  lemma CommitKnownTechniques(g: Gl, ts: set<Id>, n: Id)
    requires TechniquesBelow(g.techniques, n)
    ensures TechniquesBelow(CommitTechniques(g, ts).techniques, n)
  {
    hide CommitReachAll, BoundBelow;
    forall t | t in g.techniques
      ensures BoundBelow(g.techniques[t].Commit(g.Live()).pending, n)
      ensures BoundBelow(g.techniques[t].Commit(g.Live()).current, n)
    {
      CommitBelow(g.techniques[t], g.Live(), n);
    }
  }

  lemma CommitKnownPrograms(g: Gl, ts: set<Id>, n: Id)
    requires ProgramsBelow(g.programs, n)
    ensures ProgramsBelow(CommitTechniques(g, ts).programs, n)
  {
    hide CommitReachAll;
    forall p | p in g.programs {
      ProgramCommitBelow(g.programs[p], n);
    }
  }

  lemma CommitKnown(g: Gl, ts: set<Id>, n: Id)
    requires KnownGl(g, n)
    ensures KnownGl(CommitTechniques(g, ts), n)
  {
    hide CommitReachAll, TechniquesBelow, ProgramsBelow;
    CommitKnownTechniques(g, ts, n);
    CommitKnownPrograms(g, ts, n);
  }

  lemma ProgramCommitBelow(p: P.Program, n: Id)
    requires Below(P.Elements(p.pending.shaders), n) && Below(P.Elements(p.current.shaders), n)
    ensures Below(P.Elements(p.Commit().pending.shaders), n) && Below(P.Elements(p.Commit().current.shaders), n)
  {
    assert P.Elements(p.current.shaders + p.pending.shaders) ==
      P.Elements(p.current.shaders) + P.Elements(p.pending.shaders);
  }

  lemma SyncKnownTechniques(g: Gl, ts: set<Id>, force: bool, n: Id)
    requires TechniquesBelow(g.techniques, n)
    ensures TechniquesBelow(SyncTechniques(g, ts, force).techniques, n)
  {
    hide SyncReachAll, BoundBelow;
    forall t | t in g.techniques
      ensures BoundBelow(g.techniques[t].Sync(force, g.Live()).current, n)
    {
      SyncBelow(g.techniques[t], force, g.Live(), n);
    }
  }

  lemma SyncKnownPrograms(g: Gl, ts: set<Id>, force: bool, n: Id)
    requires ProgramsBelow(g.programs, n)
    ensures ProgramsBelow(SyncTechniques(g, ts, force).programs, n)
  {
    hide SyncReachAll;
    forall p | p in g.programs
      ensures Below(P.Elements(g.programs[p].Sync(force, g.shaders.Keys).current.shaders), n)
    {
      P.KeepLiveElements(g.programs[p].current.shaders, g.shaders.Keys);
    }
  }

  lemma SyncKnown(g: Gl, ts: set<Id>, force: bool, n: Id)
    requires KnownGl(g, n)
    ensures KnownGl(SyncTechniques(g, ts, force), n)
  {
    hide SyncReachAll, TechniquesBelow, ProgramsBelow;
    SyncKnownTechniques(g, ts, force, n);
    SyncKnownPrograms(g, ts, force, n);
  }

  // ---- settling -----------------------------------------------------------------------

  // Whatever `c` shows is reached by the sync or was settled before it.
  ghost predicate Covered(g: Gl, r: Reach, c: Q.Bound) {
    && ArrayCovered(g, r, c.vertexArray)
    && BuffersCovered(g, r, c.draw.data.BufferSet())
    && ProgramCovered(g, r, c.program)
    && TexturesCovered(g, r, c.textures.list)
  }

  ghost predicate BuffersCovered(g: Gl, r: Reach, ids: set<Id>) {
    forall i :: i in ids && i in g.buffers ==> i in r.buffers || g.buffers[i].Clean()
  }

  ghost predicate ArrayCovered(g: Gl, r: Reach, a: Option<Id>) {
    a.Some? && a.value in g.arrays ==>
      && (a.value in r.arrays || g.arrays[a.value].Exact(g.buffers.Keys))
      && BuffersCovered(g, r, A.BuffersOf(g.arrays[a.value].current))
  }

  ghost predicate ProgramCovered(g: Gl, r: Reach, p: Option<Id>) {
    p.Some? && p.value in g.programs ==>
      && (p.value in r.programs || g.programs[p.value].Clean())
      && forall h :: h in g.programs[p.value].current.shaders && h in g.shaders ==> h in r.shaders || g.shaders[h].proxy
  }

  ghost predicate TexturesCovered(g: Gl, r: Reach, list: seq<TB.Binding>) {
    forall b :: b in list && b.texture in g.textures && b.sampler in g.samplers ==>
      && (b.texture in r.textures || g.textures[b.texture].Clean())
      && (b.sampler in r.samplers || g.samplers[b.sampler].Exact())
  }

  lemma BuffersCoveredSettle(g: Gl, ts: set<Id>, force: bool, ids: set<Id>)
    requires BuffersCovered(g, SyncReachAll(g, ts), ids)
    ensures BuffersSettled(SyncTechniques(g, ts, force), ids)
  {
    hide SyncReachAll;
  }

  lemma ArrayCoveredSettles(g: Gl, ts: set<Id>, force: bool, a: Id)
    requires SoundArrays(g.arrays) && a in g.arrays && ArrayCovered(g, SyncReachAll(g, ts), Some(a))
    ensures ArraySettled(SyncTechniques(g, ts, force), Some(a))
  {
    hide SyncReachAll, BuffersCovered, BuffersSettled;
    var r, g' := SyncReachAll(g, ts), SyncTechniques(g, ts, force);
    A.SyncExact(g.arrays[a], force, g.buffers.Keys);
    assert g'.buffers.Keys == g.buffers.Keys;
    assert g'.arrays[a] == if a in r.arrays then g.arrays[a].Sync(force, g.buffers.Keys) else g.arrays[a];
    BuffersCoveredSettle(g, ts, force, A.BuffersOf(g.arrays[a].current));
  }

  lemma ProgramCoveredSettles(g: Gl, ts: set<Id>, force: bool, p: Id)
    requires p in g.programs && ProgramCovered(g, SyncReachAll(g, ts), Some(p))
    ensures ProgramSettled(SyncTechniques(g, ts, force), Some(p))
  {
    hide SyncReachAll;
    var g' := SyncTechniques(g, ts, force);
    var list := g.programs[p].current.shaders;
    P.KeepLiveElements(list, g.shaders.Keys);
    forall h | h in g'.programs[p].current.shaders && h in g.shaders
      ensures g'.shaders[h].proxy
    {
      assert h in P.Elements(g'.programs[p].current.shaders);
      assert h in P.Elements(list);
    }
  }

  lemma TexturesCoveredSettle(g: Gl, ts: set<Id>, force: bool, list: seq<TB.Binding>)
    requires SoundSamplers(g.samplers) && TexturesCovered(g, SyncReachAll(g, ts), list)
    ensures TexturesSettled(SyncTechniques(g, ts, force), list)
  {
    hide SyncReachAll;
    forall b | b in list && b.texture in g.textures && b.sampler in g.samplers
      ensures SyncTechniques(g, ts, force).samplers[b.sampler].Exact()
    {
      S.SyncExact(g.samplers[b.sampler], force);
    }
  }

  lemma ArraySlotSettles(g: Gl, ts: set<Id>, force: bool, slot: Option<Id>)
    requires SoundArrays(g.arrays) && ArrayCovered(g, SyncReachAll(g, ts), slot)
    ensures ArraySettled(SyncTechniques(g, ts, force), slot)
  {
    hide SyncReachAll;
    if slot.Some? && slot.value in g.arrays {
      ArrayCoveredSettles(g, ts, force, slot.value);
    }
  }

  lemma ProgramSlotSettles(g: Gl, ts: set<Id>, force: bool, slot: Option<Id>)
    requires ProgramCovered(g, SyncReachAll(g, ts), slot)
    ensures ProgramSettled(SyncTechniques(g, ts, force), slot)
  {
    hide SyncReachAll;
    if slot.Some? && slot.value in g.programs {
      ProgramCoveredSettles(g, ts, force, slot.value);
    }
  }

  lemma CoveredSettles(g: Gl, ts: set<Id>, force: bool, c: Q.Bound)
    requires Sound(g) && Covered(g, SyncReachAll(g, ts), c)
    ensures Settled(SyncTechniques(g, ts, force), c)
  {
    hide SyncTechniques, SyncReachAll, ArrayCovered, ArraySettled, ProgramCovered, ProgramSettled;
    hide TexturesCovered, TexturesSettled, BuffersCovered, BuffersSettled;
    ArraySlotSettles(g, ts, force, c.vertexArray);
    ProgramSlotSettles(g, ts, force, c.program);
    TexturesCoveredSettle(g, ts, force, c.textures.list);
    BuffersCoveredSettle(g, ts, force, c.draw.data.BufferSet());
  }

  lemma ReachPart(g: Gl, ts: set<Id>, t: Id)
    requires t in ts && t in g.techniques
    ensures var r, all := SyncReach(g, g.techniques[t]), SyncReachAll(g, ts);
            && r.buffers <= all.buffers && r.textures <= all.textures && r.samplers <= all.samplers
            && r.shaders <= all.shaders && r.programs <= all.programs && r.arrays <= all.arrays
  {
    assert SyncReaches(g, ts)[t] == SyncReach(g, g.techniques[t]);
  }

  lemma ReachIsCovered(g: Gl, r: Reach, t: Q.Technique)
    requires var q := SyncReach(g, t);
             && q.buffers <= r.buffers && q.textures <= r.textures && q.samplers <= r.samplers
             && q.shaders <= r.shaders && q.programs <= r.programs && q.arrays <= r.arrays
    ensures var c := t.current;
            Covered(g, r, c.(textures := TB.SyncCurrent(c.textures, g.textures.Keys, g.samplers.Keys)))
  {
    var c, q := t.current, SyncReach(g, t);
    var list := TB.KeepLive(c.textures.list, g.textures.Keys, g.samplers.Keys);
    assert forall b :: b in list ==> b.texture in q.textures && b.sampler in q.samplers;
    if c.program.Some? && c.program.value in g.programs {
      assert forall h :: h in g.programs[c.program.value].current.shaders && h in g.shaders ==> h in q.shaders;
    }
  }

  // A technique that is sent is covered by what it reaches.
  lemma SentIsCovered(g: Gl, ts: set<Id>, t: Id)
    requires t in ts && t in g.techniques
    ensures var c := g.techniques[t].current;
            Covered(g, SyncReachAll(g, ts),
                c.(textures := TB.SyncCurrent(c.textures, g.textures.Keys, g.samplers.Keys)))
  {
    hide SyncReachAll, SyncReach, Covered;
    ReachPart(g, ts, t);
    ReachIsCovered(g, SyncReachAll(g, ts), g.techniques[t]);
  }

  // A sync settles every technique it sends.
  lemma SyncSettles(g: Gl, ts: set<Id>, force: bool, t: Id)
    requires Sound(g) && t in ts && t in g.techniques
    ensures var g' := SyncTechniques(g, ts, force); Settled(g', g'.techniques[t].current)
  {
    var c := g.techniques[t].current;
    SentIsCovered(g, ts, t);
    CoveredSettles(g, ts, force, c.(textures := TB.SyncCurrent(c.textures, g.textures.Keys, g.samplers.Keys)));
  }

  // ---- what a commit touches, the sync after it reaches ------------------------------

  lemma CommitReachPart(g: Gl, ts: set<Id>, t: Id)
    requires t in ts && t in g.techniques
    ensures var g1 := CommitTechniques(g, ts);
            var r, q := CommitReach(g, g.techniques[t]), SyncReach(g1, g1.techniques[t]);
            && r.buffers * g.buffers.Keys <= q.buffers
            && r.textures <= q.textures && r.samplers <= q.samplers
            && r.programs <= q.programs && r.arrays <= q.arrays
  {
    var g1 := CommitTechniques(g, ts);
    var c := g.techniques[t].CommittedCurrent(g.Live());
    assert g1.techniques[t].current == c;
    assert g1.Live() == g.Live();
    TB.KeepLiveElements(g.techniques[t].pending.textures.list, g.textures.Keys, g.samplers.Keys);
    TB.KeepLiveElements(g.techniques[t].current.textures.list, g.textures.Keys, g.samplers.Keys);
    TB.KeepLiveAll(c.textures.list, g.textures.Keys, g.samplers.Keys);
    if c.vertexArray.Some? && c.vertexArray.value in g.arrays {
      var a := c.vertexArray.value;
      assert a in CommitReach(g, g.techniques[t]).arrays;
      assert CommitReaches(g, ts)[t] == CommitReach(g, g.techniques[t]);
      assert a in CommitReachAll(g, ts).arrays;
      assert g1.arrays[a].current == g.arrays[a].pending;
    }
  }

  lemma CommitWithinSync(g: Gl, ts: set<Id>)
    ensures var r, q := CommitReachAll(g, ts), SyncReachAll(CommitTechniques(g, ts), ts);
            && r.buffers * g.buffers.Keys <= q.buffers && r.textures <= q.textures && r.samplers <= q.samplers
            && r.programs <= q.programs && r.arrays <= q.arrays
  {
    var g1 := CommitTechniques(g, ts);
    forall t | t in ts && t in g.techniques
      ensures var r, q := CommitReach(g, g.techniques[t]), SyncReachAll(g1, ts);
              && r.buffers * g.buffers.Keys <= q.buffers && r.textures <= q.textures && r.samplers <= q.samplers
              && r.programs <= q.programs && r.arrays <= q.arrays
    {
      CommitReachPart(g, ts, t);
      ReachPart(g1, ts, t);
    }
  }

  lemma CommitCoversBuffers(g: Gl, ts: set<Id>, ids: set<Id>)
    requires BuffersSettled(g, ids)
    ensures var g1 := CommitTechniques(g, ts); BuffersCovered(g1, SyncReachAll(g1, ts), ids)
  {
    CommitWithinSync(g, ts);
  }

  lemma CommitCoversArray(g: Gl, ts: set<Id>, a: Id)
    requires a in g.arrays && ArraySettled(g, Some(a))
    ensures var g1 := CommitTechniques(g, ts); ArrayCovered(g1, SyncReachAll(g1, ts), Some(a))
  {
    var g1 := CommitTechniques(g, ts);
    if a in CommitReachAll(g, ts).arrays {
      var t :| t in ts && t in g.techniques && a in CommitReach(g, g.techniques[t]).arrays;
      CommitReachPart(g, ts, t);
      ReachPart(g1, ts, t);
      assert g1.techniques[t].current.vertexArray == Some(a);
    } else {
      CommitCoversBuffers(g, ts, A.BuffersOf(g.arrays[a].current));
      assert g1.arrays[a] == g.arrays[a];
    }
  }

  lemma CommitCoversProgram(g: Gl, ts: set<Id>, p: Id)
    requires p in g.programs && ProgramSettled(g, Some(p))
    ensures var g1 := CommitTechniques(g, ts); ProgramCovered(g1, SyncReachAll(g1, ts), Some(p))
  {
    var g1 := CommitTechniques(g, ts);
    if p in CommitReachAll(g, ts).programs {
      var t :| t in ts && t in g.techniques && p in CommitReach(g, g.techniques[t]).programs;
      CommitReachPart(g, ts, t);
      ReachPart(g1, ts, t);
      assert g1.techniques[t].current.program == Some(p);
      assert forall h :: h in g1.programs[p].current.shaders && h in g1.shaders ==>
        h in SyncReach(g1, g1.techniques[t]).shaders;
    } else {
      assert g1.programs[p] == g.programs[p];
    }
  }

  lemma CommitCoversTextures(g: Gl, ts: set<Id>, list: seq<TB.Binding>)
    requires TexturesSettled(g, list)
    ensures var g1 := CommitTechniques(g, ts); TexturesCovered(g1, SyncReachAll(g1, ts), list)
  {
    CommitWithinSync(g, ts);
  }

  // Objects shared with a technique outside the commit stay covered: what the
  // commit disturbs, the sync reaches.
  lemma CommitCovers(g: Gl, ts: set<Id>, c: Q.Bound)
    requires Settled(g, c)
    ensures var g1 := CommitTechniques(g, ts); Covered(g1, SyncReachAll(g1, ts), c)
  {
    CommitCoversBuffers(g, ts, c.draw.data.BufferSet());
    if c.vertexArray.Some? && c.vertexArray.value in g.arrays {
      CommitCoversArray(g, ts, c.vertexArray.value);
    }
    if c.program.Some? && c.program.value in g.programs {
      CommitCoversProgram(g, ts, c.program.value);
    }
    CommitCoversTextures(g, ts, c.textures.list);
  }

  // ---- a commit ---------------------------------------------------------------------------

  // The techniques as a commit and the sync after it leave them.
  lemma CommitMirrors(g: Gl, ts: set<Id>, t: Id)
    requires Sound(g) && t in g.techniques && (t in ts ==> g.techniques[t].DisplacesNone())
    requires Q.Mirrored(g.techniques[t].Copy(), g.techniques[t].current, g.Live())
    ensures var g1 := CommitTechniques(g, ts);
            var g2 := SyncTechniques(g1, ts, false);
            && Q.Mirrored(g2.techniques[t].Copy(), g2.techniques[t].current, g2.Live())
            && (t in ts ==> g2.techniques[t].proxy.Some?)
  {
    var g1 := CommitTechniques(g, ts);
    assert g1.Live() == g.Live();
    assert SyncTechniques(g1, ts, false).Live() == g.Live();
    if t in ts {
      Q.CommitMirrorsIff(g.techniques[t], g.Live());
    }
  }

  lemma CommitSettles(g: Gl, ts: set<Id>, t: Id)
    requires Sound(g) && t in g.techniques
    requires t !in ts ==> Settled(g, g.techniques[t].current)
    ensures var g1 := CommitTechniques(g, ts);
            var g2 := SyncTechniques(g1, ts, false);
            Settled(g2, g2.techniques[t].current)
  {
    var g1 := CommitTechniques(g, ts);
    CommitSound(g, ts);
    if t in ts {
      SyncSettles(g1, ts, false, t);
    } else {
      CommitCovers(g, ts, g.techniques[t].current);
      CoveredSettles(g1, ts, false, g.techniques[t].current);
    }
  }

  // ---- the commit event -------------------------------------------------------------------

  // Only the object about to commit may be shown where it no longer is.
  ghost predicate ShownBut(s: Scene, v: Id) {
    s.session ==>
      && ShownGl(s.gl)
      && (forall u :: u in s.units && s.units[u].committed ==> s.units[u].proxy)
      && (forall w :: w in s.objects && s.objects[w].committed && w != v ==> s.objects[w].proxy == s.objects[w].app)
  }

  ghost predicate Ready(s: Scene, v: Id) {
    && Structured(s) && Known(s) && Sound(s.gl) && Hierarchy(s) && ShownBut(s, v)
    && CommitAllowed(s, v)
  }

  // The scene after a commit: the committed techniques, then sent if there is
  // a session to send them in.
  lemma CommitParts(s: Scene, v: Id)
    requires Structured(s) && v in s.objects && s.objects[v].app.Some?
    ensures var ts, g1 := TechniquesOf(s, {v}), CommitTechniques(s.gl, TechniquesOf(s, {v}));
            var units1, objects1 := CommitUnits(s.units, v), s.objects[v := s.objects[v].(committed := true)];
            Commit(s, v) ==
            if s.session then
              Scene(true, s.next, SyncTechniques(g1, ts, false), SyncUnits(units1, {v}), SyncOwners(objects1, {v}))
            else Scene(false, s.next, g1, units1, objects1)
  {
    var s1 := CommitObject(s, v);
    assert WithApp(s1, {v}) == {v};
    assert TechniquesOf(s1, {v}) == TechniquesOf(s, {v});
    assert CommittedOf(s1, {v}) == TechniquesOf(s, {v});
  }

  lemma CommitTree(s: Scene, v: Id)
    requires Structured(s) && v in s.objects && s.objects[v].app.Some?
    ensures Structured(Commit(s, v))
  {
    hide CommitTechniques, SyncTechniques, Tree;
    CommitParts(s, v);
    var ts := TechniquesOf(s, {v});
    var g1 := CommitTechniques(s.gl, ts);
    var units1, objects1 := CommitUnits(s.units, v), s.objects[v := s.objects[v].(committed := true)];
    CommitTreeOnly(s, v);
    SyncTree(g1, ts, false, units1, objects1, {v});
  }

  lemma SyncTree(
    g: Gl, ts: set<Id>, force: bool, units: map<Id, RenderingUnit>, objects: map<Id, VirtualObject>, vs: set<Id>)
    requires Tree(g.techniques, units, objects)
    ensures Tree(SyncTechniques(g, ts, force).techniques, SyncUnits(units, vs), SyncOwners(objects, vs))
  {
    hide SyncReachAll;
  }

  lemma CommitShowsGl(g: Gl, ts: set<Id>)
    requires Sound(g) && ShownGl(g)
    requires forall t :: t in ts && t in g.techniques ==> g.techniques[t].DisplacesNone()
    ensures ShownGl(SyncTechniques(CommitTechniques(g, ts), ts, false))
  {
    var g2 := SyncTechniques(CommitTechniques(g, ts), ts, false);
    forall t | t in g2.techniques
      ensures Q.Mirrored(g2.techniques[t].Copy(), g2.techniques[t].current, g2.Live())
      ensures g2.techniques[t].committed ==> g2.techniques[t].proxy.Some? && Settled(g2, g2.techniques[t].current)
    {
      CommitMirrors(g, ts, t);
      if g2.techniques[t].committed {
        CommitSettles(g, ts, t);
      }
    }
  }

  lemma CommitNoCopies(g: Gl, ts: set<Id>)
    requires NoCopies(g)
    ensures NoCopies(CommitTechniques(g, ts))
  {
    hide CommitReachAll;
  }

  // Copies that a sync makes are made from the top down.
  lemma SyncNests(
    before: map<Id, Q.Technique>, after: map<Id, Q.Technique>, units: map<Id, RenderingUnit>,
    objects: map<Id, VirtualObject>, vs: set<Id>)
    requires Tree(before, units, objects) && Nested(before, units, objects)
    requires Tree(after, SyncUnits(units, vs), SyncOwners(objects, vs))
    requires forall t :: t in after && after[t].proxy.Some? ==>
               && t in before && after[t].unit == before[t].unit
               && (before[t].proxy.Some? || (units[before[t].unit].committed && units[before[t].unit].owner in vs))
    requires forall v :: v in vs && v in objects ==> objects[v].app.Some?
    ensures Nested(after, SyncUnits(units, vs), SyncOwners(objects, vs))
  {
  }

  lemma CommitNests(s: Scene, v: Id)
    requires Ready(s, v) && s.session && Structured(Commit(s, v))
    ensures Nested(Commit(s, v).gl.techniques, Commit(s, v).units, Commit(s, v).objects)
  {
    hide CommitReachAll, SyncReachAll, Nested, Known, Sound, ShownBut;
    CommitParts(s, v);
    var g1 := CommitTechniques(s.gl, TechniquesOf(s, {v}));
    var units1, objects1 := CommitUnits(s.units, v), s.objects[v := s.objects[v].(committed := true)];
    CommitTreeOnly(s, v);
    CommitNestsOnly(s, v);
    SyncNests(g1.techniques, Commit(s, v).gl.techniques, units1, objects1, {v});
  }

  lemma CommitNestsOnly(s: Scene, v: Id)
    requires Structured(s) && v in s.objects && s.objects[v].app.Some?
    requires Nested(s.gl.techniques, s.units, s.objects)
    ensures var units1, objects1 := CommitUnits(s.units, v), s.objects[v := s.objects[v].(committed := true)];
            var techniques1 := CommitTechniques(s.gl, TechniquesOf(s, {v})).techniques;
            Tree(techniques1, units1, objects1) && Nested(techniques1, units1, objects1)
  {
    hide CommitReachAll;
    CommitTreeOnly(s, v);
  }

  lemma CommitTreeOnly(s: Scene, v: Id)
    requires Structured(s) && v in s.objects && s.objects[v].app.Some?
    ensures Tree(CommitTechniques(s.gl, TechniquesOf(s, {v})).techniques, CommitUnits(s.units, v),
                 s.objects[v := s.objects[v].(committed := true)])
  {
    hide CommitReachAll;
  }

  lemma CommitHierarchy(s: Scene, v: Id)
    requires Ready(s, v)
    ensures Structured(Commit(s, v)) && Hierarchy(Commit(s, v))
  {
    hide CommitTechniques, SyncTechniques, Nested, Tree, NoCopies, NoOwnerCopies, Known, Sound, ShownBut;
    CommitTree(s, v);
    CommitParts(s, v);
    CommitNoCopiesIf(s, v);
    if s.session {
      CommitNests(s, v);
    } else {
      CommitNestsOnly(s, v);
    }
  }

  lemma CommitNoCopiesIf(s: Scene, v: Id)
    requires Structured(s) && Hierarchy(s) && v in s.objects && s.objects[v].app.Some?
    ensures !s.session ==> NoCopies(Commit(s, v).gl) && NoOwnerCopies(Commit(s, v).units, Commit(s, v).objects)
  {
    CommitParts(s, v);
    if !s.session {
      CommitNoCopies(s.gl, TechniquesOf(s, {v}));
    }
  }

  lemma CommitShows(s: Scene, v: Id)
    requires Ready(s, v)
    ensures Shown(Commit(s, v))
  {
    CommitParts(s, v);
    if s.session {
      CommitShowsGl(s.gl, TechniquesOf(s, {v}));
    }
  }

  lemma CommitFlagsAndIds(s: Scene, v: Id)
    requires Ready(s, v)
    ensures Sound(Commit(s, v).gl) && Known(Commit(s, v))
  {
    hide CommitTechniques, SyncTechniques, Sound, KnownGl;
    CommitParts(s, v);
    var ts := TechniquesOf(s, {v});
    CommitSound(s.gl, ts);
    CommitKnown(s.gl, ts, s.next);
    if s.session {
      SyncSound(CommitTechniques(s.gl, ts), ts, false);
      SyncKnown(CommitTechniques(s.gl, ts), ts, false, s.next);
    }
  }

  lemma CommitKeeps(s: Scene, v: Id)
    requires Ready(s, v)
    ensures Inv(Commit(s, v))
  {
    CommitHierarchy(s, v);
    CommitFlagsAndIds(s, v);
    CommitShows(s, v);
  }

  lemma InvIsReady(s: Scene, v: Id)
    requires Inv(s) && CommitAllowed(s, v)
    ensures Ready(s, v)
  {
  }

  lemma MoveReady(s: Scene, v: Id, polar: real, azimuthal: real)
    requires Inv(s) && CommitAllowed(s, v)
    ensures Ready(Moved(s, v, polar, azimuthal), v)
  {
    hide KnownGl, Sound, NoCopies, ShownGl;
    assert TechniquesOf(Moved(s, v, polar, azimuthal), {v}) == TechniquesOf(s, {v});
  }

  // ---- sessions ------------------------------------------------------------------------------

  lemma LossKnown(g: Gl, n: Id)
    requires KnownGl(g, n)
    ensures KnownGl(DropCopies(g), n)
  {
  }

  lemma LossSoundArrays(arrays: map<Id, A.VertexArray>)
    requires SoundArrays(arrays)
    ensures SoundArrays(map i | i in arrays :: arrays[i].(proxy := None))
  {
    forall i | i in arrays
      ensures arrays[i].(proxy := None).FlagSound()
    {
      assert arrays[i].FlagSound();
    }
  }

  lemma LossSound(g: Gl)
    requires Sound(g)
    ensures Sound(DropCopies(g))
  {
    LossSoundArrays(g.arrays);
    forall t | t in g.techniques
      ensures DropCopies(g).techniques[t].WellFormed()
    {
      assert g.techniques[t].WellFormed();
    }
  }

  lemma LossKeeps(s: Scene)
    requires Inv(s)
    ensures Inv(SessionDown(s)) && !SessionDown(s).session
  {
    LossKnown(s.gl, s.next);
    LossSound(s.gl);
    assert NoCopies(DropCopies(s.gl));
  }

  lemma EverythingIsShown(s: Scene)
    requires Structured(s)
    ensures WithApp(s, CommittedObjects(s)) == CommittedObjects(s)
    ensures forall t :: t in CommittedOf(s, CommittedObjects(s)) <==>
            t in s.gl.techniques && s.gl.techniques[t].committed
  {
  }

  lemma ForcedShowsGl(g: Gl, ts: set<Id>)
    requires Sound(g) && NoCopies(g)
    requires forall t :: t in ts <==> t in g.techniques && g.techniques[t].committed
    ensures ShownGl(SyncTechniques(g, ts, true))
  {
    var g' := SyncTechniques(g, ts, true);
    assert g'.Live() == g.Live();
    forall t | t in g.techniques
      ensures Q.Mirrored(g'.techniques[t].Copy(), g'.techniques[t].current, g'.Live())
      ensures g'.techniques[t].committed ==> g'.techniques[t].proxy.Some? && Settled(g', g'.techniques[t].current)
    {
      if t in ts {
        Q.ForcedSyncEstablishes(g.techniques[t], g.Live());
        SyncSettles(g, ts, true, t);
      } else {
        assert g.techniques[t].WellFormed();
        assert U.Mirrors([], []);
      }
    }
  }

  lemma UpParts(s: Scene)
    requires Structured(s) && !s.session
    ensures var ts, vs := CommittedOf(s, CommittedObjects(s)), CommittedObjects(s);
            SessionUp(s) ==
            Scene(true, s.next, SyncTechniques(s.gl, ts, true), SyncUnits(s.units, vs), SyncOwners(s.objects, vs))
  {
    var s1 := s.(session := true);
    EverythingIsShown(s1);
    assert CommittedObjects(s1) == CommittedObjects(s);
    assert TechniquesOf(s1, CommittedObjects(s)) == TechniquesOf(s, CommittedObjects(s));
  }

  lemma UpHierarchy(s: Scene)
    requires Structured(s) && Hierarchy(s) && !s.session
    ensures Structured(SessionUp(s)) && Hierarchy(SessionUp(s))
  {
    UpParts(s);
    EverythingIsShown(s);
    SyncTree(s.gl, CommittedOf(s, CommittedObjects(s)), true, s.units, s.objects, CommittedObjects(s));
  }

  lemma EstablishmentKeeps(s: Scene)
    requires Inv(s)
    ensures Inv(SessionUp(s))
  {
    if !s.session {
      var ts := CommittedOf(s, CommittedObjects(s));
      UpParts(s);
      UpHierarchy(s);
      EverythingIsShown(s);
      SyncSound(s.gl, ts, true);
      SyncKnown(s.gl, ts, true, s.next);
      ForcedShowsGl(s.gl, ts);
    }
  }

  // ---- every run --------------------------------------------------------------------------------

  lemma StepKeeps(s: Scene, e: Event)
    requires Inv(s) && Allowed(s, e)
    ensures Inv(Step(s, e))
  {
    hide Commit, Moved, SessionUp, SessionDown, QuietStep;
    if e.CommitRequest? {
      InvIsReady(s, e.id);
      CommitKeeps(s, e.id);
    } else if e.MoveApp? {
      MoveReady(s, e.id, e.polar, e.azimuthal);
      CommitKeeps(Moved(s, e.id, e.polar, e.azimuthal), e.id);
    } else if e.SessionEstablished? {
      EstablishmentKeeps(s);
    } else if e.SessionLost? {
      LossKeeps(s);
    } else if e.DestroyOwner? {
      UprootKeeps(s, e.id);
    } else {
      QuietStepKeeps(s, e);
    }
  }

  lemma {:induction false} RunKeeps(es: seq<Event>)
    requires Possible(es)
    ensures Inv(Run(es))
  {
    if es != [] {
      RunKeeps(es[..|es| - 1]);
      StepKeeps(Run(es[..|es| - 1]), es[|es| - 1]);
    }
  }
}

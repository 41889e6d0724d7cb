// The incremental scheme refines "forget everything and send the current
// state again": in every run, what is on the renderer is what a reconnect
// would put there.
module SceneMirror {
  import opened Common
  import opened Scenes
  import opened SceneInvariant
  import opened SceneCascade
  import opened SceneHistory
  import U = Uniforms
  import S = Samplers
  import A = VertexArrays
  import TB = TextureBindings
  import Q = Techniques

  // ---- a reconnect ---------------------------------------------------------------

  // Everything forgotten and every committed technique sent by force.
  ghost function Resent(g: Gl): Gl {
    SyncTechniques(DropCopies(g), CommittedTechniques(g), true)
  }

  lemma ReconnectResends(s: Scene)
    requires Structured(SessionDown(s))
    ensures Reconnect(s).session && Reconnect(s).gl == Resent(s.gl)
  {
    hide SyncTechniques, Structured;
    var d := SessionDown(s);
    UpParts(d);
    EverythingIsShown(d);
    assert CommittedOf(d, CommittedObjects(d)) == CommittedTechniques(s.gl);
  }

  // What is shown of one technique: its own flags and the state of its targets.
  ghost predicate OnShow(g: Gl, t: Id) {
    && Sound(g) && t in g.techniques && g.techniques[t].committed && g.techniques[t].proxy.Some?
    && Q.Mirrored(g.techniques[t].Copy(), g.techniques[t].current, g.Live())
    && Settled(g, g.techniques[t].current)
  }

  lemma ResentReaches(g: Gl, t: Id)
    requires t in CommittedTechniques(g)
    ensures var r, all := SyncReach(DropCopies(g), DropCopies(g).techniques[t]),
            SyncReachAll(DropCopies(g), CommittedTechniques(g));
            && r.buffers <= all.buffers && r.textures <= all.textures && r.samplers <= all.samplers
            && r.shaders <= all.shaders && r.programs <= all.programs && r.arrays <= all.arrays
  {
    ReachPart(DropCopies(g), CommittedTechniques(g), t);
  }

  lemma ResentTechnique(g: Gl, t: Id)
    requires t in CommittedTechniques(g)
    ensures t in Resent(g).techniques
    ensures Resent(g).techniques[t] == g.techniques[t].(proxy := None).Sync(true, g.Live())
  {
    hide SyncReachAll;
    assert DropCopies(g).Live() == g.Live();
  }

  lemma MirrorOfKept(r: Q.RemoteTechnique, c: Q.Bound, live: Q.Live)
    requires Q.Mirrored(r, c.(textures := TB.SyncCurrent(c.textures, live.textures, live.samplers)), live)
    ensures Q.Mirrored(r, c, live)
  {
    TB.KeepLiveElements(c.textures.list, live.textures, live.samplers);
  }

  // ---- the objects it shows -------------------------------------------------------

  lemma ShownBufferReached(g: Gl, t: Id, b: Id)
    requires t in CommittedTechniques(g) && ShowsBuffer(g, g.techniques[t].current, b)
    ensures b in SyncReachAll(DropCopies(g), CommittedTechniques(g)).buffers
  {
    hide SyncReachAll;
    ResentReaches(g, t);
    assert b in SyncReach(DropCopies(g), DropCopies(g).techniques[t]).buffers;
  }

  lemma ShownPairReached(g: Gl, t: Id, b: TB.Binding)
    requires t in CommittedTechniques(g) && ShowsPair(g, g.techniques[t].current, b)
    ensures b.texture in SyncReachAll(DropCopies(g), CommittedTechniques(g)).textures
    ensures b.sampler in SyncReachAll(DropCopies(g), CommittedTechniques(g)).samplers
  {
    hide SyncReachAll;
    ResentReaches(g, t);
    var list := g.techniques[t].current.textures.list;
    TB.KeepLiveElements(list, g.textures.Keys, g.samplers.Keys);
    assert DropCopies(g).textures.Keys == g.textures.Keys && DropCopies(g).samplers.Keys == g.samplers.Keys;
    assert b in TB.KeepLive(list, DropCopies(g).textures.Keys, DropCopies(g).samplers.Keys);
  }

  ghost predicate BufferAgrees(g: Gl, r: Gl, b: Id) {
    && b in g.buffers && b in r.buffers && r.buffers[b].Exact()
    && (g.buffers[b].proxy == r.buffers[b].proxy <==> Filled(g, BufferData(b)))
  }

  ghost predicate TextureAgrees(g: Gl, r: Gl, i: Id) {
    && i in g.textures && i in r.textures && g.textures[i].proxy.Some? && r.textures[i].Exact()
    && (g.textures[i].proxy.value.upload == r.textures[i].proxy.value.upload <==> Filled(g, TextureImage(i)))
    && (g.textures[i].proxy.value.mipmap == r.textures[i].proxy.value.mipmap <==> Filled(g, TextureMipmap(i)))
  }

  ghost predicate SamplerAgrees(g: Gl, r: Gl, i: Id) {
    i in g.samplers && i in r.samplers && g.samplers[i].proxy == r.samplers[i].proxy
  }

  ghost predicate AttributeAgrees(g: Gl, r: Gl, a: Id, i: nat) {
    && a in g.arrays && a in r.arrays && g.arrays[a].proxy.Some? && r.arrays[a].proxy.Some?
    && i in g.arrays[a].proxy.value && i in r.arrays[a].proxy.value
    && g.arrays[a].proxy.value[i] == r.arrays[a].proxy.value[i]
  }

  ghost predicate ShowsAttribute(g: Gl, c: Q.Bound, a: Id, i: nat) {
    a in g.arrays && c.vertexArray == Some(a) && i in g.arrays[a].current && g.arrays[a].current[i].Live(g.buffers.Keys)
  }

  ghost predicate ViewAgrees(g: Gl, r: Gl, t: Id, lookup: U.Lookup) {
    && t in g.techniques && t in r.techniques && g.techniques[t].proxy.Some? && r.techniques[t].proxy.Some?
    && var c := g.techniques[t].current;
       Q.ViewOf(g.techniques[t].Copy(), c, g.Live(), lookup) == Q.ViewOf(r.techniques[t].Copy(), c, g.Live(), lookup)
  }

  // Technique `t`, and all it shows, is on the renderer in `g` as in `r`; data
  // that is sent as a whole, iff the renderer has received it.
  ghost predicate AsResent(g: Gl, r: Gl, t: Id, lookup: U.Lookup) {
    && ViewAgrees(g, r, t, lookup)
    && var c := g.techniques[t].current;
       && (forall b :: ShowsBuffer(g, c, b) ==> BufferAgrees(g, r, b))
       && (forall b :: ShowsPair(g, c, b) ==> TextureAgrees(g, r, b.texture) && SamplerAgrees(g, r, b.sampler))
       && (forall a, i :: ShowsAttribute(g, c, a, i) ==> AttributeAgrees(g, r, a, i))
  }

  // The technique's record on the renderer, restricted to targets still alive,
  // cannot be told from the one a resend would build.
  lemma TechniqueLooksResent(g: Gl, t: Id, lookup: U.Lookup)
    requires OnShow(g, t)
    ensures ViewAgrees(g, Resent(g), t, lookup)
  {
    var q := g.techniques[t];
    var d := DropCopies(g).techniques[t];
    assert q.WellFormed() && d.WellFormed();
    ResentTechnique(g, t);
    Q.ForcedSyncEstablishes(d, g.Live());
    MirrorOfKept(d.Sync(true, g.Live()).Copy(), q.current, g.Live());
    Q.MirrorsLookAlike(q.Copy(), d.Sync(true, g.Live()).Copy(), q.current, g.Live(), lookup);
  }

  // A buffer on show holds on the renderer what a resend would give it iff the
  // renderer holds anything.
  lemma BufferAsResentIff(g: Gl, t: Id, b: Id)
    requires OnShow(g, t) && ShowsBuffer(g, g.techniques[t].current, b)
    ensures BufferAgrees(g, Resent(g), b)
  {
    hide SyncReachAll, DropCopies;
    ShownBufferReached(g, t, b);
    assert g.buffers[b].Clean() && g.buffers[b].FlagSound();
    BufferResent(g, b);
  }

  lemma BufferResent(g: Gl, b: Id)
    requires b in g.buffers && b in SyncReachAll(DropCopies(g), CommittedTechniques(g)).buffers
    ensures b in Resent(g).buffers && Resent(g).buffers[b] == g.buffers[b].(proxy := None).Sync(true)
  {
    hide SyncReachAll, SyncReach;
  }

  // Likewise the image and the mipmap target of a texture.
  lemma TextureAsResentIff(g: Gl, t: Id, b: TB.Binding)
    requires OnShow(g, t) && ShowsPair(g, g.techniques[t].current, b)
    ensures TextureAgrees(g, Resent(g), b.texture)
  {
    hide SyncReachAll, DropCopies;
    ShownPairReached(g, t, b);
    assert g.textures[b.texture].Clean() && g.textures[b.texture].FlagSound();
    TextureResent(g, b.texture);
  }

  lemma TextureResent(g: Gl, x: Id)
    requires x in g.textures && x in SyncReachAll(DropCopies(g), CommittedTechniques(g)).textures
    ensures x in Resent(g).textures && Resent(g).textures[x] == g.textures[x].(proxy := None).Sync(true)
  {
    hide SyncReachAll, SyncReach;
  }

  // A sampler on show is always as a resend would leave it.
  lemma SamplerAsResent(g: Gl, t: Id, b: TB.Binding)
    requires OnShow(g, t) && ShowsPair(g, g.techniques[t].current, b)
    ensures SamplerAgrees(g, Resent(g), b.sampler)
  {
    hide SyncReachAll, DropCopies;
    ShownPairReached(g, t, b);
    var q := g.samplers[b.sampler];
    var d := q.(proxy := None);
    assert q.Exact() && q.FlagSound() && d.FlagSound();
    SamplerResent(g, b.sampler);
    S.SyncExact(d, true);
    assert d.Sync(true).Everything() == q.Everything();
  }

  lemma SamplerResent(g: Gl, i: Id)
    requires i in g.samplers && i in SyncReachAll(DropCopies(g), CommittedTechniques(g)).samplers
    ensures i in Resent(g).samplers && Resent(g).samplers[i] == g.samplers[i].(proxy := None).Sync(true)
  {
    hide SyncReachAll, SyncReach;
  }

  // So is each attribute of a vertex array on show that has a live buffer.
  lemma ArrayAsResent(g: Gl, t: Id, a: Id, i: nat)
    requires OnShow(g, t) && ShowsAttribute(g, g.techniques[t].current, a, i)
    ensures AttributeAgrees(g, Resent(g), a, i)
  {
    hide SyncReachAll, Resent, DropCopies;
    ArrayResent(g, t, a);
    A.ResendAgrees(g.arrays[a], g.buffers.Keys, i);
  }

  lemma ArrayResent(g: Gl, t: Id, a: Id)
    requires t in CommittedTechniques(g) && g.techniques[t].current.vertexArray == Some(a) && a in g.arrays
    ensures a in Resent(g).arrays && Resent(g).arrays[a] == g.arrays[a].(proxy := None).Sync(true, g.buffers.Keys)
  {
    hide SyncReachAll;
    ResentReaches(g, t);
    assert a in SyncReach(DropCopies(g), DropCopies(g).techniques[t]).arrays;
    assert DropCopies(g).buffers.Keys == g.buffers.Keys;
  }

  // ---- over every run ----------------------------------------------------------------

  lemma ShownAsResent(g: Gl, t: Id, lookup: U.Lookup)
    requires OnShow(g, t)
    ensures AsResent(g, Resent(g), t, lookup)
  {
    hide OnShow, ShowsBuffer, ShowsPair, ShowsAttribute, BufferAgrees, TextureAgrees, SamplerAgrees, AttributeAgrees;
    hide Resent;
    TechniqueLooksResent(g, t, lookup);
    forall b | ShowsBuffer(g, g.techniques[t].current, b)
      ensures BufferAgrees(g, Resent(g), b)
    {
      BufferAsResentIff(g, t, b);
    }
    forall b | ShowsPair(g, g.techniques[t].current, b)
      ensures TextureAgrees(g, Resent(g), b.texture) && SamplerAgrees(g, Resent(g), b.sampler)
    {
      SamplerAsResent(g, t, b);
      TextureAsResentIff(g, t, b);
    }
    forall a, i | ShowsAttribute(g, g.techniques[t].current, a, i)
      ensures AttributeAgrees(g, Resent(g), a, i)
    {
      ArrayAsResent(g, t, a, i);
    }
  }

  // In every run, while a session is up, each committed technique shows what
  // a reconnect at that moment would show, object by object; buffer data,
  // images and mipmap targets iff the run sent them in this session.
  lemma IncrementalRefinesResend(es: seq<Event>, t: Id, lookup: U.Lookup)
    requires Possible(es) && Run(es).session
    requires t in Run(es).gl.techniques && Run(es).gl.techniques[t].committed
    ensures Reconnect(Run(es)).gl == Resent(Run(es).gl)
    ensures AsResent(Run(es).gl, Reconnect(Run(es)).gl, t, lookup)
    ensures forall x :: Filled(Run(es).gl, x) <==> SentSince(es, x)
  {
    RunKeeps(es);
    LossKeeps(Run(es));
    ReconnectResends(Run(es));
    InvShows(Run(es), t);
    ShownAsResent(Run(es).gl, t, lookup);
    forall x
      ensures Filled(Run(es).gl, x) <==> SentSince(es, x)
    {
      FilledIffSent(es, x);
    }
  }

  lemma InvShows(s: Scene, t: Id)
    requires Inv(s) && s.session && t in s.gl.techniques && s.gl.techniques[t].committed
    ensures OnShow(s.gl, t)
  {
  }

  lemma OwnersResent(s: Scene)
    requires Structured(SessionDown(s))
    ensures var r := Reconnect(s);
            && (forall v :: v in s.objects && s.objects[v].committed ==>
               v in r.objects && r.objects[v].proxy == s.objects[v].app)
            && (forall u :: u in s.units && s.units[u].committed ==> u in r.units && r.units[u].proxy)
  {
    hide SyncTechniques, CommittedOf, DropCopies;
    var d := SessionDown(s);
    UpParts(d);
    assert forall v :: v in d.objects ==> d.objects[v] == s.objects[v].(proxy := None);
    assert forall u :: u in d.units ==> d.units[u] == s.units[u].(proxy := false);
  }

  // Units and objects are shown, and placed, as a reconnect would do it.
  lemma OwnersAsResent(es: seq<Event>)
    requires Possible(es) && Run(es).session
    ensures var s, r := Run(es), Reconnect(Run(es));
            && (forall v :: v in s.objects && s.objects[v].committed ==>
                  v in r.objects && s.objects[v].proxy == r.objects[v].proxy == s.objects[v].app)
            && (forall u :: u in s.units && s.units[u].committed ==>
               u in r.units && s.units[u].proxy && r.units[u].proxy)
  {
    RunKeeps(es);
    LossKeeps(Run(es));
    OwnersResent(Run(es));
    assert ShownOwners(Run(es).units, Run(es).objects);
  }
}

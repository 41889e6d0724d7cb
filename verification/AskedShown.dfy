// In every run, what the renderer shows is what was asked for by the time of
// the last commits, told by the events alone.
module AskedShown {
  import opened Common
  import opened Scenes
  import I = SceneInvariant
  import C = SceneCascade
  import R = SceneHistory
  import M = SceneMirror
  import opened Asked
  import L = AskedLives
  import W = AskedTechniques
  import X = AskedData
  import U = Uniforms
  import B = Buffers
  import S = Samplers
  import A = VertexArrays
  import D = DrawCalls
  import TB = TextureBindings
  import Q = Techniques

  // ---- sessions and poses ---------------------------------------------------------

  lemma SessionAfter(s: Scene, e: Event)
    requires I.Structured(s) && Allowed(s, e)
    ensures Step(s, e).session == (e.SessionEstablished? || (!e.SessionLost? && s.session))
  {
    hide CommitTechniques, SyncTechniques, DropCopies, GlAfter, I.Tree, TechniquesOf;
    if e.CommitRequest? {
      C.CommitParts(s, e.id);
    } else if e.MoveApp? {
      L.MovedKeys(s, e.id, e.polar, e.azimuthal, Memory);
      C.CommitParts(Moved(s, e.id, e.polar, e.azimuthal), e.id);
    }
  }

  lemma {:induction false} SessionAsTold(es: seq<Event>)
    requires Possible(es)
    ensures Run(es).session <==> Connected(es)
  {
    hide Allowed, Step, I.Inv;
    if es != [] {
      var init, e := es[..|es| - 1], es[|es| - 1];
      SessionAsTold(init);
      C.RunKeeps(init);
      L.InvIsStructured(Run(init));
      SessionAfter(Run(init), e);
    }
  }

  ghost function AppIn(s: Scene, e: Event, v: Id): Option<Pose>
    requires v in s.objects && (e.MoveApp? ==> e.id in s.objects && s.objects[e.id].app.Some?)
  {
    if e.AttachApp? && e.id == v then Some(e.pose)
    else if e.MoveApp? && e.id == v then
      Some(Pose(s.objects[v].app.value.polar + e.polar, s.objects[v].app.value.azimuthal + e.azimuthal))
    else s.objects[v].app
  }

  lemma CommitSparesApps(s: Scene, v: Id, w: Id)
    requires I.Structured(s) && v in s.objects && s.objects[v].app.Some? && w in s.objects
    ensures w in Commit(s, v).objects && Commit(s, v).objects[w].app == s.objects[w].app
  {
    hide CommitTechniques, SyncTechniques, I.Tree, TechniquesOf;
    C.CommitParts(s, v);
  }

  lemma AppAfter(s: Scene, e: Event, v: Id)
    requires I.Inv(s) && Allowed(s, e) && v in Step(s, e).objects
    ensures if v in s.objects then Step(s, e).objects[v].app == AppIn(s, e, v)
            else v == s.next && Step(s, e).objects[v].app == None && e.Create?
  {
    hide CommitTechniques, SyncTechniques, DropCopies, GlAfter, Commit, I.Tree, I.Sound, I.Shown, I.Hierarchy;
    hide CommitAllowed;
    L.InvIsStructured(s);
    L.KeysAfter(s, e, Object);
    AllowedCommit(s, e);
    if v in s.objects {
      if e.CommitRequest? {
        CommitSparesApps(s, e.id, v);
      } else if e.MoveApp? {
        L.MovedKeys(s, e.id, e.polar, e.azimuthal, Memory);
        CommitSparesApps(Moved(s, e.id, e.polar, e.azimuthal), e.id, v);
      }
    }
  }

  lemma AllowedCommit(s: Scene, e: Event)
    requires Allowed(s, e)
    ensures e.CommitRequest? || e.MoveApp? ==> e.id in s.objects && s.objects[e.id].app.Some?
  {
  }

  lemma {:induction false} UnbornUnplaced(es: seq<Event>, v: Id)
    requires Possible(es) && Given(es) <= v
    ensures PoseOf(es, v) == None
  {
    hide Step, I.Inv, Allowed;
    if es != [] {
      var init, e := es[..|es| - 1], es[|es| - 1];
      UnbornUnplaced(init, v);
      L.RunTold(init);
      C.RunKeeps(init);
      W.GivenIsNext(init, Run(init));
      AttachedIsGiven(Run(init), e);
    }
  }

  lemma AttachedIsGiven(s: Scene, e: Event)
    requires I.Inv(s) && Allowed(s, e)
    ensures e.AttachApp? ==> e.id < s.next
  {
    hide I.Sound, I.Shown, I.Hierarchy, I.Tree, CommitAllowed;
  }

  // An app stands where it was attached, moved by all the motions since.
  lemma {:induction false} PoseAsAsked(es: seq<Event>, v: Id)
    requires Possible(es) && v in Run(es).objects
    ensures Run(es).objects[v].app == PoseOf(es, v)
  {
    hide Step, I.Inv, Allowed;
    ObjectIsLong(es, v);
    var init, e := es[..|es| - 1], es[|es| - 1];
    C.RunKeeps(init);
    AllowedCommit(Run(init), e);
    AppAfter(Run(init), e, v);
    if v in Run(init).objects {
      PoseAsAsked(init, v);
    } else {
      L.RunTold(init);
      W.GivenIsNext(init, Run(init));
      UnbornUnplaced(init, v);
    }
  }

  lemma ObjectIsLong(es: seq<Event>, v: Id)
    requires Possible(es) && v in Run(es).objects
    ensures es != []
  {
  }

  // ---- techniques -----------------------------------------------------------------------

  // The record holds what was wished for, where that lives.
  ghost predicate Grants(r: Q.RemoteTechnique, w: Wish, live: Q.Live) {
    && (match w.program
        case None => r.program.None?
        case Some(p) => p in live.programs ==> r.program == Some(p))
    && (match w.vertexArray
        case None => r.vertexArray.None?
        case Some(a) => a in live.arrays ==> r.vertexArray == Some(a))
    && (forall p :: p in w.bindings && w.bindings[p].texture in live.textures && w.bindings[p].sampler in live.samplers
          ==> p in r.textures && r.textures[p] == w.bindings[p])
    && (match w.draw
        case NoDraw => r.draw.NoDraw?
        case Arrays(_, _, _) => r.draw == w.draw
        case Elements(_, _, _, _, b) => b in live.buffers ==> r.draw == w.draw)
    && U.Mirrors(r.uniforms, U.Latest(w.uniforms))
  }

  lemma MirrorGrants(q: Q.Technique, now: Wish, w: Wish, draw: Option<D.Draw>, live: Q.Live, n: Id)
    requires W.Obeys(q, now, w, draw) && W.BindsAs(q, now, w, live) && W.WishBelow(w, n)
    requires Q.Mirrored(q.Copy(), q.current, live)
    ensures Grants(q.Copy(), w, live)
    ensures U.Mirrors(q.Copy().uniforms, w.uniforms) <==> forall name :: !U.Displaces(w.uniforms, w.uniforms, name)
  {
    hide U.Mirrors, U.Latest, U.Unflag, U.Displaces, Q.Technique.Copy;
    U.LatestMeansAllIff(w.uniforms, q.current.uniforms, q.Copy().uniforms);
    UniformsGranted(q.current.uniforms, w.uniforms, q.Copy().uniforms);
    forall p | p in w.bindings && w.bindings[p].texture in live.textures && w.bindings[p].sampler in live.samplers
      ensures p in q.Copy().textures && q.Copy().textures[p] == w.bindings[p]
    {
      assert w.bindings[p] in q.current.textures.list;
    }
  }

  lemma UniformsGranted(current: seq<U.Uniform>, log: seq<U.Uniform>, sent: seq<U.Message>)
    requires U.Unflag(current) == U.Latest(log) && U.Mirrors(sent, current)
    ensures U.Mirrors(sent, U.Latest(log))
  {
    U.MessagesUnflag(current);
  }

  lemma LiveIs(es: seq<Event>, t: Id)
    requires Possible(es)
    ensures Is(es, Technique, t) <==> t in Run(es).gl.techniques
  {
    hide Is;
    L.RunTold(es);
    assert t in L.Keys(Run(es), Technique) <==> Is(es, Technique, t);
  }

  lemma CommittedIsShown(es: seq<Event>, t: Id)
    requires Possible(es) && Connected(es) && Is(es, Technique, t) && UpTo(es, OfTechnique(t)) != []
    ensures t in Run(es).gl.techniques && Run(es).gl.techniques[t].committed && M.OnShow(Run(es).gl, t)
    ensures I.Inv(Run(es)) && Run(es).session
  {
    hide I.Inv, M.OnShow, Is, W.Obeys, W.BindsAs;
    LiveIs(es, t);
    SessionAsTold(es);
    C.RunKeeps(es);
    W.TechniqueAsAsked(es, t);
    M.InvShows(Run(es), t);
  }

  // While a session is up, every technique that was ever committed shows what
  // it was asked for before its last commit. Its uniforms are as if each ever
  // asked for had been sent, in order, iff no name that was sent ends with a
  // vector of unknown type.
  lemma TechniqueShowsWish(es: seq<Event>, t: Id)
    requires Possible(es) && Connected(es) && Is(es, Technique, t) && UpTo(es, OfTechnique(t)) != []
    ensures t in Run(es).gl.techniques && Run(es).gl.techniques[t].proxy.Some?
    ensures var r, w := Run(es).gl.techniques[t].proxy.value, Settled(es, t);
            && Grants(r, w, Run(es).gl.Live())
            && (U.Mirrors(r.uniforms, w.uniforms) <==> forall name :: !U.Displaces(w.uniforms, w.uniforms, name))
  {
    hide I.Inv, I.Sound, I.Settled, Is, W.Obeys, W.BindsAs, Grants, Q.Mirrored, U.Mirrors, U.Displaces, W.WishBelow;
    CommittedIsShown(es, t);
    W.TechniqueAsAsked(es, t);
    var up := UpTo(es, OfTechnique(t));
    W.UpToIsBefore(es, OfTechnique(t));
    W.WishesBelow(up, t);
    MirrorGrants(Run(es).gl.techniques[t], WishOf(es, t), WishOf(up, t), NewDraw(es, t), Run(es).gl.Live(), Given(up));
  }

  // ---- what they show ---------------------------------------------------------------------

  // In a run that has a session, the technique lives and has been committed.
  ghost predicate Displayed(es: seq<Event>, t: Id) {
    Connected(es) && Is(es, Technique, t) && UpTo(es, OfTechnique(t)) != []
  }

  // The parts of the invariant that the objects on show rest on.
  ghost predicate Firm(g: Gl, c: Q.Bound) {
    && (forall b :: R.ShowsBuffer(g, c, b) ==> g.buffers[b].Clean() && g.buffers[b].FlagSound())
    && (forall b :: R.ShowsPair(g, c, b) ==>
          && g.textures[b.texture].Clean() && g.textures[b.texture].FlagSound()
          && g.samplers[b.sampler].Exact())
    && (forall a :: c.vertexArray == Some(a) && a in g.arrays ==> g.arrays[a].Exact(g.buffers.Keys))
  }

  lemma ShownIsFirm(g: Gl, t: Id)
    requires M.OnShow(g, t)
    ensures Firm(g, g.techniques[t].current)
  {
  }

  lemma DisplayedIsFirm(es: seq<Event>, t: Id)
    requires Possible(es) && Displayed(es, t)
    ensures t in Run(es).gl.techniques && Firm(Run(es).gl, Run(es).gl.techniques[t].current)
    ensures W.Heeded(es, Run(es), t)
  {
    hide I.Inv, M.OnShow, Is, Firm, W.Heeded, Step, Allowed;
    CommittedIsShown(es, t);
    ShownIsFirm(Run(es).gl, t);
    W.TechniqueAsAsked(es, t);
  }

  lemma BindingIsShown(es: seq<Event>, t: Id, b: TB.Binding)
    requires Possible(es) && t in Run(es).gl.techniques && W.Heeded(es, Run(es), t)
    ensures ShowsBinding(es, t, b) <==> R.ShowsPair(Run(es).gl, Run(es).gl.techniques[t].current, b)
  {
    hide Is, W.Obeys, Step, Allowed;
    X.LiveAsTold(es, b);
  }

  lemma ArrayIsShown(es: seq<Event>, t: Id, a: Id)
    requires Possible(es) && t in Run(es).gl.techniques && W.Heeded(es, Run(es), t)
    ensures ShowsArray(es, t, a) <==>
            Run(es).gl.techniques[t].current.vertexArray == Some(a) && a in Run(es).gl.arrays
  {
    hide Is, W.BindsAs, Step, Allowed;
    L.RunTold(es);
    assert a in L.Keys(Run(es), VertexArray) <==> Is(es, VertexArray, a);
  }

  lemma BufferIs(es: seq<Event>, b: Id)
    requires Possible(es)
    ensures Is(es, Buffer, b) <==> b in Run(es).gl.buffers
  {
    hide Is, Step, Allowed;
    L.RunTold(es);
    assert b in L.Keys(Run(es), Buffer) <==> Is(es, Buffer, b);
  }

  lemma DrawnBuffers(es: seq<Event>, t: Id)
    requires Possible(es) && t in Run(es).gl.techniques && W.Heeded(es, Run(es), t)
    ensures Run(es).gl.techniques[t].current.draw.data == Settled(es, t).draw
  {
    hide W.BindsAs, Step, Allowed;
  }

  lemma DataIsShown(es: seq<Event>, t: Id, b: Id)
    requires Possible(es) && t in Run(es).gl.techniques && W.Heeded(es, Run(es), t)
    ensures ShowsData(es, t, b) <==> R.ShowsBuffer(Run(es).gl, Run(es).gl.techniques[t].current, b)
  {
    hide Is, W.Heeded, ShowsArray, Step, Allowed, Settled, SettledAttributes, A.BuffersOf;
    var g, c := Run(es).gl, Run(es).gl.techniques[t].current;
    BufferIs(es, b);
    DrawnBuffers(es, t);
    forall a: Id
      ensures ShowsArray(es, t, a) <==> c.vertexArray == Some(a) && a in g.arrays
    {
      ArrayIsShown(es, t, a);
    }
    if c.vertexArray.Some? && c.vertexArray.value in g.arrays {
      var a := c.vertexArray.value;
      SettledBuffers(es, a, b);
    }
  }

  lemma SettledBuffers(es: seq<Event>, a: Id, b: Id)
    requires Possible(es) && a in Run(es).gl.arrays
    ensures b in A.BuffersOf(Run(es).gl.arrays[a].current) <==>
            exists i :: i in SettledAttributes(es, a) && Points(SettledAttributes(es, a)[i], b)
  {
    hide X.Describes, Step, Allowed, A.BuffersOf;
    X.ArrayAsAsked(es, a);
    X.BuffersDescribed(Run(es).gl.arrays[a].current, SettledAttributes(es, a), b);
  }

  // What the renderer has of a buffer, if anything was sent in this session, is
  // what was last taken from memory.
  ghost predicate DataShown(es: seq<Event>, b: Id)
    requires Possible(es)
  {
    && b in Run(es).gl.buffers && Run(es).gl.buffers[b].proxy.Some?
    && match Run(es).gl.buffers[b].proxy.value.content
       case None => !R.SentSince(es, R.BufferData(b))
       case Some(c) =>
         && R.SentSince(es, R.BufferData(b))
         && (match Taken(es, b)
             case None => c.data.None?
             case Some(d) => c == B.Content(Some(d.bytes), d.target, d.usage))
  }

  lemma BufferShowsTaken(es: seq<Event>, t: Id, b: Id)
    requires Possible(es) && Displayed(es, t) && ShowsData(es, t, b)
    ensures DataShown(es, b)
  {
    hide Is, W.Heeded, ShowsData, Step, Allowed, R.SentSince, Displayed, Taken, Linked;
    DisplayedIsFirm(es, t);
    DataIsShown(es, t, b);
    X.BufferAsTaken(es, b);
    R.FilledIffSent(es, R.BufferData(b));
  }

  ghost predicate ImageShown(es: seq<Event>, x: Id)
    requires Possible(es)
  {
    && x in Run(es).gl.textures && Run(es).gl.textures[x].proxy.Some?
    && (match Run(es).gl.textures[x].proxy.value.upload
        case None => !R.SentSince(es, R.TextureImage(x))
        case Some(u) =>
          && R.SentSince(es, R.TextureImage(x))
          && (if TakenImage(es, x).Some? then u == TakenImage(es, x).value else u.data.None?))
    && (match Run(es).gl.textures[x].proxy.value.mipmap
        case None => !R.SentSince(es, R.TextureMipmap(x))
        case Some(m) =>
          R.SentSince(es, R.TextureMipmap(x)) && (TakenMipmap(es, x).Some? ==> m == TakenMipmap(es, x).value))
  }

  // So of an image and of a mipmap target; of a sampler, the last value of each
  // parameter.
  lemma TextureShowsTaken(es: seq<Event>, t: Id, b: TB.Binding)
    requires Possible(es) && Displayed(es, t) && ShowsBinding(es, t, b)
    ensures ImageShown(es, b.texture)
  {
    hide Is, W.Heeded, ShowsBinding, Step, Allowed, R.SentSince, Displayed;
    hide TakenImage, LinkedImage, TakenMipmap, WantedMipmap;
    DisplayedIsFirm(es, t);
    BindingIsShown(es, t, b);
    X.TextureAsTaken(es, b.texture);
    R.FilledIffSent(es, R.TextureImage(b.texture));
    R.FilledIffSent(es, R.TextureMipmap(b.texture));
  }

  lemma SamplerShowsParams(es: seq<Event>, t: Id, b: TB.Binding)
    requires Possible(es) && Displayed(es, t) && ShowsBinding(es, t, b)
    ensures b.sampler in Run(es).gl.samplers
    ensures Run(es).gl.samplers[b.sampler].proxy == Some(ParamsOf(UpTo(es, OfSampler(b.sampler)), b.sampler))
  {
    hide Is, W.Heeded, ShowsBinding, Step, Allowed, Displayed;
    DisplayedIsFirm(es, t);
    BindingIsShown(es, t, b);
    X.SamplerAsAsked(es, b.sampler);
    assert Run(es).gl.samplers[b.sampler].Everything() == X.Values(Run(es).gl.samplers[b.sampler].current);
  }

  // An attribute whose buffer lives is as it was asked for before the last
  // commit that reached the vertex array.
  lemma AttributeShowsAsked(es: seq<Event>, t: Id, a: Id, i: nat)
    requires Possible(es) && Displayed(es, t) && ShowsArray(es, t, a) && i in SettledAttributes(es, a)
    requires SettledAttributes(es, a)[i].pointer.Some?
             && Is(es, Buffer, SettledAttributes(es, a)[i].pointer.value.buffer)
    ensures a in Run(es).gl.arrays && Run(es).gl.arrays[a].proxy.Some? && i in Run(es).gl.arrays[a].proxy.value
    ensures Run(es).gl.arrays[a].proxy.value[i] == SettledAttributes(es, a)[i]
  {
    hide Is, W.Heeded, ShowsArray, Step, Allowed, Displayed;
    DisplayedIsFirm(es, t);
    ArrayIsShown(es, t, a);
    X.ArrayAsAsked(es, a);
    BufferIs(es, SettledAttributes(es, a)[i].pointer.value.buffer);
    assert X.Looks(Run(es).gl.arrays[a].current[i], SettledAttributes(es, a)[i]);
  }

  // An object that was committed stands where its app was put.
  lemma ObjectShowsPose(es: seq<Event>, v: Id)
    requires Possible(es) && Connected(es) && v in Run(es).objects && Run(es).objects[v].committed
    ensures PoseOf(es, v).Some? && Run(es).objects[v].proxy == PoseOf(es, v)
  {
    hide Step, Allowed, Connected, PoseOf;
    SessionAsTold(es);
    M.OwnersAsResent(es);
    PoseAsAsked(es, v);
    C.RunKeeps(es);
  }
}

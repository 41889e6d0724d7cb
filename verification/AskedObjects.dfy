// The state of buffers, textures, samplers and vertex arrays, and which commits
// reach them, is what the events say.
module AskedObjects {
  import opened Common
  import opened Scenes
  import opened SceneInvariant
  import opened SceneCascade
  import opened Asked
  import opened AskedLives
  import opened AskedTechniques
  import B = Buffers
  import T = Textures
  import S = Samplers
  import A = VertexArrays
  import Q = Techniques

  // What requests and commits have made of one object, without the flags and
  // the copy, which are a sync's concern.
  datatype Leaf =
    | BufferLeaf(data: B.BufferPending, taken: B.Content)
    | TextureLeaf(image: T.TexturePending, upload: T.Upload, mipmap: nat)
    | SamplerLeaf(params: map<nat, S.Param>, values: map<nat, S.Param>)
    | ArrayLeaf(attributes: A.Attributes, current: A.Attributes)

  function BufferLeafOf(b: B.Buffer): Leaf {
    BufferLeaf(b.pending, b.CurrentContent())
  }

  function TextureLeafOf(t: T.Texture): Leaf {
    TextureLeaf(t.pending, t.CurrentUpload(), t.current.mipmapTarget)
  }

  function SamplerLeafOf(s: S.Sampler): Leaf {
    SamplerLeaf(s.pending, s.current)
  }

  function ArrayLeafOf(a: A.VertexArray): Leaf {
    ArrayLeaf(a.pending, a.current)
  }

  ghost predicate There(g: Gl, x: Target) {
    match x
    case OfTechnique(_) => false
    case OfBuffer(i) => i in g.buffers
    case OfTexture(i) => i in g.textures
    case OfSampler(i) => i in g.samplers
    case OfArray(i) => i in g.arrays
  }

  ghost function LeafAt(g: Gl, x: Target): Leaf
    requires There(g, x)
  {
    match x
    case OfBuffer(i) => BufferLeafOf(g.buffers[i])
    case OfTexture(i) => TextureLeafOf(g.textures[i])
    case OfSampler(i) => SamplerLeafOf(g.samplers[i])
    case OfArray(i) => ArrayLeafOf(g.arrays[i])
  }

  ghost function Committed(g: Gl, x: Target): Leaf
    requires There(g, x)
  {
    match x
    case OfBuffer(i) => BufferLeafOf(g.buffers[i].Commit(g.shm))
    case OfTexture(i) => TextureLeafOf(g.textures[i].Commit(g.shm))
    case OfSampler(i) => SamplerLeafOf(g.samplers[i].Commit())
    case OfArray(i) => ArrayLeafOf(g.arrays[i].Commit())
  }

  // A client's request on the object itself.
  ghost function Requesting(g: Gl, e: Event, x: Target): Leaf
    requires There(g, x)
  {
    match x
    case OfBuffer(i) =>
      BufferLeafOf(if e.OnBuffer? && e.id == i then g.buffers[i].Requested(e.target, e.usage, e.data) else g.buffers[i])
    case OfTexture(i) =>
      TextureLeafOf(if e.OnTexture? && e.id == i then g.textures[i].Requested(e.textureRequest) else g.textures[i])
    case OfSampler(i) =>
      SamplerLeafOf(if e.OnSampler? && e.id == i then g.samplers[i].SetParameter(e.paramType, e.pname, e.value)
                    else g.samplers[i])
    case OfArray(i) =>
      ArrayLeafOf(if e.OnVertexArray? && e.id == i then g.arrays[i].Requested(e.arrayRequest) else g.arrays[i])
  }

  ghost predicate InReach(r: Reach, x: Target) {
    match x
    case OfTechnique(_) => false
    case OfBuffer(i) => i in r.buffers
    case OfTexture(i) => i in r.textures
    case OfSampler(i) => i in r.samplers
    case OfArray(i) => i in r.arrays
  }

  ghost predicate ReachedBy(s: Scene, e: Event, x: Target) {
    (e.CommitRequest? || e.MoveApp?) && InReach(CommitReachAll(s.gl, TechniquesOf(s, {e.id})), x)
  }

  ghost function LeafIn(s: Scene, e: Event, x: Target): Leaf
    requires There(s.gl, x)
  {
    if ReachedBy(s, e, x) then Committed(s.gl, x) else Requesting(s.gl, e, x)
  }

  // ---- one step --------------------------------------------------------------------

  lemma SyncSparesLeaf(g: Gl, ts: set<Id>, force: bool, x: Target)
    ensures There(SyncTechniques(g, ts, force), x) <==> There(g, x)
    ensures There(g, x) ==> LeafAt(SyncTechniques(g, ts, force), x) == LeafAt(g, x)
  {
    hide SyncReachAll;
  }

  lemma DropSparesLeaf(g: Gl, x: Target)
    ensures There(DropCopies(g), x) <==> There(g, x)
    ensures There(g, x) ==> LeafAt(DropCopies(g), x) == LeafAt(g, x)
  {
  }

  lemma CommitMakesLeaf(g: Gl, ts: set<Id>, x: Target)
    ensures There(CommitTechniques(g, ts), x) <==> There(g, x)
    ensures There(g, x) ==>
              LeafAt(CommitTechniques(g, ts), x) ==
              if InReach(CommitReachAll(g, ts), x) then Committed(g, x) else LeafAt(g, x)
  {
    hide CommitReachAll, B.Buffer.Commit, T.Texture.Commit, S.Sampler.Commit, A.VertexArray.Commit;
  }

  lemma CommitStepLeaf(s: Scene, v: Id, x: Target)
    requires Structured(s) && v in s.objects && s.objects[v].app.Some?
    ensures There(Commit(s, v).gl, x) <==> There(s.gl, x)
    ensures There(s.gl, x) ==> LeafAt(Commit(s, v).gl, x) == LeafIn(s, CommitRequest(v), x)
  {
    hide CommitTechniques, SyncTechniques, CommitReachAll, Tree, Committed, LeafAt, InReach, There;
    CommitParts(s, v);
    var ts := TechniquesOf(s, {v});
    CommitMakesLeaf(s.gl, ts, x);
    SyncSparesLeaf(CommitTechniques(s.gl, ts), ts, false, x);
    if There(s.gl, x) {
      NothingRequested(s.gl, CommitRequest(v), x);
    }
  }

  lemma NothingRequested(g: Gl, e: Event, x: Target)
    requires There(g, x) && (Cascades(e) || e.Create?)
    ensures Requesting(g, e, x) == LeafAt(g, x)
  {
  }

  lemma MovedReaches(s: Scene, e: Event, x: Target)
    requires e.MoveApp? && e.id in s.objects && s.objects[e.id].app.Some?
    ensures var s1 := Moved(s, e.id, e.polar, e.azimuthal);
            s1.gl == s.gl && (ReachedBy(s1, CommitRequest(e.id), x) <==> ReachedBy(s, e, x))
  {
    hide CommitReachAll;
    assert TechniquesOf(Moved(s, e.id, e.polar, e.azimuthal), {e.id}) == TechniquesOf(s, {e.id});
  }

  lemma UpSparesLeaf(s: Scene, x: Target)
    requires Structured(s)
    ensures There(SessionUp(s).gl, x) <==> There(s.gl, x)
    ensures There(s.gl, x) ==> LeafAt(SessionUp(s).gl, x) == LeafAt(s.gl, x)
  {
    hide SyncTechniques, Tree, There, LeafAt;
    if !s.session {
      UpParts(s);
      SyncSparesLeaf(s.gl, CommittedOf(s, CommittedObjects(s)), true, x);
    }
  }

  // An object as it is created.
  function Fresh(c: Creation, x: Target): Option<Leaf> {
    match c
    case NewBuffer(junk, target, usage) =>
      if x.OfBuffer? then Some(BufferLeaf(B.BufferPending(target, usage, None),
                                          B.Content(junk.data, junk.target, junk.usage))) else None
    case NewTexture(junk, mipmap) =>
      if x.OfTexture? then Some(TextureLeaf(T.TexturePending(junk, None, 0), T.Upload(junk, None), mipmap)) else None
    case NewSampler => if x.OfSampler? then Some(SamplerLeaf(map[], map[])) else None
    case NewVertexArray => if x.OfArray? then Some(ArrayLeaf(map[], map[])) else None
    case _ => None
  }

  lemma MadeLeaf(g: Gl, n: Id, c: Creation, x: Target)
    requires There(Made(g, n, c), x) && (There(g, x) ==> x.id != n)
    ensures if There(g, x) then LeafAt(Made(g, n, c), x) == LeafAt(g, x)
            else x.id == n && Fresh(c, x) == Some(LeafAt(Made(g, n, c), x))
  {
  }

  lemma RequestedLeaf(g: Gl, e: Event, x: Target)
    requires NamesGl(g, e) && There(Requested(g, e), x)
    ensures There(g, x) && LeafAt(Requested(g, e), x) == Requesting(g, e, x)
  {
    hide B.Buffer.Requested, T.Texture.Requested, S.Sampler.SetParameter, A.VertexArray.Requested;
    hide Q.Technique.Requested;
  }

  lemma QuietLeaf(s: Scene, e: Event, x: Target)
    requires NamesGl(s.gl, e) && !Cascades(e) && There(GlAfter(s.gl, s.next, e), x)
    requires There(s.gl, x) ==> x.id != s.next
    ensures if There(s.gl, x) then LeafAt(GlAfter(s.gl, s.next, e), x) == LeafIn(s, e, x)
            else x.id == s.next && e.Create? && Fresh(e.creation, x) == Some(LeafAt(GlAfter(s.gl, s.next, e), x))
  {
    hide There, LeafAt, Requesting, Fresh, Committed, InReach, Made, Requested;
    if e.Create? {
      MadeLeaf(s.gl, s.next, e.creation, x);
      if There(s.gl, x) {
        NothingRequested(s.gl, e, x);
      }
    } else {
      RequestedLeaf(s.gl, e, x);
    }
  }

  lemma ThereIsNotNext(s: Scene, x: Target)
    requires Inv(s) && There(s.gl, x)
    ensures x.id != s.next
  {
    hide Sound, Shown, Hierarchy, Tree;
  }

  lemma LeafAfter(s: Scene, e: Event, x: Target)
    requires Inv(s) && Allowed(s, e) && There(Step(s, e).gl, x)
    ensures if There(s.gl, x) then LeafAt(Step(s, e).gl, x) == LeafIn(s, e, x)
            else x.id == s.next && e.Create? && Fresh(e.creation, x) == Some(LeafAt(Step(s, e).gl, x))
  {
    hide QuietStep, GlAfter, Commit, Moved, SessionUp, DropCopies, Inv, Tree;
    hide There, LeafAt, Requesting, Fresh, Committed, ReachedBy;
    InvIsStructured(s);
    if There(s.gl, x) {
      ThereIsNotNext(s, x);
    }
    if Cascades(e) {
      CascadeLeaf(s, e, x);
    } else {
      QuietGraphics(s, e);
      QuietLeaf(s, e, x);
    }
  }

  lemma CascadeLeaf(s: Scene, e: Event, x: Target)
    requires Structured(s) && Allowed(s, e) && Cascades(e)
    ensures There(Step(s, e).gl, x) <==> There(s.gl, x)
    ensures There(s.gl, x) ==> LeafAt(Step(s, e).gl, x) == LeafIn(s, e, x)
  {
    hide QuietStep, Commit, Moved, SessionUp, DropCopies, Uprooted, Tree;
    hide There, LeafAt, Requesting, Committed, InReach, CommitReachAll;
    if There(s.gl, x) {
      NothingRequested(s.gl, e, x);
    }
    if e.CommitRequest? {
      CommitStepLeaf(s, e.id, x);
    } else if e.MoveApp? {
      MovedKeys(s, e.id, e.polar, e.azimuthal, Memory);
      MovedReaches(s, e, x);
      CommitStepLeaf(Moved(s, e.id, e.polar, e.azimuthal), e.id, x);
      if There(s.gl, x) {
        NothingRequested(s.gl, CommitRequest(e.id), x);
      }
    } else if e.SessionEstablished? {
      UpSparesLeaf(s, x);
    } else if e.SessionLost? {
      DropSparesLeaf(s.gl, x);
    } else {
      UprootedSparesLeaf(s, e.id, x);
    }
  }

  lemma UprootedSparesLeaf(s: Scene, i: Id, x: Target)
    ensures There(Uprooted(s, i).gl, x) <==> There(s.gl, x)
    ensures There(s.gl, x) ==> LeafAt(Uprooted(s, i).gl, x) == LeafAt(s.gl, x)
  {
  }
}

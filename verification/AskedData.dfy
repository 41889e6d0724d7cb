// What is current in buffers, textures, samplers and vertex arrays is what the
// last commits that reached them took of the requests made until then.
module AskedData {
  import opened Common
  import opened Scenes
  import opened SceneInvariant
  import opened SceneCascade
  import opened Asked
  import opened AskedLives
  import opened AskedTechniques
  import opened AskedObjects
  import B = Buffers
  import T = Textures
  import S = Samplers
  import A = VertexArrays
  import TB = TextureBindings
  import Q = Techniques

  // ---- what was asked of ids not yet given -------------------------------------------

  // The object that the event asks something of.
  predicate Asks(e: Event, i: Id) {
    (e.OnBuffer? || e.OnTexture? || e.OnSampler? || e.OnVertexArray? || e.WriteMemory?) && e.id == i
  }

  lemma AskedIsGiven(s: Scene, e: Event, i: Id)
    requires Inv(s) && Allowed(s, e) && Asks(e, i)
    ensures i < s.next
  {
    hide Sound, Shown, Hierarchy, Tree;
  }

  lemma {:induction false} UnbornUnasked(es: seq<Event>, i: Id)
    requires Possible(es) && Given(es) <= i
    ensures AttributesOf(es, i) == map[] && ParamsOf(es, i) == map[] && BytesOf(es, i) == None
    ensures Linked(es, i) == None && LinkedImage(es, i) == None && WantedMipmap(es, i) == 0
    ensures Taken(es, i) == None && TakenImage(es, i) == None && TakenMipmap(es, i) == None
  {
    hide Reaches, Inv, Allowed, Step;
    if es != [] {
      var init, e := es[..|es| - 1], es[|es| - 1];
      UnbornUnasked(init, i);
      RunTold(init);
      RunKeeps(init);
      GivenIsNext(init, Run(init));
      if Asks(e, i) {
        AskedIsGiven(Run(init), e, i);
      }
    }
  }

  // ---- attributes -------------------------------------------------------------------------

  // The attributes are those that were asked for.
  ghost predicate Describes(m: A.Attributes, asked: map<nat, A.RemoteAttribute>) {
    m.Keys == asked.Keys && forall i :: i in m ==> Looks(m[i], asked[i])
  }

  predicate Looks(a: A.Attribute, r: A.RemoteAttribute) {
    if a.buffer.Some? then a.Pointed() == r else r == A.RemoteAttribute(a.enabled, None)
  }

  lemma RequestDescribed(a: A.VertexArray, r: A.Request, asked: map<nat, A.RemoteAttribute>)
    requires Describes(a.pending, asked)
    ensures match r
            case SetEnability(i, enabled) =>
              Describes(a.Requested(r).pending, asked[i := AttributeIn(asked, i).(enabled := enabled)])
            case SetPointer(i, p) =>
              Describes(a.Requested(r).pending, asked[i := AttributeIn(asked, i).(pointer := Some(p))])
    ensures a.Requested(r).current == a.current
  {
  }

  lemma {:induction false} AttributesAsAsked(es: seq<Event>, a: Id)
    requires Possible(es) && a in Run(es).gl.arrays
    ensures Describes(Run(es).gl.arrays[a].pending, AttributesOf(es, a))
  {
    hide Describes, Inv, Allowed, Step, ReachedBy;
    ThereIsLong(es, OfArray(a));
    var init, e := es[..|es| - 1], es[|es| - 1];
    var s := Run(init);
    RunKeeps(init);
    LeafAfter(s, e, OfArray(a));
    if a in s.gl.arrays {
      AttributesAsAsked(init, a);
      if e.OnVertexArray? && e.id == a {
        RequestDescribed(s.gl.arrays[a], e.arrayRequest, AttributesOf(init, a));
      }
      ReachedByCommit(s, e, OfArray(a));
    } else {
      RunTold(init);
      GivenIsNext(init, s);
      UnbornUnasked(init, a);
      NothingDescribed();
    }
  }

  lemma ReachedByCommit(s: Scene, e: Event, x: Target)
    ensures ReachedBy(s, e, x) ==> e.CommitRequest? || e.MoveApp?
  {
  }

  lemma NothingDescribed()
    ensures Describes(map[], map[])
  {
  }

  lemma ThereIsLong(es: seq<Event>, x: Target)
    requires Possible(es) && There(Run(es).gl, x)
    ensures es != []
  {
  }

  // ---- which commits reach what ------------------------------------------------------------

  lemma LiveAsTold(es: seq<Event>, b: TB.Binding)
    requires Possible(es)
    ensures b.Live(Run(es).gl.Live().textures, Run(es).gl.Live().samplers) <==>
            Is(es, Texture, b.texture) && Is(es, Sampler, b.sampler)
  {
    hide Is;
    RunTold(es);
    assert b.texture in Keys(Run(es), Texture) <==> Is(es, Texture, b.texture);
    assert b.sampler in Keys(Run(es), Sampler) <==> Is(es, Sampler, b.sampler);
  }

  // The bindings that a commit of the technique leaves are those asked for.
  lemma BoundAsAsked(es: seq<Event>, t: Id, b: TB.Binding)
    requires Possible(es) && t in Run(es).gl.techniques
    ensures b in Run(es).gl.techniques[t].CommittedCurrent(Run(es).gl.Live()).textures.list <==> Binds(es, t, b)
  {
    hide Is, Obeys, Allowed, Step;
    var live := Run(es).gl.Live();
    TechniqueAsAsked(es, t);
    CommitBinds(Run(es).gl.techniques[t], live, WishOf(es, t), WishOf(UpTo(es, OfTechnique(t)), t));
    LiveAsTold(es, b);
  }

  lemma SlotsAsAsked(es: seq<Event>, t: Id)
    requires Possible(es) && t in Run(es).gl.techniques
    ensures var q, c := Run(es).gl.techniques[t], Run(es).gl.techniques[t].CommittedCurrent(Run(es).gl.Live());
            && c.vertexArray == WishOf(es, t).vertexArray && q.pending.draw.changed == NewDraw(es, t).Some?
            && (NewDraw(es, t).Some? ==> q.pending.draw.data == NewDraw(es, t).value)
  {
    hide BindsAs, Allowed, Step;
    TechniqueAsAsked(es, t);
  }

  lemma PointersAsAsked(es: seq<Event>, t: Id, b: Id)
    requires Possible(es)
    ensures b in A.PendingBuffers(Run(es).gl.arrays, WishOf(es, t).vertexArray) <==> PointsTo(es, t, b)
  {
    hide Is, Allowed, Step;
    var slot := WishOf(es, t).vertexArray;
    RunTold(es);
    if slot.Some? {
      assert slot.value in Keys(Run(es), VertexArray) <==> Is(es, VertexArray, slot.value);
      if slot.value in Run(es).gl.arrays {
        AttributesAsAsked(es, slot.value);
        BuffersDescribed(Run(es).gl.arrays[slot.value].pending, AttributesOf(es, slot.value), b);
      }
    }
  }

  lemma BuffersDescribed(m: A.Attributes, asked: map<nat, A.RemoteAttribute>, b: Id)
    requires Describes(m, asked)
    ensures b in A.BuffersOf(m) <==> exists i :: i in asked && Points(asked[i], b)
  {
    if b in A.BuffersOf(m) {
      var i :| i in m && m[i].buffer == Some(b);
      assert Points(asked[i], b);
    }
    if exists i :: i in asked && Points(asked[i], b) {
      var i :| i in asked && Points(asked[i], b);
      assert Looks(m[i], asked[i]);
      assert m[i].buffer == Some(b);
    }
  }

  lemma PassesIff(es: seq<Event>, t: Id, x: Target)
    requires Possible(es) && t in Run(es).gl.techniques && !x.OfTechnique?
    ensures InReach(CommitReach(Run(es).gl, Run(es).gl.techniques[t]), x) <==> Passes(es, t, x)
  {
    hide Binds, PointsTo, Q.Technique.CommittedCurrent, A.PendingBuffers, Allowed, Step;
    var c := Run(es).gl.techniques[t].CommittedCurrent(Run(es).gl.Live());
    SlotsAsAsked(es, t);
    if x.OfTexture? || x.OfSampler? {
      forall b
        ensures b in c.textures.list <==> Binds(es, t, b)
      {
        BoundAsAsked(es, t, b);
      }
    } else if x.OfBuffer? {
      PointersAsAsked(es, t, x.id);
    }
  }

  lemma ReachedTogetherIff(g: Gl, ts: set<Id>, x: Target)
    ensures InReach(CommitReachAll(g, ts), x) <==>
            exists t :: t in ts && t in g.techniques && InReach(CommitReach(g, g.techniques[t]), x)
  {
    hide CommitReach, InReach, Together;
    var m := CommitReaches(g, ts);
    InTogether(m, x);
    assert forall t :: t in m <==> t in ts && t in g.techniques;
  }

  lemma InTogether(m: map<Id, Reach>, x: Target)
    ensures InReach(Together(m), x) <==> exists t :: t in m && InReach(m[t], x)
  {
  }

  // The cascade of a commit reaches exactly what the events say.
  lemma ReachesIff(es: seq<Event>, e: Event, x: Target)
    requires Possible(es) && !x.OfTechnique?
    ensures ReachedBy(Run(es), e, x) <==> Reaches(es, e, x)
  {
    hide CommitReachAll, CommitReach, CommitsTechnique, Passes, InReach, Allowed, Step;
    var s := Run(es);
    if e.CommitRequest? || e.MoveApp? {
      var ts := TechniquesOf(s, {e.id});
      ReachedTogetherIff(s.gl, ts, x);
      forall t
        ensures CommitsTechnique(es, e, t) <==> t in ts
      {
        CommitsIff(es, e, t);
      }
      forall t | t in s.gl.techniques
        ensures InReach(CommitReach(s.gl, s.gl.techniques[t]), x) <==> Passes(es, t, x)
      {
        PassesIff(es, t, x);
      }
    } else {
      OnlyCommits(es, e);
    }
  }

  lemma OnlyCommits(es: seq<Event>, e: Event)
    requires !e.CommitRequest? && !e.MoveApp?
    ensures forall t :: !CommitsTechnique(es, e, t)
  {
  }

  // ---- vertex arrays ------------------------------------------------------------------------

  lemma {:induction false} ArrayAsAsked(es: seq<Event>, a: Id)
    requires Possible(es) && a in Run(es).gl.arrays
    ensures Describes(Run(es).gl.arrays[a].current, AttributesOf(UpTo(es, OfArray(a)), a))
  {
    hide Describes, Inv, Allowed, Step, Reaches, ReachedBy, A.VertexArray.Requested;
    ThereIsLong(es, OfArray(a));
    var init, e := es[..|es| - 1], es[|es| - 1];
    var s := Run(init);
    RunKeeps(init);
    LeafAfter(s, e, OfArray(a));
    ReachesIff(init, e, OfArray(a));
    if a in s.gl.arrays {
      ArrayAsAsked(init, a);
      AttributesAsAsked(init, a);
      RequestKeepsCurrent(s.gl.arrays[a], e);
    } else {
      RunTold(init);
      GivenIsNext(init, s);
      UnreachedArray(init, a);
      UnbornUnasked(init, a);
      NothingDescribed();
    }
  }

  lemma RequestKeepsCurrent(a: A.VertexArray, e: Event)
    ensures e.OnVertexArray? ==> a.Requested(e.arrayRequest).current == a.current
  {
  }

  lemma UnreachedArray(es: seq<Event>, a: Id)
    requires Possible(es) && Given(es) <= a
    ensures AttributesOf(UpTo(es, OfArray(a)), a) == map[]
  {
    UpToIsBefore(es, OfArray(a));
    UnbornUnasked(UpTo(es, OfArray(a)), a);
  }

  // ---- samplers ----------------------------------------------------------------------------

  function Values(m: map<nat, S.Param>): map<nat, S.RemoteParam> {
    map p | p in m :: S.RemoteParam(m[p].paramType, m[p].value)
  }

  lemma ParameterSet(q: S.Sampler, paramType: S.ParamType, pname: nat, value: Bytes)
    ensures var q' := q.SetParameter(paramType, pname, value);
            && q'.current == q.current
            && Values(q'.current + q'.pending) ==
               if Fits(pname, |value|)
               then Values(q.current + q.pending)[pname := S.RemoteParam(paramType, value)]
               else Values(q.current + q.pending)
  {
  }

  lemma {:induction false} SamplerAsAsked(es: seq<Event>, i: Id)
    requires Possible(es) && i in Run(es).gl.samplers
    ensures var q := Run(es).gl.samplers[i];
            && Values(q.current + q.pending) == ParamsOf(es, i)
            && Values(q.current) == ParamsOf(UpTo(es, OfSampler(i)), i)
  {
    hide Values, Inv, Allowed, Step, Reaches, ReachedBy, S.Sampler.SetParameter, Fits;
    ThereIsLong(es, OfSampler(i));
    var init, e := es[..|es| - 1], es[|es| - 1];
    var s := Run(init);
    RunKeeps(init);
    LeafAfter(s, e, OfSampler(i));
    ReachesIff(init, e, OfSampler(i));
    ReachedByCommit(s, e, OfSampler(i));
    if i in s.gl.samplers {
      SamplerAsAsked(init, i);
      var q := s.gl.samplers[i];
      assert q.current + q.pending + map[] == q.current + q.pending;
      if e.OnSampler? {
        ParameterSet(q, e.paramType, e.pname, e.value);
      }
    } else {
      RunTold(init);
      GivenIsNext(init, s);
      UpToIsBefore(init, OfSampler(i));
      UnbornUnasked(UpTo(init, OfSampler(i)), i);
      UnbornUnasked(init, i);
      NoValues();
    }
  }

  lemma NoValues()
    ensures Values(map[]) == map[] && Values(map[] + map[]) == map[]
  {
    var none: map<nat, S.Param> := map[];
    assert none + none == none;
  }

  // ---- memory ---------------------------------------------------------------------------------

  ghost function MemoryIn(s: Scene, e: Event): map<Id, Bytes> {
    if e.Create? && e.creation.NewMemory? then s.gl.shm[s.next := e.creation.bytes]
    else if e.WriteMemory? then s.gl.shm[e.id := e.bytes]
    else if e.Destroy? then s.gl.shm - {e.id}
    else s.gl.shm
  }

  lemma CascadeSparesMemory(s: Scene, e: Event)
    requires Structured(s) && Allowed(s, e) && Cascades(e)
    ensures Step(s, e).gl.shm == s.gl.shm
  {
    hide Tree, TechniquesOf, CommitReachAll, SyncReachAll;
    if e.CommitRequest? {
      CommitParts(s, e.id);
    } else if e.MoveApp? {
      MovedKeys(s, e.id, e.polar, e.azimuthal, Memory);
      CommitParts(Moved(s, e.id, e.polar, e.azimuthal), e.id);
    } else if e.SessionEstablished? && !s.session {
      UpParts(s);
    }
  }

  lemma QuietMemory(g: Gl, n: Id, e: Event)
    requires NamesGl(g, e)
    ensures GlAfter(g, n, e).shm ==
            if e.Create? && e.creation.NewMemory? then g.shm[n := e.creation.bytes]
            else if e.WriteMemory? then g.shm[e.id := e.bytes]
            else if e.Destroy? then g.shm - {e.id}
            else g.shm
  {
    hide Made, Requested;
    if e.Create? {
      MadeMemory(g, n, e.creation);
    } else {
      RequestedMemory(g, e);
    }
  }

  lemma MadeMemory(g: Gl, n: Id, c: Creation)
    ensures Made(g, n, c).shm == if c.NewMemory? then g.shm[n := c.bytes] else g.shm
  {
  }

  lemma RequestedMemory(g: Gl, e: Event)
    requires NamesGl(g, e)
    ensures Requested(g, e).shm ==
            if e.WriteMemory? then g.shm[e.id := e.bytes] else if e.Destroy? then g.shm - {e.id} else g.shm
  {
    hide B.Buffer.Requested, T.Texture.Requested, S.Sampler.SetParameter, A.VertexArray.Requested;
    hide Q.Technique.Requested;
  }

  lemma MemoryAfter(s: Scene, e: Event)
    requires Structured(s) && Allowed(s, e)
    ensures Step(s, e).gl.shm == MemoryIn(s, e)
  {
    hide QuietStep, GlAfter, Commit, Moved, SessionUp, DropCopies, Tree, CommitAllowed;
    if Cascades(e) {
      CascadeSparesMemory(s, e);
    } else {
      QuietGraphics(s, e);
      QuietMemory(s.gl, s.next, e);
    }
  }

  lemma {:induction false} MemoryAsTold(es: seq<Event>, m: Id)
    requires Possible(es)
    ensures m in Run(es).gl.shm <==> BytesOf(es, m).Some?
    ensures m in Run(es).gl.shm ==> BytesOf(es, m) == Some(Run(es).gl.shm[m])
  {
    hide Inv, Step, Tree;
    if es != [] {
      var init, e := es[..|es| - 1], es[|es| - 1];
      RunKeeps(init);
      RunTold(init);
      InvIsStructured(Run(init));
      GivenIsNext(init, Run(init));
      MemoryAsTold(init, m);
      MemoryAfter(Run(init), e);
    }
  }

  // ---- buffers --------------------------------------------------------------------------------

  // A request is linked as long as it is asked for; what is current was taken.
  predicate BufferHolds(leaf: Leaf, linked: Option<DataRequest>, taken: Option<Data>) {
    && leaf.BufferLeaf?
    && (match linked
        case None => leaf.data.data.None?
        case Some(r) => leaf.data == B.BufferPending(r.target, r.usage, Some(r.memory)))
    && (match taken
        case None => leaf.taken.data.None?
        case Some(d) => leaf.taken == B.Content(Some(d.bytes), d.target, d.usage))
  }

  lemma BufferCommitHolds(b: B.Buffer, shm: map<Id, Bytes>, linked: Option<DataRequest>, taken: Option<Data>)
    requires BufferHolds(BufferLeafOf(b), linked, taken)
    ensures if linked.Some? && linked.value.memory in shm then
              BufferHolds(BufferLeafOf(b.Commit(shm)), None,
                          Some(Data(linked.value.target, linked.value.usage, shm[linked.value.memory])))
            else BufferHolds(BufferLeafOf(b.Commit(shm)), linked, taken)
  {
  }

  lemma BufferRequestHolds(
    b: B.Buffer, target: nat, usage: nat, m: Id, linked: Option<DataRequest>, taken: Option<Data>)
    requires BufferHolds(BufferLeafOf(b), linked, taken)
    ensures BufferHolds(BufferLeafOf(b.Requested(target, usage, m)), Some(DataRequest(target, usage, m)), taken)
  {
  }

  // In every run: a buffer holds what the last commit that reached it and found
  // a request linked took from its memory.
  lemma {:induction false} BufferAsTaken(es: seq<Event>, b: Id)
    requires Possible(es) && b in Run(es).gl.buffers
    ensures BufferHolds(BufferLeafOf(Run(es).gl.buffers[b]), Linked(es, b), Taken(es, b))
  {
    hide BufferHolds, Inv, Allowed, Step, Reaches, ReachedBy, BufferLeafOf, B.Buffer.Commit, B.Buffer.Requested;
    ThereIsLong(es, OfBuffer(b));
    var init, e := es[..|es| - 1], es[|es| - 1];
    var s := Run(init);
    RunKeeps(init);
    LeafAfter(s, e, OfBuffer(b));
    ReachesIff(init, e, OfBuffer(b));
    ReachedByCommit(s, e, OfBuffer(b));
    if b in s.gl.buffers {
      var linked, taken := Linked(init, b), Taken(init, b);
      BufferAsTaken(init, b);
      if linked.Some? {
        MemoryAsTold(init, linked.value.memory);
      }
      BufferCommitHolds(s.gl.buffers[b], s.gl.shm, linked, taken);
      if e.OnBuffer? && e.id == b {
        BufferRequestHolds(s.gl.buffers[b], e.target, e.usage, e.data, linked, taken);
      }
    } else {
      RunTold(init);
      GivenIsNext(init, s);
      UnbornUnasked(init, b);
      FreshBuffer(s, e, OfBuffer(b));
    }
  }

  lemma FreshBuffer(s: Scene, e: Event, x: Target)
    requires Allowed(s, e) && e.Create? && x.OfBuffer? && Fresh(e.creation, x).Some?
    ensures BufferHolds(Fresh(e.creation, x).value, None, None)
  {
  }

  // ---- textures ----------------------------------------------------------------------------------

  predicate TextureHolds(
    leaf: Leaf, linked: Option<ImageRequest>, taken: Option<T.Upload>, wanted: nat, mipmap: Option<nat>)
  {
    && leaf.TextureLeaf?
    && (match linked
        case None => leaf.image.data.None?
        case Some(r) => leaf.image.image == r.image && leaf.image.data == Some(r.memory))
    && (match taken
        case None => leaf.upload.data.None?
        case Some(u) => leaf.upload == u)
    && leaf.image.mipmapTarget == wanted
    && (mipmap.Some? ==> leaf.mipmap == mipmap.value)
  }

  lemma TextureCommitHolds(
    t: T.Texture, shm: map<Id, Bytes>, linked: Option<ImageRequest>, taken: Option<T.Upload>, wanted: nat,
    mipmap: Option<nat>)
    requires TextureHolds(TextureLeafOf(t), linked, taken, wanted, mipmap)
    ensures var taking := linked.Some? && linked.value.memory in shm;
            TextureHolds(TextureLeafOf(t.Commit(shm)), if taking then None else linked,
                         if taking then Some(T.Upload(linked.value.image, Some(shm[linked.value.memory]))) else taken,
                         0, if wanted != 0 then Some(wanted) else mipmap)
  {
  }

  lemma TextureRequestHolds(
    t: T.Texture, r: T.Request, linked: Option<ImageRequest>, taken: Option<T.Upload>, wanted: nat, mipmap: Option<nat>)
    requires TextureHolds(TextureLeafOf(t), linked, taken, wanted, mipmap)
    ensures match r
            case NewImage2d(image, m) =>
              TextureHolds(TextureLeafOf(t.Requested(r)), Some(ImageRequest(image, m)), taken, wanted, mipmap)
            case GenerateMipmap(target) => TextureHolds(TextureLeafOf(t.Requested(r)), linked, taken, target, mipmap)
  {
  }

  // In every run, of the image and of the mipmap target alike.
  lemma {:induction false} TextureAsTaken(es: seq<Event>, x: Id)
    requires Possible(es) && x in Run(es).gl.textures
    ensures TextureHolds(TextureLeafOf(Run(es).gl.textures[x]), LinkedImage(es, x), TakenImage(es, x),
                         WantedMipmap(es, x), TakenMipmap(es, x))
  {
    hide TextureHolds, Inv, Allowed, Step, Reaches, ReachedBy, TextureLeafOf, T.Texture.Commit, T.Texture.Requested;
    ThereIsLong(es, OfTexture(x));
    var init, e := es[..|es| - 1], es[|es| - 1];
    var s := Run(init);
    RunKeeps(init);
    LeafAfter(s, e, OfTexture(x));
    ReachesIff(init, e, OfTexture(x));
    ReachedByCommit(s, e, OfTexture(x));
    if x in s.gl.textures {
      var linked, taken, wanted, mipmap := LinkedImage(init, x), TakenImage(init, x), WantedMipmap(init, x),
                                           TakenMipmap(init, x);
      TextureAsTaken(init, x);
      if linked.Some? {
        MemoryAsTold(init, linked.value.memory);
      }
      TextureCommitHolds(s.gl.textures[x], s.gl.shm, linked, taken, wanted, mipmap);
      if e.OnTexture? && e.id == x {
        TextureRequestHolds(s.gl.textures[x], e.textureRequest, linked, taken, wanted, mipmap);
      }
    } else {
      RunTold(init);
      GivenIsNext(init, s);
      UnbornUnasked(init, x);
      FreshTexture(e.creation, OfTexture(x));
    }
  }

  lemma FreshTexture(c: Creation, x: Target)
    requires x.OfTexture? && Fresh(c, x).Some?
    ensures TextureHolds(Fresh(c, x).value, None, None, 0, None)
  {
  }
}

// The objects of a scene are those that its events say live.
module AskedLives {
  import opened Common
  import opened Scenes
  import opened SceneInvariant
  import opened SceneCascade
  import opened Asked
  import TB = TextureBindings
  import Q = Techniques

  ghost function GlKeys(g: Gl, k: Kind): set<Id> {
    match k
    case Memory => g.shm.Keys
    case Buffer => g.buffers.Keys
    case Texture => g.textures.Keys
    case Sampler => g.samplers.Keys
    case Shader => g.shaders.Keys
    case Program => g.programs.Keys
    case VertexArray => g.arrays.Keys
    case Technique => g.techniques.Keys
    case _ => {}
  }

  ghost function Keys(s: Scene, k: Kind): set<Id> {
    match k
    case Unit => s.units.Keys
    case Object => s.objects.Keys
    case _ => GlKeys(s.gl, k)
  }

  // Cascades neither make nor end anything.
  lemma CommitKeys(g: Gl, ts: set<Id>, k: Kind)
    ensures GlKeys(CommitTechniques(g, ts), k) == GlKeys(g, k)
  {
    hide CommitReachAll;
  }

  lemma SyncKeys(g: Gl, ts: set<Id>, force: bool, k: Kind)
    ensures GlKeys(SyncTechniques(g, ts, force), k) == GlKeys(g, k)
  {
    hide SyncReachAll;
  }

  lemma DropKeys(g: Gl, k: Kind)
    ensures GlKeys(DropCopies(g), k) == GlKeys(g, k)
  {
  }

  // What a step that is no creation ends.
  ghost function Ended(s: Scene, e: Event, k: Kind): set<Id> {
    match e
    case Destroy(i) => {i}
    case DestroyOwner(i) =>
      (match k
       case Unit => UnitsUnder(s, i)
       case Object => {i}
       case Technique => set t | t in s.gl.techniques && s.gl.techniques[t].unit in UnitsUnder(s, i)
       case _ => {})
    case _ => {}
  }

  lemma QuietKeys(s: Scene, e: Event, k: Kind)
    requires Allowed(s, e) && !Cascades(e) && !e.Create?
    ensures Keys(QuietStep(s, e), k) == Keys(s, k) - Ended(s, e, k)
  {
  }

  lemma CreationKeys(s: Scene, e: Event, k: Kind)
    requires Allowed(s, e) && e.Create?
    ensures Keys(QuietStep(s, e), k) == Keys(s, k) + if k == KindOf(e.creation) then {s.next} else {}
  {
  }

  lemma UprootedKeys(s: Scene, i: Id, k: Kind)
    ensures Keys(Uprooted(s, i), k) == Keys(s, k) - Ended(s, DestroyOwner(i), k)
  {
  }

  lemma CascadeKeys(s: Scene, e: Event, k: Kind)
    requires Structured(s) && Allowed(s, e) && Cascades(e)
    ensures Keys(Step(s, e), k) == Keys(s, k) - Ended(s, e, k)
  {
    hide CommitTechniques, SyncTechniques, DropCopies, Tree, Commit, Moved, SyncObjects, Uprooted;
    if e.CommitRequest? {
      CommitStepKeys(s, e.id, k);
    } else if e.MoveApp? {
      MovedKeys(s, e.id, e.polar, e.azimuthal, k);
      CommitStepKeys(Moved(s, e.id, e.polar, e.azimuthal), e.id, k);
    } else if e.SessionEstablished? && !s.session {
      UpParts(s);
      SyncKeys(s.gl, CommittedOf(s, CommittedObjects(s)), true, k);
    } else if e.DestroyOwner? {
      UprootedKeys(s, e.id, k);
    } else {
      DropKeys(s.gl, k);
    }
  }

  lemma MovedKeys(s: Scene, v: Id, polar: real, azimuthal: real, k: Kind)
    requires Structured(s) && v in s.objects && s.objects[v].app.Some?
    ensures var s1 := Moved(s, v, polar, azimuthal);
            Structured(s1) && Keys(s1, k) == Keys(s, k) && v in s1.objects && s1.objects[v].app.Some?
  {
  }

  lemma CommitStepKeys(s: Scene, v: Id, k: Kind)
    requires Structured(s) && v in s.objects && s.objects[v].app.Some?
    ensures Keys(Commit(s, v), k) == Keys(s, k)
  {
    hide CommitTechniques, SyncTechniques, Tree;
    CommitParts(s, v);
    var ts := TechniquesOf(s, {v});
    CommitKeys(s.gl, ts, k);
    SyncKeys(CommitTechniques(s.gl, ts), ts, false, k);
  }

  lemma KeysAfter(s: Scene, e: Event, k: Kind)
    requires Inv(s) && Allowed(s, e)
    ensures Keys(Step(s, e), k) ==
            if e.Create? then Keys(s, k) + if k == KindOf(e.creation) then {s.next} else {}
            else Keys(s, k) - Ended(s, e, k)
  {
    hide Allowed, QuietStep, Inv;
    InvIsStructured(s);
    if e.Create? {
      CreationKeys(s, e, k);
    } else if Cascades(e) {
      CascadeKeys(s, e, k);
    } else {
      QuietKeys(s, e, k);
    }
  }

  lemma InvIsStructured(s: Scene)
    requires Inv(s)
    ensures Structured(s)
  {
  }

  // ---- one technique in one step --------------------------------------------------

  // Nothing has changed but the copy, and bindings of what is dead.
  ghost predicate SentOnly(q: Q.Technique, q': Q.Technique, live: Q.Live) {
    && q' == q.(current := q.current.(textures := q'.current.textures), proxy := q'.proxy)
    && forall b: TB.Binding :: b.Live(live.textures, live.samplers) ==>
      (b in q'.current.textures.list <==> b in q.current.textures.list)
  }

  // The technique itself makes a request, or is committed.
  ghost function TechniqueIn(s: Scene, e: Event, t: Id): Q.Technique
    requires t in s.gl.techniques
  {
    var q := s.gl.techniques[t];
    if e.OnTechnique? && e.id == t then q.Requested(e.techniqueRequest)
    else if (e.CommitRequest? || e.MoveApp?) && t in TechniquesOf(s, {e.id}) then q.Commit(s.gl.Live())
    else q
  }

  lemma SyncSendsOnly(g: Gl, ts: set<Id>, force: bool, t: Id)
    requires t in g.techniques
    ensures t in SyncTechniques(g, ts, force).techniques
    ensures SentOnly(g.techniques[t], SyncTechniques(g, ts, force).techniques[t], g.Live())
  {
    hide SyncReachAll;
    TB.KeepLiveElements(g.techniques[t].current.textures.list, g.textures.Keys, g.samplers.Keys);
  }

  lemma CommitsOne(g: Gl, ts: set<Id>, t: Id)
    requires t in g.techniques
    ensures t in CommitTechniques(g, ts).techniques && CommitTechniques(g, ts).Live() == g.Live()
    ensures CommitTechniques(g, ts).techniques[t] ==
            if t in ts then g.techniques[t].Commit(g.Live()) else g.techniques[t]
  {
    hide CommitReachAll;
  }

  lemma CommitStepTechnique(s: Scene, v: Id, t: Id)
    requires Structured(s) && v in s.objects && s.objects[v].app.Some? && t in s.gl.techniques
    ensures t in Commit(s, v).gl.techniques
    ensures SentOnly(TechniqueIn(s, CommitRequest(v), t), Commit(s, v).gl.techniques[t], s.gl.Live())
  {
    hide CommitTechniques, SyncTechniques, Tree, Q.Technique.Commit;
    CommitParts(s, v);
    var ts := TechniquesOf(s, {v});
    CommitsOne(s.gl, ts, t);
    SyncSendsOnly(CommitTechniques(s.gl, ts), ts, false, t);
  }

  lemma MadeTechnique(g: Gl, n: Id, c: Creation, t: Id)
    requires n !in g.techniques && t in Made(g, n, c).techniques
    ensures if t in g.techniques then Made(g, n, c).techniques[t] == g.techniques[t]
            else t == n && c.NewTechnique? && Made(g, n, c).techniques[t] == Q.NewTechnique(c.ofUnit)
  {
  }

  lemma RequestedTechnique(g: Gl, e: Event, t: Id)
    requires NamesGl(g, e) && t in Requested(g, e).techniques
    ensures t in g.techniques
    ensures Requested(g, e).techniques[t] ==
            if e.OnTechnique? && e.id == t then g.techniques[t].Requested(e.techniqueRequest) else g.techniques[t]
  {
    hide Q.Technique.Requested;
  }

  lemma QuietTechnique(s: Scene, e: Event, t: Id)
    requires Allowed(s, e) && !Cascades(e) && t in GlAfter(s.gl, s.next, e).techniques && s.next !in s.gl.techniques
    ensures if t in s.gl.techniques then GlAfter(s.gl, s.next, e).techniques[t] == TechniqueIn(s, e, t)
            else t == s.next && e.Create? && e.creation.NewTechnique?
                 && GlAfter(s.gl, s.next, e).techniques[t] == Q.NewTechnique(e.creation.ofUnit)
  {
    hide Q.Technique.Requested, Q.NewTechnique, CommitAllowed, Made, Requested, TechniquesOf;
    if e.Create? {
      MadeTechnique(s.gl, s.next, e.creation, t);
    } else {
      RequestedTechnique(s.gl, e, t);
    }
  }

  lemma MovedTechniques(s: Scene, e: Event, t: Id)
    requires e.MoveApp? && e.id in s.objects && s.objects[e.id].app.Some? && t in s.gl.techniques
    ensures var s1 := Moved(s, e.id, e.polar, e.azimuthal);
            && s1.gl == s.gl && TechniqueIn(s1, CommitRequest(e.id), t) == TechniqueIn(s, e, t)
  {
    hide Q.Technique.Commit;
    assert TechniquesOf(Moved(s, e.id, e.polar, e.azimuthal), {e.id}) == TechniquesOf(s, {e.id});
  }

  lemma UpSendsOnly(s: Scene, t: Id)
    requires Structured(s) && t in s.gl.techniques
    ensures t in SessionUp(s).gl.techniques
    ensures SentOnly(s.gl.techniques[t], SessionUp(s).gl.techniques[t], s.gl.Live())
  {
    hide SyncTechniques, Tree;
    if !s.session {
      UpParts(s);
      SyncSendsOnly(s.gl, CommittedOf(s, CommittedObjects(s)), true, t);
    }
  }

  lemma TechniqueAfter(s: Scene, e: Event, t: Id)
    requires Inv(s) && Allowed(s, e) && t in Step(s, e).gl.techniques
    ensures if t in s.gl.techniques then SentOnly(TechniqueIn(s, e, t), Step(s, e).gl.techniques[t], s.gl.Live())
            else t == s.next && e.Create? && e.creation.NewTechnique?
                 && Step(s, e).gl.techniques[t] == Q.NewTechnique(e.creation.ofUnit)
  {
    hide QuietStep, GlAfter, Commit, Moved, SessionUp, Known, Sound, Shown, Hierarchy, Tree, Q.Technique.Requested;
    hide Q.Technique.Commit, Q.NewTechnique;
    KeysAfter(s, e, Technique);
    NextIsNew(s);
    if e.CommitRequest? {
      CommitStepTechnique(s, e.id, t);
    } else if e.MoveApp? {
      MovedKeys(s, e.id, e.polar, e.azimuthal, Technique);
      MovedTechniques(s, e, t);
      CommitStepTechnique(Moved(s, e.id, e.polar, e.azimuthal), e.id, t);
    } else if e.SessionEstablished? {
      UpSendsOnly(s, t);
    } else if e.SessionLost? || e.DestroyOwner? {
    } else {
      QuietGraphics(s, e);
      QuietTechnique(s, e, t);
    }
  }

  lemma NextIsNew(s: Scene)
    requires Inv(s)
    ensures forall k :: s.next !in Keys(s, k)
  {
  }

  lemma UnitAfter(s: Scene, e: Event, u: Id)
    requires Inv(s) && Allowed(s, e) && u in Step(s, e).units
    ensures if u in s.units then Step(s, e).units[u].owner == s.units[u].owner
            else u == s.next && e.Create? && e.creation.NewUnit? && Step(s, e).units[u].owner == e.creation.ofObject
  {
    hide GlAfter, CommitTechniques, SyncTechniques, Known, Sound, Shown, Hierarchy, Tree;
    KeysAfter(s, e, Unit);
    NextIsNew(s);
  }

  lemma NextAfterStep(s: Scene, e: Event)
    requires Allowed(s, e)
    ensures Step(s, e).next == s.next + if e.Create? then 1 else 0
  {
    hide GlAfter, CommitTechniques, SyncTechniques, CommitAllowed, UnitsAfter, ObjectsAfter;
  }

  // ---- every run --------------------------------------------------------------------

  ghost predicate Parents(es: seq<Event>, s: Scene) {
    && (forall t :: t in s.gl.techniques ==> UnitOf(es, t) == Some(s.gl.techniques[t].unit))
    && (forall u :: u in s.units ==> ObjectOf(es, u) == Some(s.units[u].owner))
  }

  // The scene has given out as many ids as the events say, and holds what they
  // say lives.
  ghost predicate Told(es: seq<Event>, s: Scene) {
    s.next == Given(es) && Parents(es, s) && forall k, i :: i in Keys(s, k) <==> Is(es, k, i)
  }

  lemma Recent(es: seq<Event>, i: Id)
    requires es != []
    ensures var init, e := es[..|es| - 1], es[|es| - 1];
            && MadeBy(es, i) == (if e.Create? && Given(init) == i then Some(e.creation) else MadeBy(init, i))
            && (Lives(es, i) <==> (e.Create? && Given(init) == i) || (Lives(init, i) && !Ends(init, e, i)))
  {
  }

  lemma KindsApart(es: seq<Event>, s: Scene, k: Kind, j: Kind, i: Id)
    requires Told(es, s) && i in Keys(s, k) && i in Keys(s, j)
    ensures k == j
  {
    hide Lives, MadeBy, Keys, Parents;
  }

  // What ends is of one kind, or below a unit or an object.
  lemma EndsIffEnded(es: seq<Event>, s: Scene, e: Event, k: Kind, i: Id)
    requires Told(es, s) && Structured(s) && Allowed(s, e) && !e.Create? && i in Keys(s, k)
    ensures Ends(es, e, i) <==> i in Ended(s, e, k)
  {
    hide Told, Lives, MadeBy, CommitAllowed, AllCommittedUnder;
    if e.DestroyOwner? {
      OwnerEndsIff(es, s, e.id, k, i);
    }
  }

  lemma OwnerEndsIff(es: seq<Event>, s: Scene, j: Id, k: Kind, i: Id)
    requires Told(es, s) && Structured(s) && (j in s.units || j in s.objects) && i in Keys(s, k)
    ensures Ends(es, DestroyOwner(j), i) <==> i in Ended(s, DestroyOwner(j), k)
  {
    hide Lives, MadeBy;
    assert j in Keys(s, Unit) || j in Keys(s, Object);
    assert Is(es, k, i);
  }

  lemma ToldStep(es: seq<Event>, s: Scene, k: Kind, i: Id)
    requires es != [] && Possible(es) && s == Run(es[..|es| - 1]) && Told(es[..|es| - 1], s) && Inv(s)
    ensures i in Keys(Run(es), k) <==> Is(es, k, i)
  {
    hide Keys, Ended, Ends, Lives, MadeBy, Inv, Allowed, Step, Parents;
    var init, e := es[..|es| - 1], es[|es| - 1];
    KeysAfter(s, e, k);
    Recent(es, i);
    NextIsNew(s);
    InvIsStructured(s);
    assert i in Keys(s, k) <==> Is(init, k, i);
    if !e.Create? && i in Keys(s, k) {
      EndsIffEnded(init, s, e, k, i);
    } else if e.Create? {
      NoEnd(init, e, i);
    }
  }

  lemma NoEnd(es: seq<Event>, e: Event, i: Id)
    requires e.Create?
    ensures !Ends(es, e, i)
  {
  }

  lemma ParentsStep(es: seq<Event>, s: Scene)
    requires es != [] && Possible(es) && s == Run(es[..|es| - 1]) && Told(es[..|es| - 1], s) && Inv(s)
    ensures Parents(es, Run(es))
  {
    hide Keys, Lives, MadeBy, Inv, Allowed, Step, TechniqueIn;
    var init, e := es[..|es| - 1], es[|es| - 1];
    NoneIsNext(s);
    forall t | t in Run(es).gl.techniques
      ensures UnitOf(es, t) == Some(Run(es).gl.techniques[t].unit)
    {
      Recent(es, t);
      TechniqueAfter(s, e, t);
      if t in s.gl.techniques {
        SameUnit(s, e, t);
      }
    }
    forall u | u in Run(es).units
      ensures ObjectOf(es, u) == Some(Run(es).units[u].owner)
    {
      Recent(es, u);
      UnitAfter(s, e, u);
    }
  }

  lemma NoneIsNext(s: Scene)
    requires Inv(s)
    ensures s.next !in s.gl.techniques && s.next !in s.units
  {
  }

  lemma SameUnit(s: Scene, e: Event, t: Id)
    requires t in s.gl.techniques
    ensures TechniqueIn(s, e, t).unit == s.gl.techniques[t].unit
  {
  }

  lemma {:induction false} RunTold(es: seq<Event>)
    requires Possible(es)
    ensures Told(es, Run(es))
  {
    hide Keys, Is, Parents, Allowed, Step, Inv;
    if es == [] {
      NothingTold();
    } else {
      var init, e := es[..|es| - 1], es[|es| - 1];
      RunTold(init);
      RunKeeps(init);
      NextAfterStep(Run(init), e);
      ParentsStep(es, Run(init));
      forall k, i
        ensures i in Keys(Run(es), k) <==> Is(es, k, i)
      {
        ToldStep(es, Run(init), k, i);
      }
    }
  }

  lemma NothingTold()
    ensures Told([], EMPTY)
  {
  }
}

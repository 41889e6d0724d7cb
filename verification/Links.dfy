// How techniques, units and virtual objects are tied together, and what the
// scene's cascades are when they are walked along these ties.
module Links {
  import opened Common
  import opened Scenes
  import Q = Techniques
  import O = CascadeOrder

  // How the objects are tied together: a technique is made for a unit; a
  // technique listens to a unit's commits and is then given to it; units
  // listen to an object's commits and then join it.
  datatype TechniqueLink = TechniqueLink(unit: Id, committed: bool)
  datatype UnitLink = UnitLink(state: Scenes.RenderingUnit, listener: Option<Id>, technique: Option<Id>)
  datatype ObjectLink = ObjectLink(state: Scenes.VirtualObject, listeners: seq<Id>, units: seq<Id>)

  ghost predicate Distinct(ids: seq<Id>) {
    forall i, j :: 0 <= i < j < |ids| ==> ids[i] != ids[j]
  }

  // The unit has the technique that listens to it iff that has committed.
  ghost predicate UnitTied(u: Id, link: UnitLink, techniques: map<Id, TechniqueLink>) {
    if link.listener.None? then link.technique.None? else
      var t := link.listener.value;
      && t in techniques && techniques[t].unit == u
      && link.technique == (if techniques[t].committed then Some(t) else None)
      && (techniques[t].committed ==> link.state.committed)
  }

  // The units that listen to an object are its own; those that have
  // committed have joined it.
  ghost predicate ObjectTied(v: Id, link: ObjectLink, units: map<Id, UnitLink>) {
    && Distinct(link.listeners) && Distinct(link.units)
    && (forall u :: u in link.listeners ==>
          u in units && units[u].state.owner == v && (units[u].state.committed <==> u in link.units))
    && (forall u :: u in link.units ==> u in link.listeners)
  }

  // Every technique is heard of by its unit, every unit by its object.
  ghost predicate AllTied(
    techniques: map<Id, TechniqueLink>, units: map<Id, UnitLink>, objects: map<Id, ObjectLink>)
  {
    && (forall t :: t in techniques ==> techniques[t].unit in units && units[techniques[t].unit].listener == Some(t))
    && (forall u :: u in units ==>
          UnitTied(u, units[u], techniques) && units[u].state.owner in objects
              && u in objects[units[u].state.owner].listeners)
    && (forall v :: v in objects ==> ObjectTied(v, objects[v], units))
  }

  ghost function Ties(techniques: map<Id, Q.Technique>): map<Id, TechniqueLink> {
    map i | i in techniques :: TechniqueLink(techniques[i].unit, techniques[i].committed)
  }

  lemma TiesCommit(techniques: map<Id, Q.Technique>, t: Id, live: Q.Live)
    requires t in techniques
    ensures Ties(techniques[t := techniques[t].Commit(live)]) == Marked(Ties(techniques), Some(t))
  {
  }

  lemma TiesSync(techniques: map<Id, Q.Technique>, t: Id, force: bool, live: Q.Live)
    requires t in techniques
    ensures Ties(techniques[t := techniques[t].Sync(force, live)]) == Ties(techniques)
  {
  }

  ghost function Marked(techniques: map<Id, TechniqueLink>, t: Option<Id>): map<Id, TechniqueLink> {
    if t.Some? && t.value in techniques then techniques[t.value := techniques[t.value].(committed := true)]
        else techniques
  }

  ghost function Committed(link: UnitLink): UnitLink {
    link.(state := link.state.(committed := true), technique := link.listener)
  }

  lemma JoinKeepsTies(units: map<Id, UnitLink>, units': map<Id, UnitLink>, v: Id, link: ObjectLink, u: Id)
    requires u in units && units[u].state.owner == v && u in link.listeners && ObjectTied(v, link, units)
    requires units' == units[u := Committed(units[u])]
    ensures ObjectTied(v, Joined(link, u, units[u].state.committed), units')
  {
    var joined := Joined(link, u, units[u].state.committed);
    assert forall w :: w in joined.units <==> w in link.units || w == u;
  }

  lemma MarkKeepsTies(techniques: map<Id, TechniqueLink>, units: map<Id, UnitLink>, u: Id, i: Id)
    requires u in units && i in units && UnitTied(u, units[u], techniques) && UnitTied(i, units[i], techniques)
    ensures UnitTied(i, units[u := Committed(units[u])][i], Marked(techniques, units[u].listener))
  {
  }

  // When a unit and its technique have committed, all is still tied.
  lemma CommitKeepsTies(
    techniques: map<Id, TechniqueLink>, units: map<Id, UnitLink>, objects: map<Id, ObjectLink>, u: Id)
    requires AllTied(techniques, units, objects) && u in units
    ensures var link := units[u];
            AllTied(Marked(techniques, link.listener), units[u := Committed(link)],
                    objects[link.state.owner := Joined(objects[link.state.owner], u, link.state.committed)])
  {
    hide UnitTied, ObjectTied;
    var link := units[u];
    var units' := units[u := Committed(link)];
    forall i | i in units
      ensures UnitTied(i, units'[i], Marked(techniques, link.listener))
    {
      MarkKeepsTies(techniques, units, u, i);
    }
    JoinKeepsTies(units, units', link.state.owner, objects[link.state.owner], u);
    forall v | v in objects && v != link.state.owner
      ensures ObjectTied(v, objects[v], units')
    {
      OtherKeepsTies(units, units', v, objects[v], u);
    }
  }

  lemma OtherKeepsTies(units: map<Id, UnitLink>, units': map<Id, UnitLink>, v: Id, link: ObjectLink, u: Id)
    requires ObjectTied(v, link, units) && (u in units ==> units[u].state.owner != v)
    requires forall i :: i in units && i != u ==> i in units' && units'[i] == units[i]
    ensures ObjectTied(v, link, units')
  {
  }

  ghost function Joined(link: ObjectLink, u: Id, committed: bool): ObjectLink {
    link.(units := link.units + if committed then [] else [u])
  }

  ghost function UnitStates(units: map<Id, UnitLink>): map<Id, Scenes.RenderingUnit> {
    map u | u in units :: units[u].state
  }

  ghost function ObjectStates(objects: map<Id, ObjectLink>): map<Id, Scenes.VirtualObject> {
    map v | v in objects :: objects[v].state
  }

  lemma CommitReachOne(g: Gl, t: Id)
    requires t in g.techniques
    ensures CommitReachAll(g, {t}) == CommitReach(g, g.techniques[t])
  {
    hide CommitReach, Together;
    assert CommitReaches(g, {t}) == map[t := CommitReach(g, g.techniques[t])];
    O.TogetherOne(t, CommitReach(g, g.techniques[t]));
  }

  lemma SyncReachOne(g: Gl, t: Id)
    requires t in g.techniques
    ensures SyncReachAll(g, {t}) == SyncReach(g, g.techniques[t])
  {
    hide SyncReach, Together;
    assert SyncReaches(g, {t}) == map[t := SyncReach(g, g.techniques[t])];
    O.TogetherOne(t, SyncReach(g, g.techniques[t]));
  }

  // A technique's own cascade, next to all the other techniques.
  lemma CommitOne(l: Gl, g: Gl, t: Id, after: Gl)
    requires t in g.techniques && g == l.(techniques := g.techniques)
    requires after == CommitLeaves(l, CommitReach(l, g.techniques[t])).(
               techniques := g.techniques[t := g.techniques[t].Commit(g.Live())])
    ensures after == CommitTechniques(g, {t})
  {
    CommitReachOne(g, t);
    assert g.Live() == l.Live();
    assert CommitReach(l, g.techniques[t]) == CommitReach(g, g.techniques[t]);
  }

  lemma SyncOne(l: Gl, g: Gl, t: Id, force: bool, after: Gl)
    requires t in g.techniques && g == l.(techniques := g.techniques)
    requires after == SyncLeaves(l, SyncReach(l, g.techniques[t]), force).(
               techniques := g.techniques[t := g.techniques[t].Sync(force, g.Live())])
    ensures after == SyncTechniques(g, {t}, force)
  {
    SyncReachOne(g, t);
    assert SyncReach(l, g.techniques[t]) == SyncReach(g, g.techniques[t]);
  }

  lemma CommitNothing(g: Gl)
    ensures CommitTechniques(g, {}) == g
  {
    assert CommitReachAll(g, {}) == Reach({}, {}, {}, {}, {}, {});
    var g' := CommitTechniques(g, {});
    assert g'.buffers == g.buffers && g'.textures == g.textures && g'.samplers == g.samplers;
    assert g'.programs == g.programs && g'.arrays == g.arrays && g'.techniques == g.techniques;
  }

  lemma SyncNothing(g: Gl, force: bool)
    ensures SyncTechniques(g, {}, force) == g
  {
    assert SyncReachAll(g, {}) == Reach({}, {}, {}, {}, {}, {});
    var g' := SyncTechniques(g, {}, force);
    assert g'.buffers == g.buffers && g'.textures == g.textures && g'.samplers == g.samplers;
    assert g'.shaders == g.shaders && g'.programs == g.programs && g'.arrays == g.arrays;
    assert g'.techniques == g.techniques;
  }

  lemma MarkedTies(u: Id, link: UnitLink, techniques: map<Id, TechniqueLink>)
    requires UnitTied(u, link, techniques) && link.state.committed && link.listener.Some?
    ensures UnitTied(u, Committed(link), Marked(techniques, link.listener))
  {
  }

  // The techniques that hear of an object's commit.
  ghost function Heard(units: map<Id, UnitLink>, us: seq<Id>): set<Id> {
    set i | 0 <= i < |us| && us[i] in units && units[us[i]].listener.Some? :: units[us[i]].listener.value
  }

  lemma HeardNext(
    techniques: map<Id, TechniqueLink>, units: map<Id, UnitLink>, objects: map<Id, ObjectLink>, v: Id, i: nat)
    requires AllTied(techniques, units, objects) && v in objects && i < |objects[v].listeners|
    ensures var us := objects[v].listeners;
            && us[i] in units && units[us[i]].state.owner == v && UnitTied(us[i], units[us[i]], techniques)
            && Heard(units, us[..i + 1]) == Heard(units, us[..i]) + Opt(units[us[i]].listener)
            && Heard(units, us[..i]) !! Opt(units[us[i]].listener)
  {
    var us := objects[v].listeners;
    var u := us[i];
    assert ObjectTied(v, objects[v], units);
    assert us[..i + 1] == us[..i] + [u];
    forall t | t in Heard(units, us[..i])
      ensures Some(t) != units[u].listener
    {
      var k :| 0 <= k < i && us[k] in units && units[us[k]].listener == Some(t);
      assert us[k] != u;
      assert UnitTied(us[k], units[us[k]], techniques);
    }
  }

  ghost function CommitLinks(units: map<Id, UnitLink>, us: seq<Id>): map<Id, UnitLink> {
    map u | u in units :: if u in us then Committed(units[u]) else units[u]
  }

  lemma NothingHeard(units: map<Id, UnitLink>, us: seq<Id>)
    ensures Heard(units, us[..0]) == {} && CommitLinks(units, us[..0]) == units
  {
  }

  // What one more commit does, on the state at the start of the cascade.
  lemma CommitTurn(
    techniques: map<Id, TechniqueLink>, units: map<Id, UnitLink>, objects: map<Id, ObjectLink>, v: Id, i: nat, g: Gl)
    requires AllTied(techniques, units, objects) && v in objects && i < |objects[v].listeners|
    ensures var us, now := objects[v].listeners, CommitLinks(units, objects[v].listeners[..i]);
            && us[i] in now
            && now[us[i] := Committed(now[us[i]])] == CommitLinks(units, us[..i + 1])
            && CommitTechniques(CommitTechniques(g, Heard(units, us[..i])), Opt(now[us[i]].listener)) ==
               CommitTechniques(g, Heard(units, us[..i + 1]))
  {
    hide CommitTechniques;
    var us := objects[v].listeners;
    HeardNext(techniques, units, objects, v, i);
    O.CommitInAnyOrder(g, Heard(units, us[..i]), Opt(units[us[i]].listener));
    assert us[..i + 1] == us[..i] + [us[i]];
  }

  ghost function Copied(link: UnitLink): UnitLink {
    link.(state := link.state.(proxy := true))
  }

  lemma CopyKeepsTies(
    techniques: map<Id, TechniqueLink>, units: map<Id, UnitLink>, objects: map<Id, ObjectLink>, u: Id)
    requires AllTied(techniques, units, objects) && u in units
    ensures AllTied(techniques, units[u := Copied(units[u])], objects)
  {
    var units' := units[u := Copied(units[u])];
    forall i | i in units
      ensures UnitTied(i, units'[i], techniques)
    {
      assert UnitTied(i, units[i], techniques);
    }
    forall v | v in objects
      ensures ObjectTied(v, objects[v], units')
    {
      assert ObjectTied(v, objects[v], units);
    }
  }

  // The techniques that the units of a list have been given.
  ghost function Held(units: map<Id, UnitLink>, us: seq<Id>): set<Id> {
    set i | 0 <= i < |us| && us[i] in units && units[us[i]].technique.Some? :: units[us[i]].technique.value
  }

  lemma HeldNext(
    techniques: map<Id, TechniqueLink>, units: map<Id, UnitLink>, objects: map<Id, ObjectLink>, v: Id, i: nat)
    requires AllTied(techniques, units, objects) && v in objects && i < |objects[v].units|
    ensures var us := objects[v].units;
            && us[i] in units && units[us[i]].state.owner == v && UnitTied(us[i], units[us[i]], techniques)
            && Held(units, us[..i + 1]) == Held(units, us[..i]) + Opt(units[us[i]].technique)
            && Held(units, us[..i]) !! Opt(units[us[i]].technique)
  {
    var us := objects[v].units;
    var u := us[i];
    assert ObjectTied(v, objects[v], units);
    assert u in us;
    assert us[..i + 1] == us[..i] + [u];
    forall t | t in Held(units, us[..i])
      ensures Some(t) != units[u].technique
    {
      var k :| 0 <= k < i && us[k] in units && units[us[k]].technique == Some(t);
      assert us[k] != u;
      assert UnitTied(us[k], units[us[k]], techniques);
    }
  }

  ghost function CopyLinks(units: map<Id, UnitLink>, us: seq<Id>): map<Id, UnitLink> {
    map u | u in units :: if u in us then Copied(units[u]) else units[u]
  }

  lemma NothingHeld(units: map<Id, UnitLink>, us: seq<Id>)
    ensures Held(units, us[..0]) == {} && CopyLinks(units, us[..0]) == units
  {
  }

  lemma SyncTurn(
    techniques: map<Id, TechniqueLink>, units: map<Id, UnitLink>, objects: map<Id, ObjectLink>, v: Id, i: nat, g: Gl,
    force: bool)
    requires AllTied(techniques, units, objects) && v in objects && i < |objects[v].units|
    ensures var us, now := objects[v].units, CopyLinks(units, objects[v].units[..i]);
            && us[i] in now
            && now[us[i] := Copied(now[us[i]])] == CopyLinks(units, us[..i + 1])
            && SyncTechniques(SyncTechniques(g, Held(units, us[..i]), force), Opt(now[us[i]].technique), force) ==
               SyncTechniques(g, Held(units, us[..i + 1]), force)
  {
    hide SyncTechniques;
    var us := objects[v].units;
    HeldNext(techniques, units, objects, v, i);
    O.SyncInAnyOrder(g, Held(units, us[..i]), Opt(units[us[i]].technique), force);
    assert us[..i + 1] == us[..i] + [us[i]];
  }

  // The technique made for each unit is the one that hears of its commits.
  lemma HeardAll(s: Scene, units: map<Id, UnitLink>, objects: map<Id, ObjectLink>, v: Id)
    requires AllTied(Ties(s.gl.techniques), units, objects) && s.units == UnitStates(units) && v in objects
    ensures Heard(units, objects[v].listeners) == TechniquesOf(s, {v})
  {
    var us, ts := objects[v].listeners, Ties(s.gl.techniques);
    assert ObjectTied(v, objects[v], units);
    forall t | t in TechniquesOf(s, {v})
      ensures t in Heard(units, us)
    {
      assert t in ts && units[ts[t].unit].listener == Some(t);
      var k :| 0 <= k < |us| && us[k] == ts[t].unit;
    }
    forall t | t in Heard(units, us)
      ensures t in TechniquesOf(s, {v})
    {
      var k :| 0 <= k < |us| && us[k] in units && units[us[k]].listener == Some(t);
      assert UnitTied(us[k], units[us[k]], ts);
    }
  }

  // The techniques that joined units hold are those that have committed.
  lemma HeldAll(s: Scene, units: map<Id, UnitLink>, objects: map<Id, ObjectLink>, v: Id)
    requires AllTied(Ties(s.gl.techniques), units, objects) && s.units == UnitStates(units) && v in objects
    ensures Held(units, objects[v].units) == CommittedOf(s, {v})
    ensures forall u :: u in units ==>
            (u in objects[v].units <==> units[u].state.owner == v && units[u].state.committed)
  {
    var us, ts := objects[v].units, Ties(s.gl.techniques);
    assert ObjectTied(v, objects[v], units);
    forall t | t in CommittedOf(s, {v})
      ensures t in Held(units, us)
    {
      var u := ts[t].unit;
      assert units[u].listener == Some(t) && UnitTied(u, units[u], ts);
      var k :| 0 <= k < |us| && us[k] == u;
    }
    forall t | t in Held(units, us)
      ensures t in CommittedOf(s, {v})
    {
      var k :| 0 <= k < |us| && us[k] in units && units[us[k]].technique == Some(t);
      assert us[k] in us && UnitTied(us[k], units[us[k]], ts);
    }
  }

  lemma CommitIsScenes(s: Scene, units: map<Id, UnitLink>, objects: map<Id, ObjectLink>, v: Id, s': Scene)
    requires AllTied(Ties(s.gl.techniques), units, objects) && s.units == UnitStates(units)
    requires v in objects && v in s.objects
    requires s'.gl == CommitTechniques(s.gl, Heard(units, objects[v].listeners))
    requires s'.units == UnitStates(CommitLinks(units, objects[v].listeners))
    requires s' == s.(gl := s'.gl, units := s'.units, objects := s.objects[v := s.objects[v].(committed := true)])
    ensures s' == CommitObject(s, v)
  {
    hide CommitTechniques;
    HeardAll(s, units, objects, v);
    assert ObjectTied(v, objects[v], units);
    assert s'.units == Scenes.CommitUnits(s.units, v);
  }

  lemma CopiedUnits(s: Scene, units: map<Id, UnitLink>, objects: map<Id, ObjectLink>, v: Id)
    requires AllTied(Ties(s.gl.techniques), units, objects) && s.units == UnitStates(units) && v in objects
    ensures UnitStates(CopyLinks(units, objects[v].units)) == SyncUnits(s.units, {v})
  {
    hide Held, CommittedOf, AllTied, Ties;
    HeldAll(s, units, objects, v);
  }

  lemma SyncIsScenes(s: Scene, units: map<Id, UnitLink>, objects: map<Id, ObjectLink>, v: Id, force: bool, s': Scene)
    requires AllTied(Ties(s.gl.techniques), units, objects) && s.units == UnitStates(units)
    requires v in objects && v in s.objects && s.objects[v].app.Some?
    requires s'.gl == SyncTechniques(s.gl, Held(units, objects[v].units), force)
    requires s'.units == UnitStates(CopyLinks(units, objects[v].units))
    requires s' == s.(gl := s'.gl, units := s'.units,
             objects := s.objects[v := s.objects[v].(proxy := s.objects[v].app)])
    ensures s' == SyncObjects(s, {v}, force)
  {
    hide SyncTechniques, AllTied, Held, CommittedOf, SyncUnits, UnitStates, CopyLinks;
    HeldAll(s, units, objects, v);
    CopiedUnits(s, units, objects, v);
    assert WithApp(s, {v}) == {v};
    assert s'.objects == SyncOwners(s.objects, {v});
  }

  lemma NoAppNoSync(s: Scene, v: Id, force: bool)
    requires v in s.objects && s.objects[v].app.None?
    ensures SyncObjects(s, {v}, force) == s
  {
    assert WithApp(s, {v}) == {};
    assert CommittedOf(s, {}) == {};
    SyncNothing(s.gl, force);
    assert Scenes.SyncUnits(s.units, {}) == s.units && SyncOwners(s.objects, {}) == s.objects;
  }

  lemma StateKeepsTies(
    techniques: map<Id, TechniqueLink>, units: map<Id, UnitLink>, objects: map<Id, ObjectLink>, v: Id,
    state: Scenes.VirtualObject)
    requires AllTied(techniques, units, objects) && v in objects
    ensures AllTied(techniques, units, objects[v := objects[v].(state := state)])
  {
    forall o | o in objects
      ensures ObjectTied(o, objects[v := objects[v].(state := state)][o], units)
    {
      assert ObjectTied(o, objects[o], units);
    }
  }

  lemma NothingSent(s: Scene, force: bool)
    ensures SyncObjects(s, {}, force) == s
  {
    assert WithApp(s, {}) == {} && CommittedOf(s, {}) == {};
    SyncNothing(s.gl, force);
    assert Scenes.SyncUnits(s.units, {}) == s.units && SyncOwners(s.objects, {}) == s.objects;
  }

  // ---- new objects --------------------------------------------------------------------

  lemma NewObjectTied(
    techniques: map<Id, TechniqueLink>, units: map<Id, UnitLink>, objects: map<Id, ObjectLink>, v: Id)
    requires AllTied(techniques, units, objects) && v !in objects
    ensures AllTied(techniques, units, objects[v := ObjectLink(VirtualObject(false, None, None), [], [])])
  {
    assert forall o :: o in objects ==> ObjectTied(o, objects[o], units);
  }

  lemma NewUnitTied(
    techniques: map<Id, TechniqueLink>, units: map<Id, UnitLink>, objects: map<Id, ObjectLink>, v: Id, u: Id)
    requires AllTied(techniques, units, objects) && v in objects && u !in units
    ensures AllTied(techniques, units[u := UnitLink(RenderingUnit(v, false, false), None, None)],
                    objects[v := objects[v].(listeners := objects[v].listeners + [u])])
  {
    hide UnitTied, ObjectTied;
    var units' := units[u := UnitLink(RenderingUnit(v, false, false), None, None)];
    NewListenerTied(units, units', v, objects[v], u);
    NewlyTied(u, units'[u], techniques);
    forall o | o in objects && o != v
      ensures ObjectTied(o, objects[o], units')
    {
      OtherKeepsTies(units, units', o, objects[o], u);
    }
  }

  lemma NewlyTied(u: Id, link: UnitLink, techniques: map<Id, TechniqueLink>)
    requires link.listener.None? && link.technique.None?
    ensures UnitTied(u, link, techniques)
  {
  }

  lemma NewListenerTied(units: map<Id, UnitLink>, units': map<Id, UnitLink>, v: Id, link: ObjectLink, u: Id)
    requires u !in units && ObjectTied(v, link, units)
    requires units' == units[u := UnitLink(RenderingUnit(v, false, false), None, None)]
    ensures ObjectTied(v, link.(listeners := link.listeners + [u]), units')
  {
  }

  lemma NewTechniqueTied(
    techniques: map<Id, TechniqueLink>, units: map<Id, UnitLink>, objects: map<Id, ObjectLink>, u: Id, t: Id)
    requires AllTied(techniques, units, objects) && u in units && t !in techniques
    requires forall i :: i in techniques ==> techniques[i].unit != u
    ensures AllTied(techniques[t := TechniqueLink(u, false)], units[u := units[u].(listener := Some(t))], objects)
  {
    var techniques', units' := techniques[t := TechniqueLink(u, false)], units[u := units[u].(listener := Some(t))];
    assert UnitTied(u, units[u], techniques);
    forall i | i in units
      ensures UnitTied(i, units'[i], techniques')
    {
      assert UnitTied(i, units[i], techniques);
    }
    forall o | o in objects
      ensures ObjectTied(o, objects[o], units')
    {
      assert ObjectTied(o, objects[o], units);
    }
  }

  lemma UnitIsScenes(s: Scene, units: map<Id, UnitLink>, v: Id, u: Id)
    requires s.units == UnitStates(units) && v in s.objects && u == s.next
    ensures QuietStep(s, Create(NewUnit(v))) ==
            s.(next := u + 1, units := UnitStates(units[u := UnitLink(RenderingUnit(v, false, false), None, None)]))
  {
    assert UnitStates(units[u := UnitLink(RenderingUnit(v, false, false), None, None)]) ==
           UnitStates(units)[u := RenderingUnit(v, false, false)];
  }

  // No technique is made for a unit that none listens to.
  lemma Unheard(techniques: map<Id, TechniqueLink>, units: map<Id, UnitLink>, objects: map<Id, ObjectLink>, u: Id)
    requires AllTied(techniques, units, objects) && u in units && units[u].listener.None?
    ensures forall t :: t in techniques ==> techniques[t].unit != u
  {
  }

  lemma TechniqueIsScenes(s: Scene, units: map<Id, UnitLink>, u: Id, t: Id)
    requires s.units == UnitStates(units) && u in units && t == s.next
    requires forall i :: i in Ties(s.gl.techniques) ==> Ties(s.gl.techniques)[i].unit != u
    ensures Allowed(s, Create(NewTechnique(u)))
    ensures Ties(s.gl.techniques[t := Q.NewTechnique(u)]) == Ties(s.gl.techniques)[t := TechniqueLink(u, false)]
    ensures QuietStep(s, Create(NewTechnique(u))) ==
            s.(next := t + 1, gl := s.gl.(techniques := s.gl.techniques[t := Q.NewTechnique(u)]),
               units := UnitStates(units[u := units[u].(listener := Some(t))]))
  {
    assert forall i :: i in s.gl.techniques ==> i in Ties(s.gl.techniques);
    assert UnitStates(units[u := units[u].(listener := Some(t))]) == UnitStates(units);
  }

  lemma ObjectIsScenes(s: Scene, v: Id)
    requires v == s.next
    ensures QuietStep(s, Create(NewObject)) ==
            s.(next := v + 1, objects := s.objects[v := VirtualObject(false, None, None)])
  {
  }
}

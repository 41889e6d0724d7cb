// Virtual objects and rendering units: the upper part of the cascade. Each
// object changes its own fields and calls the next, and a whole cascade is
// proved to be the one step by which the scene describes it.
module VirtualObjects {
  import opened Common
  import opened Scenes
  import opened Links
  import Q = Techniques
  import BT = BaseTechniques
  import O = CascadeOrder

  class RenderingUnit {
    const id: Id
    const owner: Id
    var committed: bool
    var technique: Option<Id>
    var listener: Option<Id>
    var proxy: bool

    constructor (id: Id, owner: Id)
      ensures this.id == id && this.owner == owner
      ensures Link() == UnitLink(Scenes.RenderingUnit(owner, false, false), None, None)
    {
      this.id, this.owner := id, owner;
      committed, proxy, technique, listener := false, false, None, None;
    }

    function State(): Scenes.RenderingUnit
      reads this
    {
      Scenes.RenderingUnit(owner, committed, proxy)
    }

    function Link(): UnitLink
      reads this
    {
      UnitLink(State(), listener, technique)
    }

    // A second technique is a protocol error and is not taken.
    method SetTechnique(t: Option<Id>) returns (error: bool)
      modifies this`technique
      ensures error == (t.Some? && old(technique).Some?)
      ensures technique == if error then old(technique) else t
    {
      error := t.Some? && technique.Some?;
      if !error {
        technique := t;
      }
    }

    lemma Mine(w: World)
      requires w.Filed() && id in w.units && w.units[id] == this
      ensures id in w.UnitLinks() && w.UnitLinks()[id] == Link()
    {
    }

    // When nothing but one unit has changed, nothing but its links has.
    twostate lemma OnlyUnit(w: World)
      requires w.Filed() && id in w.units && w.units[id] == this
      requires forall u :: u in w.units.Values && u != this ==> unchanged(u)
      ensures w.UnitLinks() == old(w.UnitLinks())[id := Link()]
    {
      forall i | i in w.units && i != id
        ensures w.units[i].Link() == old(w.UnitLinks())[i]
      {
        assert w.units[i].id == i;
        assert w.units[i] in w.units.Values && w.units[i] != this;
      }
    }

    // The unit commits; all the others stay as they were.
    method Commit(w: World, parent: VirtualObject, shm: map<Id, Bytes>)
      requires Registered(w, parent) && Linked(w) && Ready(w, this)
      requires id in w.units && w.units[id] == this && this.owner == parent.id
      modifies w.Below(), `technique, `committed, parent`units
      ensures id in old(w.UnitLinks())
      ensures w.Graphics(shm) == CommitTechniques(old(w.Graphics(shm)), Opt(old(w.UnitLinks())[id].listener))
      ensures w.UnitLinks() == old(w.UnitLinks())[id := Committed(old(w.UnitLinks())[id])]
      ensures Linked(w)
    {
      hide CommitTechniques, World.Filed, World.Graphics, World.TechniqueLinks, World.UnitLinks, World.ObjectLinks;
      hide Marked, AllTied, UnitTied, ObjectTied;
      ghost var units, objects := w.UnitLinks(), w.ObjectLinks();
      Mine(w);
      parent.Mine(w);
      CommitKeepsTies(w.TechniqueLinks(), units, objects, id);
      w.UnitsApart();
      CommitUnit(w, this, parent, shm);
      OnlyUnit(w);
      parent.OnlyObject(w);
    }

    method Sync(
      w: World, parent: VirtualObject, session: bool, force: bool, ghost shm: map<Id, Bytes>)
      requires session && parent.proxy.Some? && Registered(w, parent) && Linked(w) && Ready(w, this)
      requires id in w.units && w.units[id] == this && this.owner == parent.id
      modifies w.Below(), `proxy
      ensures id in old(w.UnitLinks())
      ensures w.Graphics(shm) == SyncTechniques(old(w.Graphics(shm)), Opt(old(w.UnitLinks())[id].technique), force)
      ensures w.UnitLinks() == old(w.UnitLinks())[id := Copied(old(w.UnitLinks())[id])]
      ensures w.ObjectLinks() == old(w.ObjectLinks()) && Linked(w)
    {
      hide SyncTechniques, World.Filed, World.Graphics, World.TechniqueLinks, World.UnitLinks, World.ObjectLinks;
      hide AllTied, UnitTied, ObjectTied;
      ghost var units := w.UnitLinks();
      Mine(w);
      CopyKeepsTies(w.TechniqueLinks(), units, w.ObjectLinks(), id);
      w.UnitsApart();
      SyncUnit(w, this, session, parent.proxy.Some?, force, shm);
      OnlyUnit(w);
    }
  }

  class VirtualObject {
    const id: Id
    var committed: bool
    var app: Option<Pose>
    var listeners: seq<Id>
    var units: seq<Id>
    var proxy: Option<Pose>

    constructor (id: Id)
      ensures this.id == id
      ensures Link() == ObjectLink(Scenes.VirtualObject(false, None, None), [], [])
    {
      this.id := id;
      committed, app, proxy, listeners, units := false, None, None, [], [];
    }

    function State(): Scenes.VirtualObject
      reads `committed, `app, `proxy
    {
      Scenes.VirtualObject(committed, app, proxy)
    }

    function Link(): ObjectLink
      reads this
    {
      ObjectLink(State(), listeners, units)
    }

    method AddRenderingUnit(u: Id)
      modifies this`units
      ensures units == old(units) + [u]
    {
      units := units + [u];
    }

    lemma Mine(w: World)
      requires Registered(w, this)
      ensures id in w.Objects() && w.Objects()[id] == State() && id in w.ObjectLinks() && w.ObjectLinks()[id] == Link()
    {
    }

    // When nothing but one object has changed, nothing but its links has.
    twostate lemma OnlyObject(w: World)
      requires Registered(w, this)
      requires forall v :: v in w.objects.Values && v != this ==> unchanged(v)
      ensures w.ObjectLinks() == old(w.ObjectLinks())[id := Link()]
    {
      forall i | i in w.objects && i != id
        ensures w.objects[i].Link() == old(w.ObjectLinks())[i]
      {
        assert w.objects[i].id == i;
        assert w.objects[i] in w.objects.Values && w.objects[i] != this;
      }
    }

    // When nothing but the state of one object has changed, all is still tied.
    twostate lemma OnlyState(w: World)
      requires Registered(w, this) && old(Linked(w)) && unchanged(w.Below()) && unchanged(w.units.Values)
      requires unchanged(`listeners) && unchanged(`units)
      requires forall v :: v in w.objects.Values && v != this ==> unchanged(v)
      ensures Linked(w)
      ensures w.Objects() == old(w.Objects())[id := State()]
    {
      hide World.TechniqueLinks, World.UnitLinks, AllTied;
      ghost var objects := old(w.ObjectLinks());
      OnlyObject(w);
      StateKeepsTies(w.TechniqueLinks(), w.UnitLinks(), objects, id, State());
      assert old(w.Objects()) == ObjectStates(objects) && w.Objects() == ObjectStates(w.ObjectLinks());
    }

    // The object's copy is made, if need be, and moved to where the app is.
    method Place(w: World, session: bool, ghost shm: map<Id, Bytes>)
      requires session && Registered(w, this) && Linked(w) && app.Some?
      modifies `proxy
      ensures w.Graphics(shm) == old(w.Graphics(shm)) && w.TechniqueLinks() == old(w.TechniqueLinks())
      ensures w.UnitLinks() == old(w.UnitLinks()) && Linked(w) && proxy.Some?
      ensures w.Objects() == old(w.Objects())[id := old(State()).(proxy := app)]
    {
      hide World.Graphics, World.TechniqueLinks, World.Objects, World.Filed, Linked;
      w.UnitsApart();
      if proxy.None? {
        proxy := Some(ORIGIN);
      }
      proxy := app;
      OnlyState(w);
    }

    method Sync(w: World, session: bool, force: bool, ghost next: Id, ghost shm: map<Id, Bytes>)
      requires session && Registered(w, this) && Linked(w)
      modifies w.Below(), w.units.Values`proxy, `proxy
      ensures SceneOf(w, session, next, shm) == SyncObjects(old(SceneOf(w, session, next, shm)), {id}, force)
      ensures Linked(w)
    {
      hide World.Filed, World.Graphics, World.TechniqueLinks, World.UnitLinks, World.Objects, World.ObjectLinks;
      hide AllTied, SyncObjects;
      hide SyncTechniques, Held, UnitStates, ObjectTied;
      ghost var s, units, objects := SceneOf(w, session, next, shm), w.UnitLinks(), w.ObjectLinks();
      Mine(w);
      if app.None? {
        NoAppNoSync(s, id, force);
        return;
      }
      w.UnitsApart();
      TiesInScene(w, shm);
      Place(w, session, shm);
      SyncEvery(w, this, session, force, shm);
      SyncIsScenes(s, units, objects, id, force, SceneOf(w, session, next, shm));
    }

    method Mark(w: World, ghost shm: map<Id, Bytes>)
      requires Registered(w, this) && Linked(w)
      modifies `committed
      ensures w.Graphics(shm) == old(w.Graphics(shm)) && w.TechniqueLinks() == old(w.TechniqueLinks())
      ensures w.UnitLinks() == old(w.UnitLinks()) && Linked(w)
      ensures w.Objects() == old(w.Objects())[id := old(State()).(committed := true)]
    {
      hide World.Graphics, World.TechniqueLinks, World.Objects, World.Filed, Linked;
      w.UnitsApart();
      committed := true;
      OnlyState(w);
    }

    method CommitCascade(w: World, ghost session: bool, ghost next: Id, shm: map<Id, Bytes>)
      requires Registered(w, this) && Linked(w)
      modifies w.Below(), w.units.Values`technique, w.units.Values`committed, `units, `committed
      ensures SceneOf(w, session, next, shm) == CommitObject(old(SceneOf(w, session, next, shm)), id)
      ensures Linked(w)
    {
      hide World.Filed, World.Graphics, World.TechniqueLinks, World.UnitLinks, World.Objects, World.ObjectLinks;
      hide AllTied, CommitObject;
      hide CommitTechniques, Heard, UnitStates, ObjectTied;
      ghost var s, units, objects := SceneOf(w, session, next, shm), w.UnitLinks(), w.ObjectLinks();
      w.UnitsApart();
      Mine(w);
      TiesInScene(w, shm);
      Mark(w, shm);
      label marked:
      CommitEvery(w, this, shm);
      assert w.Objects() == old@marked(w.Objects());
      CommitIsScenes(s, units, objects, id, SceneOf(w, session, next, shm));
    }

    // The commit request: all that is below commits, and then what is flagged
    // is sent while there is a session.
    method Commit(w: World, session: bool, ghost next: Id, shm: map<Id, Bytes>)
      requires Registered(w, this) && Linked(w)
      modifies w.Below(), w.units.Values`technique, w.units.Values`committed, w.units.Values`proxy
      modifies `units, `committed, `proxy
      ensures SceneOf(w, session, next, shm) == Scenes.Commit(old(SceneOf(w, session, next, shm)), id)
      ensures Linked(w)
    {
      hide World.Filed, World.Graphics, World.UnitLinks, World.Objects, UnitStates, Linked, CommitObject, SyncObjects;
      CommitCascade(w, session, next, shm);
      if session {
        Sync(w, session, false, next, shm);
      }
    }

    method Shift(w: World, polar: real, azimuthal: real, ghost session: bool, ghost next: Id, ghost shm: map<Id, Bytes>)
      requires Registered(w, this) && Linked(w) && app.Some?
      modifies `app
      ensures id in old(SceneOf(w, session, next, shm)).objects
              && old(SceneOf(w, session, next, shm)).objects[id].app.Some?
      ensures SceneOf(w, session, next, shm) == Moved(old(SceneOf(w, session, next, shm)), id, polar, azimuthal)
      ensures Linked(w)
    {
      hide World.Graphics, World.TechniqueLinks, World.UnitLinks, World.Filed, Linked, UnitStates;
      w.UnitsApart();
      app := Some(Pose(app.value.polar + polar, app.value.azimuthal + azimuthal));
      OnlyState(w);
    }

    // Moving the app commits the object from the server's side.
    method Move(w: World, polar: real, azimuthal: real, session: bool, ghost next: Id, shm: map<Id, Bytes>)
      requires Registered(w, this) && Linked(w) && app.Some?
      modifies w.Below(), w.units.Values`technique, w.units.Values`committed, w.units.Values`proxy
      modifies `units, `committed, `proxy, `app
      ensures id in old(SceneOf(w, session, next, shm)).objects
              && old(SceneOf(w, session, next, shm)).objects[id].app.Some?
      ensures SceneOf(w, session, next, shm) ==
              Scenes.Commit(Moved(old(SceneOf(w, session, next, shm)), id, polar, azimuthal), id)
      ensures Linked(w)
    {
      hide World.Filed, SceneOf, Moved, Linked, Scenes.Commit;
      Shift(w, polar, azimuthal, session, next, shm);
      Commit(w, session, next, shm);
    }

    // One listener hears of the new session.
    method SessionEstablished(w: World, session: bool, ghost next: Id, ghost shm: map<Id, Bytes>)
      requires session && Registered(w, this) && Linked(w)
      modifies w.Below(), w.units.Values`proxy, `proxy
      ensures SceneOf(w, session, next, shm) ==
              SyncObjects(old(SceneOf(w, session, next, shm)), if committed then {id} else {}, true)
      ensures Linked(w)
    {
      hide SyncObjects, SceneOf, World.Filed, Linked;
      w.UnitsApart();
      if committed {
        Sync(w, session, true, next, shm);
      } else {
        NothingSent(SceneOf(w, session, next, shm), true);
      }
    }
  }

  // Every live object; `owned` holds the techniques together with their lists.
  datatype World = World(
    leaves: BT.Leaves, techniques: map<Id, BT.GlBaseTechnique>, owned: set<object>, units: map<Id, RenderingUnit>,
    objects: map<Id, VirtualObject>)
  {
    ghost predicate Filed() {
      && leaves.Filed()
      && (forall i :: i in techniques ==> techniques[i].id == i && techniques[i].Valid())
      && (forall i :: i in techniques ==> techniques[i].Repr() <= owned)
      && (forall o :: o in owned ==> !(o is RenderingUnit) && !(o is VirtualObject))
      && (forall i :: i in units ==> units[i].id == i)
      && (forall i :: i in objects ==> objects[i].id == i)
    }

    // What one technique owns is no part of another, nor of a target.
    lemma Apart(t: Id)
      requires Filed() && t in techniques
      ensures techniques[t].Repr() !! leaves.Objects()
      ensures forall i :: i in techniques && i != t ==> techniques[i].Repr() !! techniques[t].Repr()
      ensures forall i :: i in techniques ==> techniques[i].Repr() !! leaves.Objects()
    {
      hide BT.Leaves.Objects, BT.GlBaseTechnique.Repr;
      AllApart();
      forall i | i in techniques && i != t
        ensures techniques[i].Repr() !! techniques[t].Repr()
      {
        ListsApart(techniques[i], techniques[t]);
      }
    }

    lemma ListsApart(a: BT.GlBaseTechnique, b: BT.GlBaseTechnique)
      requires a.Valid() && b.Valid() && a.id != b.id
      ensures a.Repr() !! b.Repr()
    {
    }

    lemma AllApart()
      requires Filed()
      ensures forall i :: i in techniques ==> techniques[i].Repr() !! leaves.Objects()
    {
    }

    lemma UnitsApart()
      requires Filed()
      ensures forall o :: o in Below() ==> !(o is RenderingUnit) && !(o is VirtualObject)
    {
    }

    // When nothing but one technique and the targets have changed, nothing but
    // its state has.
    twostate lemma OnlyTechnique(t: Id)
      requires Filed() && t in techniques
      requires forall i :: i in techniques && i != t ==> unchanged(techniques[i].Repr())
      ensures t in old(Techniques()) && old(Techniques())[t] == old(techniques[t].State())
      ensures Techniques() == old(Techniques())[t := techniques[t].State()]
    {
      hide BT.GlBaseTechnique.State, BT.GlBaseTechnique.Repr;
    }

    ghost function Techniques(): map<Id, Q.Technique>
      requires Filed()
      reads owned
    {
      map i | i in techniques :: techniques[i].State()
    }

    ghost function Below(): set<object> {
      owned + leaves.Objects()
    }

    ghost function Graphics(shm: map<Id, Bytes>): (g: Gl)
      requires Filed()
      reads Below()
      ensures g.Live() == leaves.Live()
    {
      leaves.State(shm).(techniques := Techniques())
    }

    twostate lemma SameGraphics(shm: map<Id, Bytes>)
      requires Filed() && unchanged(Below())
      ensures Graphics(shm) == old(Graphics(shm)) && TechniqueLinks() == old(TechniqueLinks())
    {
    }

    ghost function TechniqueLinks(): map<Id, TechniqueLink>
      requires Filed()
      reads owned
    {
      Ties(Techniques())
    }

    ghost function UnitLinks(): map<Id, UnitLink>
      reads units.Values
    {
      map i | i in units :: units[i].Link()
    }

    ghost function Objects(): map<Id, Scenes.VirtualObject>
      reads objects.Values`committed, objects.Values`app, objects.Values`proxy
    {
      map i | i in objects :: objects[i].State()
    }

    ghost function ObjectLinks(): map<Id, ObjectLink>
      reads objects.Values
    {
      map i | i in objects :: objects[i].Link()
    }
  }

  // The scene that these objects make up.
  ghost function SceneOf(w: World, session: bool, next: Id, shm: map<Id, Bytes>): Scene
    requires w.Filed()
    reads w.Below(), w.units.Values, w.objects.Values
  {
    Scene(session, next, w.Graphics(shm), UnitStates(w.UnitLinks()), w.Objects())
  }

  // ---- techniques --------------------------------------------------------------

  ghost predicate Ready(w: World, unit: RenderingUnit)
    requires w.Filed()
    reads unit, w.owned
  {
    UnitTied(unit.id, unit.Link(), w.TechniqueLinks())
  }

  method CommitTechniqueItself(w: World, t: Id, shm: map<Id, Bytes>)
    requires w.Filed() && t in w.techniques
    modifies w.Below()
    ensures w.Graphics(shm) == CommitTechniques(old(w.Graphics(shm)), {t})
    ensures w.TechniqueLinks() == Marked(old(w.TechniqueLinks()), Some(t))
  {
    hide CommitTechniques, CommitLeaves, CommitReach, BT.Leaves.State, World.Techniques, BT.GlBaseTechnique.State;
    hide BT.GlBaseTechnique.Repr, Q.Technique.Commit;
    ghost var g, l := w.Graphics(shm), w.leaves.State(shm);
    w.Apart(t);
    w.techniques[t].Commit(w.leaves, shm);
    w.OnlyTechnique(t);
    TiesCommit(g.techniques, t, g.Live());
    CommitOne(l, g, t, w.Graphics(shm));
  }

  // A technique's first commit hands it to its unit.
  method GiveTechnique(w: World, t: Id, unit: RenderingUnit, ghost shm: map<Id, Bytes>)
    requires w.Filed() && t in w.techniques && (w.techniques[t].committed || unit.technique.None?)
    modifies unit`technique
    ensures unit.technique == if w.techniques[t].committed then old(unit.technique) else Some(t)
    ensures w.Graphics(shm) == old(w.Graphics(shm)) && w.TechniqueLinks() == old(w.TechniqueLinks())
  {
    hide World.Graphics, World.TechniqueLinks;
    w.UnitsApart();
    if !w.techniques[t].committed {
      var _ := unit.SetTechnique(Some(t));
    }
    assert unchanged(w.Below());
  }

  lemma TiedTechnique(w: World, unit: RenderingUnit, t: Id)
    requires w.Filed() && unit.listener == Some(t) && Ready(w, unit)
    ensures t in w.techniques && unit.technique == if w.techniques[t].committed then Some(t) else None
  {
  }

  method CommitTechnique(w: World, unit: RenderingUnit, t: Id, shm: map<Id, Bytes>)
    requires w.Filed() && unit.listener == Some(t) && unit.committed && Ready(w, unit)
    modifies w.Below(), unit`technique
    ensures w.Graphics(shm) == CommitTechniques(old(w.Graphics(shm)), {t})
    ensures Ready(w, unit) && unit.technique == Some(t)
    ensures w.TechniqueLinks() == Marked(old(w.TechniqueLinks()), Some(t))
  {
    hide CommitTechniques, World.Graphics, World.TechniqueLinks, Marked, UnitTied;
    w.UnitsApart();
    TiedTechnique(w, unit, t);
    MarkedTies(unit.id, unit.Link(), w.TechniqueLinks());
    GiveTechnique(w, t, unit, shm);
    CommitTechniqueItself(w, t, shm);
  }

  method SyncTechnique(w: World, t: Id, session: bool, force: bool, ghost shm: map<Id, Bytes>)
    requires session && w.Filed() && t in w.techniques
    requires w.techniques[t].unit in w.units && w.units[w.techniques[t].unit].proxy
    modifies w.Below()
    ensures w.Graphics(shm) == SyncTechniques(old(w.Graphics(shm)), {t}, force)
    ensures w.TechniqueLinks() == old(w.TechniqueLinks())
  {
    hide SyncTechniques, SyncLeaves, SyncReach, BT.Leaves.State, World.Techniques, BT.GlBaseTechnique.State;
    hide BT.GlBaseTechnique.Repr, Q.Technique.Sync;
    ghost var g, l := w.Graphics(shm), w.leaves.State(shm);
    w.Apart(t);
    w.techniques[t].Sync(session, w.units[w.techniques[t].unit].proxy, force, w.leaves, shm);
    w.OnlyTechnique(t);
    TiesSync(g.techniques, t, force, g.Live());
    SyncOne(l, g, t, force, w.Graphics(shm));
  }

  // ---- units ---------------------------------------------------------------------

  // A unit's first commit lets it join its object.
  method Join(w: World, unit: RenderingUnit, owner: VirtualObject, ghost shm: map<Id, Bytes>)
    requires w.Filed() && Ready(w, unit)
    modifies unit`committed, owner`units
    ensures unit.committed && Ready(w, unit) && (unit.listener.None? ==> unit.technique.None?)
    ensures owner.units == old(owner.units) + if old(unit.committed) then [] else [unit.id]
    ensures w.Graphics(shm) == old(w.Graphics(shm)) && w.TechniqueLinks() == old(w.TechniqueLinks())
  {
    hide World.Graphics, World.TechniqueLinks;
    w.UnitsApart();
    if !unit.committed {
      owner.AddRenderingUnit(unit.id);
      unit.committed := true;
    }
    assert unchanged(w.Below());
  }

  // The technique that listens commits with its unit.
  method CommitUnit(w: World, unit: RenderingUnit, owner: VirtualObject, shm: map<Id, Bytes>)
    requires w.Filed() && Ready(w, unit)
    modifies w.Below(), unit`technique, unit`committed, owner`units
    ensures w.Graphics(shm) == CommitTechniques(old(w.Graphics(shm)), Opt(unit.listener))
    ensures Ready(w, unit) && unit.Link() == Committed(old(unit.Link()))
    ensures owner.units == old(owner.units) + if old(unit.committed) then [] else [unit.id]
    ensures w.TechniqueLinks() == Marked(old(w.TechniqueLinks()), unit.listener)
  {
    hide CommitTechniques, World.Graphics, Ready;
    w.UnitsApart();
    Join(w, unit, owner, shm);
    if unit.listener.Some? {
      CommitTechnique(w, unit, unit.listener.value, shm);
    } else {
      CommitNothing(w.Graphics(shm));
    }
  }

  // ---- objects --------------------------------------------------------------------

  ghost predicate Linked(w: World)
    requires w.Filed()
    reads w.objects.Values, w.units.Values, w.owned
  {
    AllTied(w.TechniqueLinks(), w.UnitLinks(), w.ObjectLinks())
  }

  ghost predicate Registered(w: World, object': VirtualObject) {
    w.Filed() && object'.id in w.objects && w.objects[object'.id] == object'
  }

  // What the listener at `i` of an object is known to be.
  lemma TiedUnit(w: World, owner: VirtualObject, i: nat)
    requires Registered(w, owner) && Linked(w) && i < |owner.listeners|
    ensures var u := owner.listeners[i];
            u in w.units && w.units[u].id == u && w.units[u].owner == owner.id && Ready(w, w.units[u])
  {
    assert ObjectTied(owner.id, w.ObjectLinks()[owner.id], w.UnitLinks());
    assert owner.listeners[i] in owner.listeners;
  }

  method CommitOneMore(
    w: World, owner: VirtualObject, i: nat, ghost us: seq<Id>, ghost g: Gl, ghost techniques: map<Id, TechniqueLink>,
    ghost units: map<Id, UnitLink>, ghost objects: map<Id, ObjectLink>, shm: map<Id, Bytes>)
    requires Registered(w, owner) && Linked(w) && i < |us| && us == owner.listeners
    requires AllTied(techniques, units, objects) && owner.id in objects && objects[owner.id].listeners == us
    requires w.Graphics(shm) == CommitTechniques(g, Heard(units, us[..i]))
    requires w.UnitLinks() == CommitLinks(units, us[..i])
    modifies w.Below(), w.units.Values`technique, w.units.Values`committed, owner`units
    ensures w.Graphics(shm) == CommitTechniques(g, Heard(units, us[..i + 1]))
    ensures w.UnitLinks() == CommitLinks(units, us[..i + 1])
    ensures Linked(w)
  {
    hide CommitTechniques, World.Graphics, Linked, AllTied, Heard, CommitLinks, World.UnitLinks;
    TiedUnit(w, owner, i);
    CommitTurn(techniques, units, objects, owner.id, i, g);
    w.UnitsApart();
    w.units[owner.listeners[i]].Commit(w, owner, shm);
  }

  // Every unit of an object commits.
  method CommitEvery(w: World, owner: VirtualObject, shm: map<Id, Bytes>)
    requires Registered(w, owner) && Linked(w)
    modifies w.Below(), w.units.Values`technique, w.units.Values`committed, owner`units
    ensures w.Graphics(shm) == CommitTechniques(old(w.Graphics(shm)), Heard(old(w.UnitLinks()), owner.listeners))
    ensures w.UnitLinks() == CommitLinks(old(w.UnitLinks()), owner.listeners)
    ensures Linked(w)
  {
    hide CommitTechniques, World.Graphics, AllTied, Heard, World.UnitLinks, World.TechniqueLinks, CommitLinks;
    ghost var g, us := w.Graphics(shm), owner.listeners;
    ghost var techniques, units, objects := w.TechniqueLinks(), w.UnitLinks(), w.ObjectLinks();
    CommitNothing(g);
    NothingHeard(units, us);
    w.UnitsApart();
    for i := 0 to |owner.listeners|
      invariant w.Graphics(shm) == CommitTechniques(g, Heard(units, us[..i]))
      invariant w.UnitLinks() == CommitLinks(units, us[..i])
      invariant Linked(w)
    {
      CommitOneMore(w, owner, i, us, g, techniques, units, objects, shm);
    }
    assert us[..|us|] == us;
  }

  // ---- the sync of an object's units ------------------------------------------------

  // A unit's copy is made on its object's copy.
  method EnsureUnitCopy(w: World, unit: RenderingUnit, session: bool, ownerProxy: bool, ghost shm: map<Id, Bytes>)
    requires session && ownerProxy && w.Filed() && Ready(w, unit)
    modifies unit`proxy
    ensures unit.proxy && Ready(w, unit)
    ensures w.Graphics(shm) == old(w.Graphics(shm)) && w.TechniqueLinks() == old(w.TechniqueLinks())
  {
    hide World.Graphics, World.TechniqueLinks;
    w.UnitsApart();
    if !unit.proxy {
      unit.proxy := true;
    }
    assert unchanged(w.Below());
  }

  // Its technique is sent next.
  method SyncUnit(
    w: World, unit: RenderingUnit, session: bool, ownerProxy: bool, force: bool, ghost shm: map<Id, Bytes>)
    requires session && ownerProxy && w.Filed() && Ready(w, unit) && unit.id in w.units && w.units[unit.id] == unit
    modifies w.Below(), unit`proxy
    ensures w.Graphics(shm) == SyncTechniques(old(w.Graphics(shm)), Opt(unit.technique), force)
    ensures unit.Link() == Copied(old(unit.Link())) && w.TechniqueLinks() == old(w.TechniqueLinks())
  {
    hide SyncTechniques, World.Graphics, World.TechniqueLinks;
    w.UnitsApart();
    EnsureUnitCopy(w, unit, session, ownerProxy, shm);
    if unit.technique.Some? {
      TiedSlot(w, unit);
      SyncTechnique(w, unit.technique.value, session, force, shm);
    } else {
      SyncNothing(w.Graphics(shm), force);
    }
  }

  lemma TiedSlot(w: World, unit: RenderingUnit)
    requires w.Filed() && Ready(w, unit) && unit.technique.Some?
    ensures unit.technique.value in w.techniques && w.techniques[unit.technique.value].unit == unit.id
  {
  }

  lemma TiedMember(w: World, owner: VirtualObject, i: nat)
    requires Registered(w, owner) && Linked(w) && i < |owner.units|
    ensures var u := owner.units[i];
            u in w.units && w.units[u].id == u && w.units[u].owner == owner.id && Ready(w, w.units[u])
  {
    assert ObjectTied(owner.id, w.ObjectLinks()[owner.id], w.UnitLinks());
    assert owner.units[i] in owner.units;
  }

  method SyncOneMore(
    w: World, owner: VirtualObject, i: nat, session: bool, force: bool, ghost us: seq<Id>, ghost g: Gl,
    ghost techniques: map<Id, TechniqueLink>, ghost units: map<Id, UnitLink>, ghost objects: map<Id, ObjectLink>,
    ghost shm: map<Id, Bytes>)
    requires session && owner.proxy.Some? && Registered(w, owner) && Linked(w) && i < |us| && us == owner.units
    requires AllTied(techniques, units, objects) && owner.id in objects && objects[owner.id].units == us
    requires w.Graphics(shm) == SyncTechniques(g, Held(units, us[..i]), force)
    requires w.UnitLinks() == CopyLinks(units, us[..i])
    modifies w.Below(), w.units.Values`proxy
    ensures w.Graphics(shm) == SyncTechniques(g, Held(units, us[..i + 1]), force)
    ensures w.UnitLinks() == CopyLinks(units, us[..i + 1])
    ensures w.ObjectLinks() == old(w.ObjectLinks()) && Linked(w)
  {
    hide SyncTechniques, World.Graphics, Linked, AllTied, Held, CopyLinks, World.UnitLinks;
    TiedMember(w, owner, i);
    SyncTurn(techniques, units, objects, owner.id, i, g, force);
    w.UnitsApart();
    w.units[owner.units[i]].Sync(w, owner, session, force, shm);
  }

  // Every unit that has joined an object is sent.
  method SyncEvery(w: World, owner: VirtualObject, session: bool, force: bool, ghost shm: map<Id, Bytes>)
    requires session && owner.proxy.Some? && Registered(w, owner) && Linked(w)
    modifies w.Below(), w.units.Values`proxy
    ensures w.Graphics(shm) == SyncTechniques(old(w.Graphics(shm)), Held(old(w.UnitLinks()), owner.units), force)
    ensures w.UnitLinks() == CopyLinks(old(w.UnitLinks()), owner.units)
    ensures w.ObjectLinks() == old(w.ObjectLinks()) && Linked(w)
  {
    hide SyncTechniques, World.Graphics, AllTied, Held, World.UnitLinks, World.TechniqueLinks, CopyLinks;
    ghost var g, us := w.Graphics(shm), owner.units;
    ghost var techniques, units, objects := w.TechniqueLinks(), w.UnitLinks(), w.ObjectLinks();
    SyncNothing(g, force);
    NothingHeld(units, us);
    w.UnitsApart();
    for i := 0 to |owner.units|
      invariant owner.units == us && owner.proxy.Some?
      invariant w.Graphics(shm) == SyncTechniques(g, Held(units, us[..i]), force)
      invariant w.UnitLinks() == CopyLinks(units, us[..i])
      invariant w.ObjectLinks() == objects && Linked(w)
    {
      SyncOneMore(w, owner, i, session, force, us, g, techniques, units, objects, shm);
    }
    assert us[..|us|] == us;
  }

  // ---- whole objects ------------------------------------------------------------------

  const ORIGIN := Pose(0.0, 0.0)

  lemma TiesInScene(w: World, shm: map<Id, Bytes>)
    requires w.Filed()
    ensures w.TechniqueLinks() == Ties(w.Graphics(shm).techniques)
  {
  }

  // ---- sessions -------------------------------------------------------------------------

  // A new session: every committed object is sent by force, in any order.
  method EstablishAll(w: World, session: bool, ghost next: Id, ghost shm: map<Id, Bytes>)
    requires session && w.Filed() && Linked(w)
    modifies w.Below(), w.units.Values`proxy, w.objects.Values`proxy
    ensures SceneOf(w, session, next, shm) ==
            SyncObjects(old(SceneOf(w, session, next, shm)), CommittedObjects(old(SceneOf(w, session, next, shm))),
                true)
    ensures Linked(w)
  {
    hide SyncObjects, World.Graphics, World.UnitLinks, Linked;
    ghost var s := SceneOf(w, session, next, shm);
    ghost var done: set<Id> := {};
    NothingSent(s, true);
    w.UnitsApart();
    var keys := w.objects.Keys;
    while keys != {}
      invariant keys <= w.objects.Keys && Linked(w) && done !! keys
      invariant SceneOf(w, session, next, shm) == SyncObjects(s, done, true)
      invariant done == set v | v in w.objects && v !in keys && w.objects[v].committed
      decreases keys
    {
      var v :| v in keys;
      keys := keys - {v};
      O.ObjectsInAnyOrder(s, done, if w.objects[v].committed then {v} else {}, true);
      done := done + if w.objects[v].committed then {v} else {};
      w.objects[v].SessionEstablished(w, session, next, shm);
    }
    assert done == CommittedObjects(s);
  }

  // ---- new objects --------------------------------------------------------------------

  lemma OneMoreObject(w: World, made: VirtualObject, shm: map<Id, Bytes>)
    requires w.Filed() && made.id !in w.objects
    ensures var w' := w.(objects := w.objects[made.id := made]);
            && w'.Filed() && w'.UnitLinks() == w.UnitLinks()
            && w'.Graphics(shm) == w.Graphics(shm) && w'.TechniqueLinks() == w.TechniqueLinks()
            && w'.ObjectLinks() == w.ObjectLinks()[made.id := made.Link()]
            && w'.Objects() == w.Objects()[made.id := made.State()]
  {
    hide BT.Leaves.State, BT.Leaves.Filed;
    var w' := w.(objects := w.objects[made.id := made]);
    assert w'.ObjectLinks() == w.ObjectLinks()[made.id := made.Link()];
    assert w'.Objects() == w.Objects()[made.id := made.State()];
  }

  lemma OneMoreUnit(w: World, made: RenderingUnit, shm: map<Id, Bytes>)
    requires w.Filed() && made.id !in w.units
    ensures var w' := w.(units := w.units[made.id := made]);
            && w'.Filed() && w'.UnitLinks() == w.UnitLinks()[made.id := made.Link()]
            && w'.Graphics(shm) == w.Graphics(shm) && w'.TechniqueLinks() == w.TechniqueLinks()
            && w'.ObjectLinks() == w.ObjectLinks() && w'.Objects() == w.Objects()
  {
  }

  lemma OneMoreTechnique(w: World, made: BT.GlBaseTechnique, shm: map<Id, Bytes>)
    requires w.Filed() && made.id !in w.techniques && made.Valid()
    ensures var w' := w.(techniques := w.techniques[made.id := made], owned := w.owned + made.Repr());
            && w'.Filed() && w'.UnitLinks() == w.UnitLinks()
            && w'.ObjectLinks() == w.ObjectLinks() && w'.Objects() == w.Objects()
            && w'.Graphics(shm) == w.Graphics(shm).(techniques := w.Graphics(shm).techniques[made.id := made.State()])
  {
    hide BT.Leaves.State, BT.Leaves.Filed, BT.GlBaseTechnique.State;
    var w' := w.(techniques := w.techniques[made.id := made], owned := w.owned + made.Repr());
    assert w'.Techniques() == w.Techniques()[made.id := made.State()];
  }

  method MakeObject(w: World, id: Id, ghost shm: map<Id, Bytes>) returns (w': World)
    requires w.Filed() && id !in w.objects
    ensures w'.Filed() && w'.UnitLinks() == old(w.UnitLinks())
    ensures w'.Graphics(shm) == old(w.Graphics(shm)) && w'.TechniqueLinks() == old(w.TechniqueLinks())
    ensures w'.ObjectLinks() ==
            old(w.ObjectLinks())[id := ObjectLink(Scenes.VirtualObject(false, None, None), [], [])]
    ensures w'.Objects() == old(w.Objects())[id := Scenes.VirtualObject(false, None, None)]
  {
    hide World.Filed, World.Graphics, World.TechniqueLinks, World.UnitLinks, World.ObjectLinks, World.Objects;
    w.UnitsApart();
    var made := new VirtualObject(id);
    w' := w.(objects := w.objects[id := made]);
    OneMoreObject(w, made, shm);
  }

  method CreateObject(w: World, id: Id, ghost session: bool, ghost shm: map<Id, Bytes>) returns (w': World)
    requires w.Filed() && Linked(w) && id !in w.objects
    ensures w'.Filed() && Linked(w')
    ensures SceneOf(w', session, id + 1, shm) == QuietStep(old(SceneOf(w, session, id, shm)), Create(NewObject))
  {
    hide World.Graphics, World.TechniqueLinks, World.UnitLinks, World.ObjectLinks, AllTied, QuietStep;
    ghost var s := SceneOf(w, session, id, shm);
    KeysOf(w);
    NewObjectTied(w.TechniqueLinks(), w.UnitLinks(), w.ObjectLinks(), id);
    w' := MakeObject(w, id, shm);
    ObjectIsScenes(s, id);
  }

  method MakeUnit(w: World, owner: VirtualObject, id: Id, ghost shm: map<Id, Bytes>) returns (w': World)
    requires Registered(w, owner) && id !in w.units
    modifies owner`listeners
    ensures w'.Filed() && w'.Objects() == old(w.Objects())
    ensures w'.Graphics(shm) == old(w.Graphics(shm)) && w'.TechniqueLinks() == old(w.TechniqueLinks())
    ensures w'.UnitLinks() ==
            old(w.UnitLinks())[id := UnitLink(Scenes.RenderingUnit(owner.id, false, false), None, None)]
    ensures owner.id in old(w.ObjectLinks())
    ensures w'.ObjectLinks() == old(w.ObjectLinks())[owner.id := old(w.ObjectLinks())[owner.id].(
              listeners := old(w.ObjectLinks())[owner.id].listeners + [id])]
  {
    hide World.Filed, World.Graphics, World.TechniqueLinks, World.UnitLinks, World.ObjectLinks, World.Objects;
    w.UnitsApart();
    owner.Mine(w);
    var made := new RenderingUnit(id, owner.id);
    owner.listeners := owner.listeners + [id];
    owner.OnlyObject(w);
    w' := w.(units := w.units[id := made]);
    OneMoreUnit(w, made, shm);
  }

  method CreateUnit(w: World, owner: VirtualObject, id: Id, ghost session: bool, ghost shm: map<Id, Bytes>)
    returns (w': World)
    requires Registered(w, owner) && Linked(w) && id !in w.units
    modifies owner`listeners
    ensures w'.Filed() && Linked(w')
    ensures owner.id in old(SceneOf(w, session, id, shm)).objects
    ensures SceneOf(w', session, id + 1, shm) ==
            QuietStep(old(SceneOf(w, session, id, shm)), Create(NewUnit(owner.id)))
  {
    hide World.Graphics, World.TechniqueLinks, World.UnitLinks, World.ObjectLinks, AllTied, QuietStep;
    ghost var s, units := SceneOf(w, session, id, shm), w.UnitLinks();
    KeysOf(w);
    NewUnitTied(w.TechniqueLinks(), units, w.ObjectLinks(), owner.id, id);
    w' := MakeUnit(w, owner, id, shm);
    UnitIsScenes(s, units, owner.id, id);
  }

  // A technique is made for a unit and listens to its commits.
  method MakeTechnique(w: World, unit: RenderingUnit, id: Id, ghost shm: map<Id, Bytes>) returns (w': World)
    requires w.Filed() && unit.id in w.units && w.units[unit.id] == unit && id !in w.techniques
    modifies unit`listener
    ensures w'.Filed() && w'.Objects() == old(w.Objects()) && w'.ObjectLinks() == old(w.ObjectLinks())
    ensures w'.Graphics(shm) ==
            var g := old(w.Graphics(shm)); g.(techniques := g.techniques[id := Q.NewTechnique(unit.id)])
    ensures unit.id in old(w.UnitLinks())
    ensures w'.UnitLinks() == old(w.UnitLinks())[unit.id := old(w.UnitLinks())[unit.id].(listener := Some(id))]
  {
    hide World.Filed, World.Graphics, World.TechniqueLinks, World.UnitLinks, World.ObjectLinks, World.Objects;
    hide BT.GlBaseTechnique.Repr, BT.GlBaseTechnique.Valid;
    w.UnitsApart();
    unit.Mine(w);
    var made := new BT.GlBaseTechnique(id, unit.id);
    unit.listener := Some(id);
    unit.OnlyUnit(w);
    w' := w.(techniques := w.techniques[id := made], owned := w.owned + made.Repr());
    OneMoreTechnique(w, made, shm);
  }

  method CreateTechnique(w: World, unit: RenderingUnit, id: Id, ghost session: bool, ghost shm: map<Id, Bytes>)
    returns (w': World)
    requires w.Filed() && Linked(w) && unit.id in w.units && w.units[unit.id] == unit && id !in w.techniques
    requires unit.listener.None?
    modifies unit`listener
    ensures w'.Filed() && Linked(w')
    ensures Allowed(old(SceneOf(w, session, id, shm)), Create(NewTechnique(unit.id)))
    ensures SceneOf(w', session, id + 1, shm) ==
            QuietStep(old(SceneOf(w, session, id, shm)), Create(NewTechnique(unit.id)))
  {
    hide World.Graphics, World.TechniqueLinks, World.UnitLinks, World.ObjectLinks, AllTied, Ties, QuietStep, Allowed;
    ghost var s, units, objects := SceneOf(w, session, id, shm), w.UnitLinks(), w.ObjectLinks();
    TiesInScene(w, shm);
    LinkOf(w, unit);
    Unheard(w.TechniqueLinks(), units, objects, unit.id);
    NoSuchTie(w, id);
    NewTechniqueTied(w.TechniqueLinks(), units, objects, unit.id, id);
    TechniqueIsScenes(s, units, unit.id, id);
    w' := MakeTechnique(w, unit, id, shm);
    TiesInScene(w', shm);
  }

  lemma NoSuchTie(w: World, t: Id)
    requires w.Filed() && t !in w.techniques
    ensures t !in w.TechniqueLinks()
  {
  }

  lemma LinkOf(w: World, unit: RenderingUnit)
    requires unit.id in w.units && w.units[unit.id] == unit
    ensures unit.id in w.UnitLinks() && w.UnitLinks()[unit.id] == unit.Link()
  {
  }

  lemma KeysOf(w: World)
    ensures w.UnitLinks().Keys == w.units.Keys && w.ObjectLinks().Keys == w.objects.Keys
  {
  }
}

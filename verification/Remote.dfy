// The remote: it has at most one session, and tells all who listen when the
// session comes and when it goes.
module Remotes {
  import opened Common
  import opened Scenes
  import opened Links
  import opened VirtualObjects
  import B = Buffers
  import T = Textures
  import S = Samplers
  import H = Shaders
  import P = Programs
  import A = VertexArrays
  import Q = Techniques
  import BT = BaseTechniques

  datatype Signal = Established | Disconnected

  // Sessions come and go in turn, first coming.
  ghost predicate Alternate(signals: seq<Signal>) {
    forall i :: 0 <= i < |signals| ==> signals[i] == if i % 2 == 0 then Established else Disconnected
  }

  // ---- a lost session -------------------------------------------------------------

  method DropData(buffers: B.Registry, textures: T.Registry, samplers: S.Registry)
    requires B.Filed(buffers) && T.Filed(textures) && S.Filed(samplers)
    modifies buffers.Values`proxy, textures.Values`proxy, samplers.Values`proxy
    ensures B.States(buffers) == B.Dropped(old(B.States(buffers)))
    ensures T.States(textures) == T.Dropped(old(T.States(textures)))
    ensures S.States(samplers) == S.Dropped(old(S.States(samplers)))
  {
    hide *;
    B.DropCopies(buffers);
    assert T.States(textures) == old(T.States(textures)) && S.States(samplers) == old(S.States(samplers));
    label first:
    T.DropCopies(textures);
    assert S.States(samplers) == old(S.States(samplers));
    label second:
    S.DropCopies(samplers);
    assert unchanged@first(buffers.Values) && unchanged@second(textures.Values);
  }

  method DropPrograms(shaders: H.Registry, programs: P.Registry, arrays: A.Registry)
    requires H.Filed(shaders) && P.Filed(programs) && A.Filed(arrays)
    modifies shaders.Values`proxy, programs.Values`proxy, arrays.Values`proxy
    ensures H.States(shaders) == H.Dropped(old(H.States(shaders)))
    ensures P.States(programs) == P.Dropped(old(P.States(programs)))
    ensures A.States(arrays) == A.Dropped(old(A.States(arrays)))
  {
    hide *;
    H.DropCopies(shaders);
    assert P.States(programs) == old(P.States(programs)) && A.States(arrays) == old(A.States(arrays));
    label first:
    P.DropCopies(programs);
    assert A.States(arrays) == old(A.States(arrays));
    label second:
    A.DropCopies(arrays);
    assert unchanged@first(shaders.Values) && unchanged@second(programs.Values);
  }

  method DropEach(leaves: BT.Leaves)
    requires B.Filed(leaves.buffers) && T.Filed(leaves.textures) && S.Filed(leaves.samplers)
    requires H.Filed(leaves.shaders) && P.Filed(leaves.programs) && A.Filed(leaves.arrays)
    modifies leaves.buffers.Values`proxy, leaves.textures.Values`proxy, leaves.samplers.Values`proxy
    modifies leaves.shaders.Values`proxy, leaves.programs.Values`proxy, leaves.arrays.Values`proxy
    ensures B.States(leaves.buffers) == B.Dropped(old(B.States(leaves.buffers)))
    ensures T.States(leaves.textures) == T.Dropped(old(T.States(leaves.textures)))
    ensures S.States(leaves.samplers) == S.Dropped(old(S.States(leaves.samplers)))
    ensures H.States(leaves.shaders) == H.Dropped(old(H.States(leaves.shaders)))
    ensures P.States(leaves.programs) == P.Dropped(old(P.States(leaves.programs)))
    ensures A.States(leaves.arrays) == A.Dropped(old(A.States(leaves.arrays)))
  {
    hide *;
    leaves.KindsApart();
    DropData(leaves.buffers, leaves.textures, leaves.samplers);
    assert H.States(leaves.shaders) == old(H.States(leaves.shaders));
    assert P.States(leaves.programs) == old(P.States(leaves.programs));
    assert A.States(leaves.arrays) == old(A.States(leaves.arrays));
    label first:
    DropPrograms(leaves.shaders, leaves.programs, leaves.arrays);
    assert unchanged@first(leaves.buffers.Values) && unchanged@first(leaves.textures.Values);
    assert unchanged@first(leaves.samplers.Values);
  }

  method DropLeaves(leaves: BT.Leaves, ghost shm: map<Id, Bytes>)
    requires leaves.Filed()
    modifies leaves.Objects()
    ensures leaves.State(shm) == DropCopies(old(leaves.State(shm)))
  {
    hide B.States, T.States, S.States, H.States, P.States, A.States;
    hide B.Dropped, T.Dropped, S.Dropped, H.Dropped, P.Dropped, A.Dropped;
    DropEach(leaves);
  }

  // ---- everything above ------------------------------------------------------------

  ghost function DroppedTechniques(techniques: map<Id, Q.Technique>): map<Id, Q.Technique> {
    map i | i in techniques :: techniques[i].(proxy := None)
  }

  method DropProxies(w: World)
    requires w.Filed()
    modifies w.techniques.Values`proxy
    ensures w.Techniques() == DroppedTechniques(old(w.Techniques()))
  {
    hide BT.Leaves.Filed, BT.GlBaseTechnique.State;
    forall i | i in w.techniques {
      w.techniques[i].proxy := None;
    }
    forall i | i in w.techniques
      ensures w.techniques[i].State() == old(w.techniques[i].State()).(proxy := None)
    {
      w.techniques[i].OnlyProxy();
    }
  }

  method DropTechniques(w: World, ghost shm: map<Id, Bytes>)
    requires w.Filed()
    modifies w.owned
    ensures w.Techniques() == DroppedTechniques(old(w.Techniques()))
    ensures w.leaves.State(shm) == old(w.leaves.State(shm))
  {
    hide World.Techniques, BT.Leaves.State, BT.Leaves.Filed, DroppedTechniques;
    w.AllApart();
    forall q: BT.GlBaseTechnique | q in w.techniques.Values
      ensures q in w.owned && q !in w.leaves.Objects()
    {
      var i :| i in w.techniques && w.techniques[i] == q;
      assert q in w.techniques[i].Repr();
    }
    DropProxies(w);
    assert unchanged(w.leaves.Objects());
  }

  method DropGraphics(w: World, ghost shm: map<Id, Bytes>)
    requires w.Filed()
    modifies w.Below()
    ensures w.Graphics(shm) == DropCopies(old(w.Graphics(shm)))
    ensures w.TechniqueLinks() == old(w.TechniqueLinks())
  {
    hide BT.Leaves.State, World.Techniques, DroppedTechniques, Ties;
    DropTechniques(w, shm);
    DropLeavesOnly(w, shm);
    DroppedWhole(old(w.leaves.State(shm)), old(w.Techniques()));
  }

  lemma DroppedWhole(g: Gl, techniques: map<Id, Q.Technique>)
    ensures Ties(DroppedTechniques(techniques)) == Ties(techniques)
    ensures DropCopies(g.(techniques := techniques)) == DropCopies(g).(techniques := DroppedTechniques(techniques))
  {
  }

  method DropLeavesOnly(w: World, ghost shm: map<Id, Bytes>)
    requires w.Filed()
    modifies w.leaves.Objects()
    ensures w.leaves.State(shm) == DropCopies(old(w.leaves.State(shm)))
    ensures w.Techniques() == old(w.Techniques())
  {
    hide BT.Leaves.State, DropCopies;
    w.AllApart();
    DropLeaves(w.leaves, shm);
  }

  ghost function DroppedUnits(units: map<Id, UnitLink>): map<Id, UnitLink> {
    map u | u in units :: units[u].(state := units[u].state.(proxy := false))
  }

  ghost function DroppedObjects(objects: map<Id, ObjectLink>): map<Id, ObjectLink> {
    map v | v in objects :: objects[v].(state := objects[v].state.(proxy := None))
  }

  lemma LossKeepsTies(
    techniques: map<Id, TechniqueLink>, units: map<Id, UnitLink>, objects: map<Id, ObjectLink>)
    requires AllTied(techniques, units, objects)
    ensures AllTied(techniques, DroppedUnits(units), DroppedObjects(objects))
  {
    var units', objects' := DroppedUnits(units), DroppedObjects(objects);
    forall i | i in units
      ensures UnitTied(i, units'[i], techniques)
    {
      assert UnitTied(i, units[i], techniques);
    }
    forall v | v in objects
      ensures ObjectTied(v, objects'[v], units')
    {
      assert ObjectTied(v, objects[v], units);
    }
  }

  method DropUnits(w: World)
    requires w.Filed()
    modifies w.units.Values`proxy
    ensures w.UnitLinks() == DroppedUnits(old(w.UnitLinks())) && w.ObjectLinks() == old(w.ObjectLinks())
  {
    forall i | i in w.units {
      w.units[i].proxy := false;
    }
  }

  method DropObjects(w: World)
    requires w.Filed()
    modifies w.objects.Values`proxy
    ensures w.ObjectLinks() == DroppedObjects(old(w.ObjectLinks())) && w.UnitLinks() == old(w.UnitLinks())
  {
    forall i | i in w.objects {
      w.objects[i].proxy := None;
    }
  }

  method DropOwners(w: World, ghost shm: map<Id, Bytes>)
    requires w.Filed()
    modifies w.units.Values`proxy, w.objects.Values`proxy
    ensures w.UnitLinks() == DroppedUnits(old(w.UnitLinks())) && w.ObjectLinks() == DroppedObjects(old(w.ObjectLinks()))
    ensures w.Graphics(shm) == old(w.Graphics(shm)) && w.TechniqueLinks() == old(w.TechniqueLinks())
  {
    hide World.Filed, World.Graphics, World.TechniqueLinks, World.UnitLinks, World.ObjectLinks, DroppedUnits;
    hide DroppedObjects;
    w.UnitsApart();
    DropUnits(w);
    DropObjects(w);
    w.SameGraphics(shm);
  }

  lemma LossIsScenes(s: Scene, units: map<Id, UnitLink>, objects: map<Id, ObjectLink>, s': Scene)
    requires s.units == UnitStates(units) && s.objects == ObjectStates(objects)
    requires s' == Scene(false, s.next, DropCopies(s.gl), UnitStates(DroppedUnits(units)),
             ObjectStates(DroppedObjects(objects)))
    ensures s' == SessionDown(s)
  {
  }

  lemma OwnersInScene(w: World)
    ensures w.Objects() == ObjectStates(w.ObjectLinks())
  {
  }

  // Every copy is gone with the session.
  method DropAll(w: World, ghost next: Id, ghost shm: map<Id, Bytes>)
    requires w.Filed() && Linked(w)
    modifies w.Below(), w.units.Values`proxy, w.objects.Values`proxy
    ensures SceneOf(w, false, next, shm) == SessionDown(old(SceneOf(w, true, next, shm)))
    ensures Linked(w)
  {
    hide World.Graphics, DropCopies, SessionDown, AllTied, World.TechniqueLinks, World.UnitLinks, World.ObjectLinks;
    hide World.Objects, DroppedUnits, DroppedObjects, UnitStates, ObjectStates;
    ghost var s, units, objects := SceneOf(w, true, next, shm), w.UnitLinks(), w.ObjectLinks();
    w.UnitsApart();
    OwnersInScene(w);
    LossKeepsTies(w.TechniqueLinks(), units, objects);
    DropGraphics(w, shm);
    DropOwners(w, shm);
    OwnersInScene(w);
    LossIsScenes(s, units, objects, SceneOf(w, false, next, shm));
  }

  class Remote {
    var session: bool
    // Every signal emitted so far.
    ghost var signals: seq<Signal>

    ghost predicate Valid()
      reads this
    {
      Alternate(signals) && (session <==> |signals| % 2 == 1)
    }

    constructor ()
      ensures Valid() && !session && signals == []
    {
      session, signals := false, [];
    }

    method Begin()
      requires Valid() && !session
      modifies this
      ensures Valid() && session && signals == old(signals) + [Established]
    {
      session, signals := true, signals + [Established];
    }

    method End()
      requires Valid() && session
      modifies this
      ensures Valid() && !session && signals == old(signals) + [Disconnected]
    {
      session, signals := false, signals + [Disconnected];
    }

    method Open(w: World, ghost next: Id, ghost shm: map<Id, Bytes>)
      requires Valid() && !session && w.Filed() && this !in w.owned && Linked(w)
      modifies this, w.Below(), w.units.Values`proxy, w.objects.Values`proxy
      ensures Valid() && Linked(w) && session && signals == old(signals) + [Established]
      ensures SceneOf(w, true, next, shm) == SessionUp(old(SceneOf(w, false, next, shm)))
    {
      hide World.Filed, SceneOf, Linked, SyncObjects, CommittedObjects, SessionUp, Valid;
      NotBelow(w);
      GoingUp(w, next, shm);
      Begin();
      label begun:
      EstablishAll(w, session, next, shm);
      assert unchanged@begun(this);
    }

    lemma GoingUp(w: World, next: Id, shm: map<Id, Bytes>)
      requires w.Filed()
      ensures var s := SceneOf(w, true, next, shm);
              SessionUp(SceneOf(w, false, next, shm)) == SyncObjects(s, CommittedObjects(s), true)
    {
      hide SyncObjects;
      var s := SceneOf(w, false, next, shm);
      assert CommittedObjects(s.(session := true)) == CommittedObjects(s);
    }

    lemma AlreadyUp(w: World, next: Id, shm: map<Id, Bytes>)
      requires w.Filed()
      ensures SessionUp(SceneOf(w, true, next, shm)) == SceneOf(w, true, next, shm)
    {
    }

    // A peer may be gone again, and opening a session may fail.
    method PeerDiscovered(w: World, found: bool, opens: bool, ghost next: Id, ghost shm: map<Id, Bytes>)
      requires Valid() && w.Filed() && this !in w.owned && Linked(w)
      modifies this, w.Below(), w.units.Values`proxy, w.objects.Values`proxy
      ensures Valid() && Linked(w) && session == (old(session) || (found && opens))
      ensures signals == old(signals) + if session && !old(session) then [Established] else []
      ensures var s := old(SceneOf(w, session, next, shm));
              SceneOf(w, session, next, shm) == if found && opens then SessionUp(s) else s
    {
      hide World.Filed, SceneOf, SessionUp, Linked, Valid;
      AlreadyUp(w, next, shm);
      if !found || session {
        return;
      }
      if !opens {
        return;
      }
      Open(w, next, shm);
    }

    lemma NotBelow(w: World)
      requires w.Filed() && this !in w.owned
      ensures this !in w.Below()
    {
    }

    method Disconnect(w: World, ghost next: Id, ghost shm: map<Id, Bytes>)
      requires session && Valid() && w.Filed() && this !in w.owned && Linked(w)
      modifies this, w.Below(), w.units.Values`proxy, w.objects.Values`proxy
      ensures Valid() && Linked(w) && !session && signals == old(signals) + [Disconnected]
      ensures SceneOf(w, session, next, shm) == SessionDown(old(SceneOf(w, session, next, shm)))
    {
      hide World.Filed, SceneOf, Linked, SessionDown, Valid;
      NotBelow(w);
      End();
      label ended:
      DropAll(w, next, shm);
      assert unchanged@ended(this);
    }
  }
}

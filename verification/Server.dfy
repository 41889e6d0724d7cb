// The server's lists: the surfaces in their stacking order, nearest first,
// and the bounded apps. The entries are weak; dead ones are dropped when a
// list is walked.
module Servers {
  import opened Common
  import opened Surfaces
  import opened Intersections
  import opened RayCasters

  // ---- lists of weak entries ---------------------------------------------------

  function KeepLive(list: seq<Id>, live: set<Id>): seq<Id> {
    if list == [] then []
    else KeepLive(list[..|list| - 1], live) + if list[|list| - 1] in live then [list[|list| - 1]] else []
  }

  ghost predicate Distinct(list: seq<Id>) {
    forall j, k :: 0 <= j < k < |list| ==> list[j] != list[k]
  }

  // Latest first.
  ghost predicate Ordered(list: seq<Id>, stamps: map<Id, nat>) {
    && (forall i :: i in list ==> i in stamps)
    && forall j, k :: 0 <= j < k < |list| ==> stamps[list[j]] > stamps[list[k]]
  }

  // How many entries of the list have a place in the stack.
  ghost function Layers(list: seq<Id>, cursors: set<Id>): nat {
    if list == [] then 0
    else Layers(list[..|list| - 1], cursors) + if list[|list| - 1] in cursors then 0 else 1
  }

  lemma {:induction false} KeepLiveElements(list: seq<Id>, live: set<Id>)
    ensures forall i :: i in KeepLive(list, live) <==> i in list && i in live
  {
    if list != [] {
      KeepLiveElements(list[..|list| - 1], live);
      assert list == list[..|list| - 1] + [list[|list| - 1]];
    }
  }

  // Dropping dead entries keeps the order.
  lemma {:induction false} KeepLiveOrdered(list: seq<Id>, live: set<Id>, stamps: map<Id, nat>)
    requires Ordered(list, stamps)
    ensures Ordered(KeepLive(list, live), stamps)
  {
    if list != [] {
      var init, last := list[..|list| - 1], list[|list| - 1];
      KeepLiveOrdered(init, live, stamps);
      KeepLiveElements(init, live);
      var kept := KeepLive(init, live);
      assert forall j :: 0 <= j < |kept| ==> kept[j] in init;
      assert forall i :: i in init ==> stamps[i] > stamps[last];
    }
  }

  lemma OrderedDistinct(list: seq<Id>, stamps: map<Id, nat>)
    requires Ordered(list, stamps)
    ensures Distinct(list)
  {
  }

  lemma KeepLiveNext(list: seq<Id>, n: nat, live: set<Id>)
    requires n < |list|
    ensures KeepLive(list[..n + 1], live) == KeepLive(list[..n], live) + if list[n] in live then [list[n]] else []
  {
    assert list[..n + 1][..n] == list[..n];
  }

  lemma LayersNext(list: seq<Id>, n: nat, cursors: set<Id>)
    requires n < |list|
    ensures Layers(list[..n + 1], cursors) == Layers(list[..n], cursors) + if list[n] in cursors then 0 else 1
  {
    assert list[..n + 1][..n] == list[..n];
  }

  lemma {:induction false} LayersGrow(list: seq<Id>, j: nat, k: nat, cursors: set<Id>)
    requires j <= k <= |list|
    ensures Layers(list[..j], cursors) <= Layers(list[..k], cursors)
    decreases k - j
  {
    if j < k {
      LayersNext(list, k - 1, cursors);
      LayersGrow(list, j, k - 1, cursors);
    }
  }

  ghost function Counted(list: seq<Id>, cursors: set<Id>): set<Id> {
    set i | i in list && i !in cursors
  }

  // The number of layers is the number of different entries that count.
  lemma {:induction false} LayersCount(list: seq<Id>, cursors: set<Id>)
    requires Distinct(list)
    ensures Layers(list, cursors) == |Counted(list, cursors)|
  {
    if list == [] {
      assert Counted(list, cursors) == {};
    } else {
      var init, last := list[..|list| - 1], list[|list| - 1];
      LayersCount(init, cursors);
      assert list == init + [last];
      CountedNext(init, last, cursors);
    }
  }

  lemma CountedNext(init: seq<Id>, last: Id, cursors: set<Id>)
    requires last !in init
    ensures |Counted(init + [last], cursors)| == |Counted(init, cursors)| + if last in cursors then 0 else 1
  {
    assert Counted(init + [last], cursors) == Counted(init, cursors) + if last in cursors then {} else {last};
  }

  function ToFront(list: seq<Id>, p: nat): seq<Id>
    requires p < |list|
  {
    [list[p]] + list[..p] + list[p + 1..]
  }

  lemma ToFrontAt(list: seq<Id>, p: nat)
    requires p < |list|
    ensures |ToFront(list, p)| == |list| && ToFront(list, p)[0] == list[p]
    ensures forall k :: 1 <= k < |list| ==> ToFront(list, p)[k] == list[if k <= p then k - 1 else k]
    ensures forall i :: i in list <==> i in ToFront(list, p)
  {
    assert list == list[..p] + [list[p]] + list[p + 1..];
  }

  // Moving an entry to the front, with the latest stamp, keeps the order.
  lemma FrontOrdered(list: seq<Id>, p: nat, stamps: map<Id, nat>, clock: nat)
    requires Ordered(list, stamps) && p < |list| && forall i :: i in stamps ==> stamps[i] < clock
    ensures Ordered(ToFront(list, p), stamps[list[p] := clock])
    ensures forall i :: i in list <==> i in ToFront(list, p)
  {
    hide ToFront;
    ToFrontAt(list, p);
  }

  lemma NewFrontOrdered(list: seq<Id>, x: Id, stamps: map<Id, nat>, clock: nat)
    requires Ordered(list, stamps) && x !in list && forall i :: i in stamps ==> stamps[i] < clock
    ensures Ordered([x] + list, stamps[x := clock])
  {
    var front := [x] + list;
    assert forall k :: 1 <= k < |front| ==> front[k] == list[k - 1] && front[k] in list;
  }

  // The first entry of a list stays first.
  lemma {:induction false} KeepLiveHead(list: seq<Id>, live: set<Id>)
    requires list != [] && list[0] in live
    ensures KeepLive(list, live) != [] && KeepLive(list, live)[0] == list[0]
  {
    if |list| > 1 {
      KeepLiveHead(list[..|list| - 1], live);
    } else {
      assert list[..0] == [];
    }
  }

  // In an ordered list that misses no one, the layers before an entry are
  // those that came, or were raised, after it.
  lemma LayerIsRank(list: seq<Id>, stamps: map<Id, nat>, all: set<Id>, cursors: set<Id>, k: nat)
    requires Ordered(list, stamps) && k < |list|
    requires forall i :: i in all <==> i in list
    ensures Layers(list[..k], cursors) == |set i | i in all && i !in cursors && stamps[i] > stamps[list[k]]|
  {
    OrderedDistinct(list, stamps);
    LayersCount(list[..k], cursors);
    var later := set i | i in all && i !in cursors && stamps[i] > stamps[list[k]];
    forall i | i in later
      ensures i in list[..k]
    {
      var j :| 0 <= j < |list| && list[j] == i;
      assert j < k;
    }
    assert later == Counted(list[..k], cursors);
  }

  // ---- nearest hit ------------------------------------------------------------------

  // An object that the ray hits, and how far away.
  datatype Hit = Hit(id: Id, distance: real)

  // Of the entries that are hit, the last whose distance is least.
  ghost predicate IsNearest(list: seq<Id>, hits: map<Id, real>, nearest: Option<Hit>) {
    if nearest.None? then forall i :: i in list ==> i !in hits
    else
      exists k :: 0 <= k < |list| && IsNearestAt(list, hits, nearest.value, k)
  }

  ghost predicate IsNearestAt(list: seq<Id>, hits: map<Id, real>, h: Hit, k: nat)
    requires k < |list|
  {
    && list[k] == h.id && h.id in hits && hits[h.id] == h.distance
    && forall j :: 0 <= j < |list| && list[j] in hits ==>
         if j <= k then h.distance <= hits[list[j]] else h.distance < hits[list[j]]
  }

  // One more entry takes over when it is hit no farther away.
  function Nearer(nearest: Option<Hit>, hits: map<Id, real>, i: Id): Option<Hit> {
    if i in hits && (nearest.None? || hits[i] <= nearest.value.distance) then Some(Hit(i, hits[i])) else nearest
  }

  lemma NearerNext(list: seq<Id>, hits: map<Id, real>, nearest: Option<Hit>, i: Id)
    requires IsNearest(list, hits, nearest)
    ensures IsNearest(list + [i], hits, Nearer(nearest, hits, i))
  {
    var more := list + [i];
    if nearest.Some? {
      var k :| 0 <= k < |list| && IsNearestAt(list, hits, nearest.value, k);
      assert more[k] == list[k];
      if i in hits && hits[i] <= nearest.value.distance {
        assert IsNearestAt(more, hits, Hit(i, hits[i]), |list|);
      } else {
        assert IsNearestAt(more, hits, nearest.value, k);
      }
    } else if i in hits {
      assert IsNearestAt(more, hits, Hit(i, hits[i]), |list|);
    }
  }

  // There is only one such entry in a list of different entries.
  lemma NearestUnique(list: seq<Id>, hits: map<Id, real>, a: Option<Hit>, b: Option<Hit>)
    requires IsNearest(list, hits, a) && IsNearest(list, hits, b)
    ensures a == b
  {
    if a.Some? && b.Some? {
      var j :| 0 <= j < |list| && IsNearestAt(list, hits, a.value, j);
      var k :| 0 <= k < |list| && IsNearestAt(list, hits, b.value, k);
    }
  }

  // Walks a list, dropping dead entries, in search of a nearer hit.
  method Scan(list: seq<Id>, live: set<Id>, hits: map<Id, real>, start: Option<Hit>, ghost before: seq<Id>)
    returns (kept: seq<Id>, nearest: Option<Hit>)
    requires IsNearest(before, hits, start)
    ensures kept == KeepLive(list, live) && IsNearest(before + kept, hits, nearest)
  {
    hide IsNearest, Nearer, KeepLive;
    ghost var n := 0;
    var it := 0;
    kept, nearest := list, start;
    NoneKept(list, live);
    assert before + kept[..0] == before;
    while it < |kept|
      invariant it <= |kept| && n <= |list| && |kept| - it == |list| - n
      invariant kept[..it] == KeepLive(list[..n], live) && kept[it..] == list[n..]
      invariant IsNearest(before + kept[..it], hits, nearest)
      decreases |kept| - it
    {
      KeepLiveNext(list, n, live);
      assert kept[it] == list[n];
      ghost var seen := kept[..it];
      n := n + 1;
      if kept[it] in live {
        NearerNext(before + seen, hits, nearest, kept[it]);
        nearest := Nearer(nearest, hits, kept[it]);
        it := it + 1;
        assert before + kept[..it] == before + seen + [kept[it - 1]];
      } else {
        kept := kept[..it] + kept[it + 1..];
        assert kept[..it] == seen;
      }
    }
    assert kept == kept[..it] && list == list[..n];
  }

  lemma NoneKept(list: seq<Id>, live: set<Id>)
    ensures KeepLive(list[..0], live) == []
  {
  }

  // A ray, the trigonometry that tells where things are, and how far away the
  // ray hits the bounded apps.
  datatype Sight = Sight(origin: Vec3, direction: Vec3, trig: Trig, apps: map<Id, real>)

  // A bounded app as the seat moves it.
  datatype App = App(client: Id, polar: real, azimuthal: real)

  // ---- the server -----------------------------------------------------------------

  class Server {
    var surfaces: seq<Id>
    var boundedApps: seq<Id>
    // What can be locked.
    var live: map<Id, Surface>
    var liveApps: map<Id, App>
    // When each surface was last created or raised.
    ghost var stamps: map<Id, nat>
    ghost var clock: nat

    constructor ()
      ensures Valid() && surfaces == [] && boundedApps == [] && live == map[] && liveApps == map[]
    {
      surfaces, boundedApps, live, liveApps := [], [], map[], map[];
      stamps, clock := map[], 0;
    }

    ghost function Cursors(): set<Id>
      reads this`live, live.Values`role
    {
      set i | i in live && live[i].role == Cursor
    }

    // The live surfaces are filed, and their renderers follow them.
    ghost predicate Filed()
      reads this`live, live.Values
    {
      forall i :: i in live ==> live[i].id == i && live[i].Valid()
    }

    // Every live surface is in the list, which is in the order of stamps.
    ghost predicate Listed()
      reads this`live, this`surfaces, this`stamps, this`clock
    {
      && (forall i :: i in live ==> i in surfaces)
      && Ordered(surfaces, stamps)
      && (forall i :: i in stamps ==> stamps[i] < clock)
    }

    // An id is of a surface or of an app.
    ghost predicate Apart()
      reads this`live, this`liveApps
    {
      live.Keys !! liveApps.Keys
    }

    ghost predicate Stacked(i: Id)
      reads this`live, live.Values`role
    {
      i in live && live[i].role != Cursor
    }

    // Distances strictly increase along the list.
    ghost predicate Layered()
      reads this`live, this`surfaces, live.Values`role, live.Values`distance
    {
      forall j, k :: 0 <= j < k < |surfaces| && Stacked(surfaces[j]) && Stacked(surfaces[k]) ==>
        live[surfaces[j]].distance < live[surfaces[k]].distance
    }

    ghost predicate Valid()
      reads this, live.Values
    {
      Filed() && Listed() && Layered() && Apart()
    }

    // Each stacked surface of a list stands at the distance of its layer.
    ghost predicate InPlace(list: seq<Id>)
      reads this`live, live.Values`role, live.Values`distance
    {
      forall k :: 0 <= k < |list| && Stacked(list[k]) ==>
        live[list[k]].distance == DistanceOf(Layers(list[..k], Cursors()))
    }

    lemma InPlaceLayered()
      requires InPlace(surfaces)
      ensures Layered()
    {
      forall j, k | 0 <= j < k < |surfaces| && Stacked(surfaces[j]) && Stacked(surfaces[k])
        ensures live[surfaces[j]].distance < live[surfaces[k]].distance
      {
        LayersNext(surfaces, j, Cursors());
        LayersGrow(surfaces, j + 1, k, Cursors());
      }
    }

    lemma Start(list: seq<Id>, cursors: set<Id>)
      ensures InPlace(list[..0]) && Layers(list[..0], cursors) == 0 && KeepLive(list[..0], live.Keys) == []
    {
    }

    // The next surface of a list is given its layer.
    method Visit(x: Id, surface: Surface, index: nat, ghost before: seq<Id>) returns (consumed: bool)
      requires Filed() && x in live && live[x] == surface && x !in before
      requires InPlace(before) && index == Layers(before, Cursors())
      modifies surface`distance, surface`position, surface`rotation, surface`renderer
      ensures Filed() && Cursors() == old(Cursors()) && InPlace(before + [x])
      ensures consumed == (x !in Cursors())
    {
      consumed := surface.UpdateDistanceByLayerIndex(index);
      var list := before + [x];
      assert Cursors() == old(Cursors());
      forall k | 0 <= k < |list| && Stacked(list[k])
        ensures live[list[k]].distance == DistanceOf(Layers(list[..k], Cursors()))
      {
        if k < |before| {
          assert list[..k] == before[..k] && list[k] == before[k] && before[k] != x;
        } else {
          assert list[..k] == before;
        }
      }
    }

    // Walks the list, dropping dead entries, and hands out the layers.
    method ReorderSurfaces()
      requires Filed() && Distinct(surfaces)
      modifies this`surfaces, live.Values`distance, live.Values`position, live.Values`rotation, live.Values`renderer
      ensures Filed() && Cursors() == old(Cursors()) && InPlace(surfaces)
      ensures surfaces == KeepLive(old(surfaces), live.Keys)
    {
      hide InPlace, Filed, Cursors, Layers, KeepLive;
      ghost var list, cursors, n := surfaces, Cursors(), 0;
      var it, surfaceIndex := 0, 0;
      Start(list, cursors);
      while it < |surfaces|
        invariant it <= |surfaces| && n <= |list| && |surfaces| - it == |list| - n
        invariant surfaces[..it] == KeepLive(list[..n], live.Keys) && surfaces[it..] == list[n..]
        invariant Filed() && Cursors() == cursors && surfaceIndex == Layers(surfaces[..it], cursors)
        invariant InPlace(surfaces[..it])
        decreases |surfaces| - it
      {
        KeepLiveNext(list, n, live.Keys);
        KeepLiveElements(list[..n], live.Keys);
        assert surfaces[it] == list[n];
        ghost var before := surfaces[..it];
        n := n + 1;
        if surfaces[it] in live {
          LayersNext(surfaces, it, cursors);
          var consumed := Visit(surfaces[it], live[surfaces[it]], surfaceIndex, before);
          if consumed {
            surfaceIndex := surfaceIndex + 1;
          }
          it := it + 1;
          assert surfaces[..it] == before + [surfaces[it - 1]];
        } else {
          surfaces := surfaces[..it] + surfaces[it + 1..];
          assert surfaces[..it] == before;
        }
      }
      assert surfaces == surfaces[..it] && list == list[..n];
    }

    // After a walk of the list all is as it should be again.
    lemma Reordered(list: seq<Id>)
      requires Filed() && Apart() && Ordered(list, stamps) && (forall i :: i in live ==> i in list)
      requires surfaces == KeepLive(list, live.Keys) && InPlace(surfaces)
      requires forall i :: i in stamps ==> stamps[i] < clock
      ensures Valid()
    {
      KeepLiveElements(list, live.Keys);
      KeepLiveOrdered(list, live.Keys, stamps);
      InPlaceLayered();
    }

    method AddSurface(s: Surface)
      requires Valid() && s.id !in surfaces && s.id !in live && s.id !in liveApps && s.Valid() && s !in live.Values
      modifies this`surfaces, this`live, this`stamps, this`clock
      modifies s`distance, s`position, s`rotation, s`renderer
      modifies live.Values`distance, live.Values`position, live.Values`rotation, live.Values`renderer
      ensures Valid() && InPlace(surfaces) && live == old(live)[s.id := s]
      ensures surfaces == KeepLive([s.id] + old(surfaces), live.Keys)
      ensures stamps == old(stamps)[s.id := old(clock)]
      ensures s.role == old(s.role)
    {
      hide InPlace, KeepLive;
      NewFrontOrdered(surfaces, s.id, stamps, clock);
      live, stamps, clock := live[s.id := s], stamps[s.id := clock], clock + 1;
      surfaces := [s.id] + surfaces;
      ghost var list := surfaces;
      OrderedDistinct(surfaces, stamps);
      ReorderSurfaces();
      Reordered(list);
    }

    // The first live entry for the resource, if there is one.
    method FindSurface(i: Id) returns (at: Option<nat>)
      ensures at.Some? ==> at.value < |surfaces| && surfaces[at.value] == i && i in live
      ensures at.None? ==> i !in surfaces || i !in live
    {
      for k := 0 to |surfaces|
        invariant forall j :: 0 <= j < k ==> surfaces[j] != i || i !in live
      {
        if surfaces[k] in live && surfaces[k] == i {
          return Some(k);
        }
      }
      at := None;
    }

    method Raise(p: nat)
      requires Valid() && p < |surfaces| && surfaces[p] in live
      modifies this`surfaces, this`stamps, this`clock
      modifies live.Values`distance, live.Values`position, live.Values`rotation, live.Values`renderer
      ensures Valid() && Cursors() == old(Cursors()) && InPlace(surfaces)
      ensures surfaces == KeepLive(ToFront(old(surfaces), p), live.Keys)
      ensures stamps == old(stamps)[old(surfaces)[p] := old(clock)]
    {
      hide ToFront, InPlace, Cursors, KeepLive, Layered;
      FrontOrdered(surfaces, p, stamps, clock);
      stamps, clock := stamps[surfaces[p] := clock], clock + 1;
      surfaces := ToFront(surfaces, p);
      ghost var list := surfaces;
      OrderedDistinct(surfaces, stamps);
      ReorderSurfaces();
      Reordered(list);
    }

    lemma FirstInPlace()
      requires InPlace(surfaces) && surfaces != []
      ensures Stacked(surfaces[0]) ==> live[surfaces[0]].distance == MIN_DISTANCE
    {
      assert surfaces[..0] == [];
    }

    // A live surface comes to the front and is the nearest; a dead one is
    // ignored.
    method RaiseSurfaceTop(i: Id)
      requires Valid()
      modifies this`surfaces, this`stamps, this`clock
      modifies live.Values`distance, live.Values`position, live.Values`rotation, live.Values`renderer
      ensures Valid() && Cursors() == old(Cursors())
      ensures i !in live ==> surfaces == old(surfaces) && stamps == old(stamps)
      ensures i in live ==>
                && InPlace(surfaces) && surfaces != [] && surfaces[0] == i && stamps == old(stamps)[i := old(clock)]
                && (live[i].role != Cursor ==> live[i].distance == MIN_DISTANCE)
    {
      hide ToFront, KeepLive, InPlace, Cursors, Filed, Layered;
      var found := FindSurface(i);
      if found.Some? {
        ToFrontAt(surfaces, found.value);
        KeepLiveHead(ToFront(surfaces, found.value), live.Keys);
        Raise(found.value);
        FirstInPlace();
      }
    }

    method SetActivated(i: Id, activated: bool)
      requires Valid() && i in live
      modifies live.Values`activated
      ensures Valid()
      ensures forall j :: j in live ==> live[j].activated == if j == i then activated else old(live[j].activated)
    {
      live[i].SetActivated(activated);
    }

    method SetActive(i: Id, active: bool)
      requires Valid() && i in live
      modifies live.Values`isActive, live.Values`renderer
      ensures Valid()
      ensures forall j :: j in live ==> live[j].isActive == if j == i then active else old(live[j].isActive)
    {
      live[i].SetActive(active);
    }

    method MoveCursor(i: Id, leftTop: Vec3, rot: Rotation)
      requires Valid() && i in live
      modifies live.Values`position, live.Values`rotation, live.Values`renderer
      ensures Valid() && live[i].rotation == rot
      ensures live[i].position == Placed(Vec3(leftTop.x + live[i].texWidth as real / 2.0 / PIXEL_PER_METER,
                                              leftTop.y - live[i].texHeight as real / 2.0 / PIXEL_PER_METER, leftTop.z))
    {
      live[i].MoveCursor(leftTop, rot);
    }

    ghost function AnglesOf(i: Id): Angles
      requires i in live || i in liveApps
      reads this`live, this`liveApps, live.Values`polar, live.Values`azimuthal
    {
      if i in live then Angles(live[i].polar, live[i].azimuthal) else Angles(liveApps[i].polar, liveApps[i].azimuthal)
    }

    // The object turns by these angles, and no other does.
    method MoveObject(i: Id, polar: real, azimuthal: real)
      requires Valid() && (i in live || i in liveApps)
      modifies this`liveApps, live.Values`polar, live.Values`azimuthal
      modifies live.Values`position, live.Values`rotation, live.Values`renderer
      ensures Valid() && liveApps.Keys == old(liveApps.Keys)
      ensures AnglesOf(i) == old(AnglesOf(i)).Plus(polar, azimuthal)
      ensures forall j :: (j in live || j in liveApps) && j != i ==> AnglesOf(j) == old(AnglesOf(j))
      ensures forall j :: j in liveApps ==> liveApps[j].client == old(liveApps)[j].client
    {
      hide Layered, Listed;
      if i in live {
        live[i].Move(polar, azimuthal);
      } else {
        var app := liveApps[i];
        liveApps := liveApps[i := app.(polar := app.polar + polar, azimuthal := app.azimuthal + azimuthal)];
      }
    }

    function ClientOf(i: Id): Id
      requires i in live || i in liveApps
      reads this`live, this`liveApps
    {
      if i in live then live[i].client else liveApps[i].client
    }

    method SurfaceDies(i: Id)
      requires Valid() && i in live
      modifies this`live
      ensures Valid() && live == old(live) - {i}
    {
      live := live - {i};
    }

    // A surface that becomes a cursor leaves the stack; the others keep their
    // places. Roles are permanent, so it never comes back.
    method BecomesCursor(i: Id)
      requires Valid() && i in live
      modifies live.Values`role, live.Values`toplevel
      ensures Valid() && live[i].role == Cursor && !live[i].toplevel
      ensures forall j :: j in live && j != i ==>
              live[j].role == old(live[j].role) && live[j].toplevel == old(live[j].toplevel)
    {
      live[i].SetRole(Cursor, false);
    }

    // A surface becomes the cursor on show.
    method ShowCursor(i: Id, leftTop: Vec3, rot: Rotation)
      requires Valid() && i in live
      modifies live.Values`role, live.Values`toplevel, live.Values`isActive
      modifies live.Values`position, live.Values`rotation, live.Values`renderer
      ensures Valid() && live[i].role == Cursor && !live[i].toplevel && live[i].isActive && live[i].rotation == rot
      ensures forall j :: j in live && j != i ==>
                && live[j].role == old(live[j].role) && live[j].toplevel == old(live[j].toplevel)
                && live[j].isActive == old(live[j].isActive)
      ensures live[i].position == Placed(Vec3(leftTop.x + live[i].texWidth as real / 2.0 / PIXEL_PER_METER,
                                              leftTop.y - live[i].texHeight as real / 2.0 / PIXEL_PER_METER, leftTop.z))
    {
      hide Valid;
      BecomesCursor(i);
      SetActive(i, true);
      MoveCursor(i, leftTop, rot);
    }

    // A surface that becomes a toplevel keeps its place.
    method BecomesToplevel(i: Id)
      requires Valid() && i in live && live[i].role == Default
      modifies live.Values`role, live.Values`toplevel
      ensures Valid() && live[i].role == XdgToplevel && live[i].toplevel
      ensures forall j :: j in live && j != i ==>
              live[j].role == old(live[j].role) && live[j].toplevel == old(live[j].toplevel)
    {
      live[i].SetRole(XdgToplevel, true);
    }

    // The layer of a stacked surface is the number of stacked surfaces that
    // were created or raised after it.
    lemma LayerCountsLater(k: nat)
      requires Valid() && InPlace(surfaces) && k < |surfaces| && Stacked(surfaces[k])
      requires forall i :: i in surfaces ==> i in live
      ensures live[surfaces[k]].distance ==
              0.4 + 0.0001 * (|set i | i in live && i !in Cursors() && stamps[i] > stamps[surfaces[k]]|) as real
    {
      LayerIsRank(surfaces, stamps, live.Keys, Cursors(), k);
    }

    method AddBoundedApp(i: Id, app: App)
      requires Valid() && i !in boundedApps && i !in live
      modifies this`boundedApps, this`liveApps
      ensures Valid() && boundedApps == [i] + old(boundedApps) && liveApps == old(liveApps)[i := app]
    {
      boundedApps, liveApps := [i] + boundedApps, liveApps[i := app];
    }

    method AppDies(i: Id)
      requires Valid()
      modifies this`liveApps
      ensures Valid() && liveApps == old(liveApps) - {i}
    {
      liveApps := liveApps - {i};
    }

    // Drops the dead surfaces as a walk of the list does.
    method KeepSurfaces(kept: seq<Id>)
      requires Valid() && kept == KeepLive(surfaces, live.Keys)
      modifies this`surfaces
      ensures Valid() && surfaces == kept
    {
      hide KeepLive, Stacked;
      KeepLiveElements(surfaces, live.Keys);
      KeepLiveOrdered(surfaces, live.Keys, stamps);
      KeepLiveLayered();
      surfaces := kept;
    }

    // The ray is along the plane of no surface that is tested.
    predicate Aimed(sight: Sight)
      reads this`live, live.Values`texture, live.Values`role, live.Values`position, live.Values`rotation
      reads live.Values`scale
    {
      forall i :: i in live && live[i].Pointable() ==> live[i].CornersIn(sight.trig).Aslant(sight.direction)
    }

    function SurfaceHit(sight: Sight, i: Id): Option<PixelHit>
      requires i in live && Aimed(sight)
      reads this`live, live.Values`texture, live.Values`role, live.Values`texWidth, live.Values`texHeight
      reads live.Values`position, live.Values`rotation, live.Values`scale
    {
      live[i].CheckIntersection(sight.origin, sight.direction, sight.trig)
    }

    // Every object that the ray hits, and how far away.
    function Hits(sight: Sight): map<Id, real>
      requires Aimed(sight)
      reads this`live, this`liveApps, live.Values`texture, live.Values`role, live.Values`texWidth, live.Values`texHeight
      reads live.Values`position, live.Values`rotation, live.Values`scale
    {
      (map i | i in liveApps && i in sight.apps :: sight.apps[i]) +
      (map i | i in live && SurfaceHit(sight, i).Some? :: SurfaceHit(sight, i).value.distance)
    }

    // The ray meets a surface that can be pointed at, that far away.
    ghost predicate SurfaceMet(sight: Sight, i: Id, t: real)
      reads this`live, live.Values`texture, live.Values`role, live.Values`texWidth, live.Values`texHeight
      reads live.Values`position, live.Values`rotation, live.Values`scale
    {
      && i in live && live[i].texture.Some? && live[i].role != Cursor
      && exists h: PixelHit :: h.distance == t && live[i].MetAt(sight.origin, sight.direction, sight.trig, h)
    }

    // A surface is hit where the ray meets it, and an app where it is said to be.
    lemma HitsIff(sight: Sight, i: Id, t: real)
      requires Aimed(sight) && live.Keys !! liveApps.Keys
      ensures i in live ==> (i in Hits(sight) && Hits(sight)[i] == t <==> SurfaceMet(sight, i, t))
      ensures i in liveApps ==> (i in Hits(sight) && Hits(sight)[i] == t <==> i in sight.apps && sight.apps[i] == t)
      ensures i !in live && i !in liveApps ==> i !in Hits(sight)
    {
      if i in live {
        var hit := SurfaceHit(sight, i);
        if hit.Some? {
          live[i].HitIff(sight.origin, sight.direction, sight.trig, hit.value);
        }
        if SurfaceMet(sight, i, t) {
          var h: PixelHit :| h.distance == t && live[i].MetAt(sight.origin, sight.direction, sight.trig, h);
          live[i].HitIff(sight.origin, sight.direction, sight.trig, h);
        }
      }
    }

    // What is hit is an app, or a surface with a texture that is no cursor.
    lemma HitsAreShown(sight: Sight, i: Id)
      requires Aimed(sight) && i in Hits(sight)
      ensures i in liveApps || (i in live && live[i].role != Cursor && live[i].texture.Some?)
    {
    }

    // Scans the surfaces and then the bounded apps.
    method NearestHit(hits: map<Id, real>) returns (nearest: Option<Hit>)
      requires Valid()
      modifies this`surfaces, this`boundedApps
      ensures Valid()
      ensures surfaces == KeepLive(old(surfaces), live.Keys) && boundedApps == KeepLive(old(boundedApps), liveApps.Keys)
      ensures forall i :: i in live ==> i in surfaces
      ensures IsNearest(surfaces + boundedApps, hits, nearest)
      ensures nearest.Some? ==> nearest.value.id in live || nearest.value.id in liveApps
    {
      hide IsNearest, KeepLive, Filed, Layered, Listed;
      NoneNearest(hits);
      var kept, first := Scan(surfaces, live.Keys, hits, None, []);
      assert [] + kept == kept;
      KeepSurfaces(kept);
      KeepLiveElements(old(surfaces), live.Keys);
      KeepLiveElements(boundedApps, liveApps.Keys);
      AllListed();
      boundedApps, nearest := Scan(boundedApps, liveApps.Keys, hits, first, kept);
      NearestListed(surfaces + boundedApps, hits, nearest);
    }

    lemma NoneNearest(hits: map<Id, real>)
      ensures IsNearest([], hits, None)
    {
    }

    lemma AllListed()
      requires Valid()
      ensures forall i :: i in live ==> i in surfaces
    {
    }

    lemma Separate()
      requires Valid()
      ensures live.Keys !! liveApps.Keys
    {
    }

    lemma MetIsLive(sight: Sight, i: Id, t: real)
      requires SurfaceMet(sight, i, t)
      ensures i in live
    {
    }

    // No entry is hit nearer.
    lemma NearestIsLeast(list: seq<Id>, hits: map<Id, real>, nearest: Option<Hit>, i: Id)
      requires IsNearest(list, hits, nearest) && i in list && i in hits
      ensures nearest.Some? && nearest.value.distance <= hits[i]
    {
    }

    lemma NearestIsHit(list: seq<Id>, hits: map<Id, real>, nearest: Option<Hit>)
      requires IsNearest(list, hits, nearest)
      ensures nearest.Some? ==> nearest.value.id in hits && hits[nearest.value.id] == nearest.value.distance
    {
    }

    lemma NearestListed(list: seq<Id>, hits: map<Id, real>, nearest: Option<Hit>)
      requires IsNearest(list, hits, nearest)
      ensures nearest.Some? ==> nearest.value.id in list
    {
    }

    lemma KeepLiveLayered()
      requires Listed() && Layered()
      ensures var kept := KeepLive(surfaces, live.Keys);
              forall j, k :: 0 <= j < k < |kept| && Stacked(kept[j]) && Stacked(kept[k]) ==>
                live[kept[j]].distance < live[kept[k]].distance
    {
      var kept := KeepLive(surfaces, live.Keys);
      KeepLiveOrdered(surfaces, live.Keys, stamps);
      KeepLiveElements(surfaces, live.Keys);
      forall j, k | 0 <= j < k < |kept| && Stacked(kept[j]) && Stacked(kept[k])
        ensures live[kept[j]].distance < live[kept[k]].distance
      {
        assert kept[j] in kept && kept[k] in kept;
        var p :| 0 <= p < |surfaces| && surfaces[p] == kept[j];
        var q :| 0 <= q < |surfaces| && surfaces[q] == kept[k];
        assert stamps[surfaces[p]] > stamps[surfaces[q]];
      }
    }
  }
}

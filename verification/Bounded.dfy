// A bounded app: an oriented box with cuboid regions inside, sized by a
// handshake with its client.
module Boundeds {
  import opened Common
  import opened Intersections
  import opened Rotations

  datatype Region = Region(halfSize: Vec3, center: Vec3, turn: Turn) {
    // The points of the region, in the app's own space.
    predicate Holds(y: Vec3) {
      && Abs(turn.x.Dot(y.Minus(center))) <= halfSize.x
      && Abs(turn.y.Dot(y.Minus(center))) <= halfSize.y
      && Abs(turn.z.Dot(y.Minus(center))) <= halfSize.z
    }
  }

  // A point of the app's own space, in the scene.
  function Placed(turn: Turn, pos: Vec3, y: Vec3): Vec3 {
    pos.Plus(turn.Apply(y))
  }

  function BoxOf(turn: Turn, pos: Vec3, halfSize: Vec3): Box {
    Obb([turn.x, turn.y, turn.z], pos, [halfSize.x, halfSize.y, halfSize.z])
  }

  // A region is placed relative to the app it belongs to.
  function RegionBox(turn: Turn, pos: Vec3, r: Region): Box {
    BoxOf(turn.After(r.turn), pos.Plus(turn.Apply(r.center)), r.halfSize)
  }

  // ---- where the boxes are ------------------------------------------------------

  lemma Around(turn: Turn, pos: Vec3, y: Vec3, c: Vec3)
    ensures Placed(turn, pos, y).Minus(pos.Plus(turn.Apply(c))) == turn.Apply(y.Minus(c))
  {
  }

  // The tested box of a region holds what the region holds, once it is placed.
  lemma RegionIsPlaced(turn: Turn, pos: Vec3, r: Region, y: Vec3)
    requires turn.Orthonormal()
    ensures InBox(RegionBox(turn, pos, r), Placed(turn, pos, y)) <==> r.Holds(y)
  {
    hide Vec3.Dot, Vec3.Minus, Vec3.Plus, Turn.Apply, Turn.Orthonormal, Placed, Abs;
    var box := RegionBox(turn, pos, r);
    Around(turn, pos, y, r.center);
    TurnKeepsDot(turn, r.turn.x, y.Minus(r.center));
    TurnKeepsDot(turn, r.turn.y, y.Minus(r.center));
    TurnKeepsDot(turn, r.turn.z, y.Minus(r.center));
    assert box.axes[0] == turn.Apply(r.turn.x) && box.axes[1] == turn.Apply(r.turn.y)
      && box.axes[2] == turn.Apply(r.turn.z);
  }

  // So does the outer box, which is upright in the app's own space.
  lemma OuterIsPlaced(turn: Turn, pos: Vec3, halfSize: Vec3, y: Vec3)
    requires turn.Orthonormal()
    ensures InBox(BoxOf(turn, pos, halfSize), Placed(turn, pos, y)) <==>
            Abs(y.x) <= halfSize.x && Abs(y.y) <= halfSize.y && Abs(y.z) <= halfSize.z
  {
    hide Vec3.Dot, Vec3.Minus, Vec3.Plus, Turn.Apply, Turn.Orthonormal, Placed, Abs;
    var box := BoxOf(turn, pos, halfSize);
    FromCentre(turn, pos, y);
    AlongApply(turn, y);
    assert box.axes[0] == turn.x && box.axes[1] == turn.y && box.axes[2] == turn.z;
  }

  lemma FromCentre(turn: Turn, pos: Vec3, y: Vec3)
    ensures Placed(turn, pos, y).Minus(pos) == turn.Apply(y)
  {
  }

  lemma SomePlace(turn: Turn, pos: Vec3, x: Vec3)
    requires turn.Orthonormal()
    ensures Placed(turn, pos, turn.Along(x.Minus(pos))) == x
  {
    hide Turn.Apply, Turn.Along, Turn.Orthonormal;
    ApplyAlong(turn, x.Minus(pos));
  }

  // Some region of an app that stands there holds that point of the scene.
  ghost predicate Occupied(turn: Turn, pos: Vec3, regions: seq<Region>, x: Vec3) {
    exists k, y :: 0 <= k < |regions| && regions[k].Holds(y) && x == Placed(turn, pos, y)
  }

  ghost predicate AreRegions(turn: Turn, pos: Vec3, regions: seq<Region>, boxes: seq<Box>) {
    |boxes| == |regions| && forall k :: 0 <= k < |regions| ==> boxes[k] == RegionBox(turn, pos, regions[k])
  }

  lemma OccupiedIff(turn: Turn, pos: Vec3, regions: seq<Region>, boxes: seq<Box>, x: Vec3)
    requires turn.Orthonormal() && AreRegions(turn, pos, regions, boxes)
    ensures InSomeBox(boxes, x) <==> Occupied(turn, pos, regions, x)
  {
    hide InBox, Placed, RegionBox, Region.Holds, Turn.Orthonormal;
    SomePlace(turn, pos, x);
    if InSomeBox(boxes, x) {
      var k :| 0 <= k < |boxes| && InBox(boxes[k], x);
      RegionIsPlaced(turn, pos, regions[k], turn.Along(x.Minus(pos)));
    }
    if Occupied(turn, pos, regions, x) {
      var k, y :| 0 <= k < |regions| && regions[k].Holds(y) && x == Placed(turn, pos, y);
      RegionIsPlaced(turn, pos, regions[k], y);
      assert InBox(boxes[k], x);
    }
  }

  // `near` is where the ray first comes to a point of some region in range.
  ghost predicate FirstOccupied(o: Vec3, d: Vec3, turn: Turn, pos: Vec3, regions: seq<Region>, near: Option<real>) {
    if near.None? then forall t :: 0.0 <= t <= MAX_DISTANCE ==> !Occupied(turn, pos, regions, At(o, d, t))
    else
      && 0.0 <= near.value <= MAX_DISTANCE && Occupied(turn, pos, regions, At(o, d, near.value))
      && forall t :: 0.0 <= t <= MAX_DISTANCE && Occupied(turn, pos, regions, At(o, d, t)) ==> near.value <= t
  }

  lemma EntryIsOccupied(
    o: Vec3, d: Vec3, turn: Turn, pos: Vec3, regions: seq<Region>, boxes: seq<Box>, near: Option<real>)
    requires turn.Orthonormal() && AreRegions(turn, pos, regions, boxes) && FirstEntry(o, d, boxes, near)
    ensures FirstOccupied(o, d, turn, pos, regions, near)
  {
    hide Occupied, InSomeBox, At, Turn.Orthonormal, AreRegions;
    forall t
      ensures InSomeBox(boxes, At(o, d, t)) <==> Occupied(turn, pos, regions, At(o, d, t))
    {
      OccupiedIff(turn, pos, regions, boxes, At(o, d, t));
    }
  }

  // On exact axes the first hit is the first entry.
  lemma FirstIsEntry(o: Vec3, d: Vec3, boxes: seq<Box>, near: Option<real>)
    requires FirstInSome(o, d, boxes, near) && forall k :: 0 <= k < |boxes| ==> BoxExact(o, d, boxes[k])
    ensures FirstEntry(o, d, boxes, near)
  {
    hide InSlabs, InSomeSlabs, InSomeBox, At, BoxExact;
    forall t | 0.0 <= t <= MAX_DISTANCE
      ensures InSomeSlabs(o, d, boxes, t) <==> InSomeBox(boxes, At(o, d, t))
    {
      SomeSlabsAreSomeBox(o, d, boxes, t);
    }
  }

  lemma SomeSlabsAreSomeBox(o: Vec3, d: Vec3, boxes: seq<Box>, t: real)
    requires 0.0 <= t <= MAX_DISTANCE && forall k :: 0 <= k < |boxes| ==> BoxExact(o, d, boxes[k])
    ensures InSomeSlabs(o, d, boxes, t) <==> InSomeBox(boxes, At(o, d, t))
  {
    hide BoxExact, InSlabs, InBox, At;
    forall k | 0 <= k < |boxes|
      ensures InSlabs(o, d, boxes[k], 3, t) <==> InBox(boxes[k], At(o, d, t))
    {
      SlabsAreBox(o, d, boxes[k], t);
    }
  }

  // The regions lie inside the app, in its own space.
  ghost predicate Inside(halfSize: Vec3, regions: seq<Region>) {
    forall k, y :: 0 <= k < |regions| && regions[k].Holds(y) ==>
      Abs(y.x) <= halfSize.x && Abs(y.y) <= halfSize.y && Abs(y.z) <= halfSize.z
  }

  lemma InsideIsContained(turn: Turn, pos: Vec3, halfSize: Vec3, regions: seq<Region>, boxes: seq<Box>)
    requires turn.Orthonormal() && AreRegions(turn, pos, regions, boxes) && Inside(halfSize, regions)
    ensures Contained(BoxOf(turn, pos, halfSize), boxes)
  {
    hide InBox, Placed, RegionBox, BoxOf, Region.Holds, Turn.Orthonormal, Abs;
    forall x, k | 0 <= k < |boxes| && InBox(boxes[k], x)
      ensures InBox(BoxOf(turn, pos, halfSize), x)
    {
      var y := turn.Along(x.Minus(pos));
      SomePlace(turn, pos, x);
      RegionIsPlaced(turn, pos, regions[k], y);
      OuterIsPlaced(turn, pos, halfSize, y);
    }
  }

  // ---- the first of several boxes -------------------------------------------------

  predicate InSomeSlabs(o: Vec3, d: Vec3, boxes: seq<Box>, t: real) {
    exists k :: 0 <= k < |boxes| && InSlabs(o, d, boxes[k], 3, t)
  }

  predicate InSomeBox(boxes: seq<Box>, x: Vec3) {
    exists k :: 0 <= k < |boxes| && InBox(boxes[k], x)
  }

  function Max(a: real, b: real): real {
    if a < b then b else a
  }

  function Hit(outer: Option<real>, inner: Option<real>): Option<real> {
    if outer.Some? && inner.Some? then Some(Max(inner.value, outer.value)) else None
  }

  ghost predicate FirstInSome(o: Vec3, d: Vec3, boxes: seq<Box>, near: Option<real>) {
    if near.None? then forall t :: 0.0 <= t <= MAX_DISTANCE ==> !InSomeSlabs(o, d, boxes, t)
    else
      && 0.0 <= near.value <= MAX_DISTANCE && InSomeSlabs(o, d, boxes, near.value)
      && forall t :: 0.0 <= t <= MAX_DISTANCE && InSomeSlabs(o, d, boxes, t) ==> near.value <= t
  }

  // `near` is where the ray first enters a box, if it does so in range.
  ghost predicate FirstEntry(o: Vec3, d: Vec3, boxes: seq<Box>, near: Option<real>) {
    if near.None? then forall t :: 0.0 <= t <= MAX_DISTANCE ==> !InSomeBox(boxes, At(o, d, t))
    else
      && 0.0 <= near.value <= MAX_DISTANCE && InSomeBox(boxes, At(o, d, near.value))
      && forall t :: 0.0 <= t <= MAX_DISTANCE && InSomeBox(boxes, At(o, d, t)) ==> near.value <= t
  }

  lemma OneMoreBox(o: Vec3, d: Vec3, boxes: seq<Box>, b: Box, t: real)
    ensures InSomeSlabs(o, d, boxes + [b], t) <==> InSomeSlabs(o, d, boxes, t) || InSlabs(o, d, b, 3, t)
  {
    var more := boxes + [b];
    if InSlabs(o, d, b, 3, t) {
      assert InSlabs(o, d, more[|boxes|], 3, t);
    }
    if InSomeSlabs(o, d, boxes, t) {
      var k :| 0 <= k < |boxes| && InSlabs(o, d, boxes[k], 3, t);
      assert InSlabs(o, d, more[k], 3, t);
    }
  }

  // The first hit of one more box is the lesser of the two first hits.
  lemma FirstOfMore(o: Vec3, d: Vec3, boxes: seq<Box>, b: Box, near: Option<real>, next: Option<real>)
    requires FirstInSome(o, d, boxes, near) && FirstIn(o, d, b, next)
    ensures FirstInSome(o, d, boxes + [b], if next.Some? && (near.None? || next.value < near.value) then next else near)
  {
    hide InSlabs, InSomeSlabs;
    forall t
      ensures InSomeSlabs(o, d, boxes + [b], t) <==> InSomeSlabs(o, d, boxes, t) || InSlabs(o, d, b, 3, t)
    {
      OneMoreBox(o, d, boxes, b, t);
    }
  }

  ghost predicate Contained(outer: Box, boxes: seq<Box>) {
    forall x, k :: 0 <= k < |boxes| && InBox(boxes[k], x) ==> InBox(outer, x)
  }

  // No test of an axis is wrong about this ray.
  ghost predicate AllExact(o: Vec3, d: Vec3, outer: Box, boxes: seq<Box>) {
    BoxExact(o, d, outer) && forall k :: 0 <= k < |boxes| ==> BoxExact(o, d, boxes[k])
  }

  lemma SlabsAreRegions(o: Vec3, d: Vec3, outer: Box, boxes: seq<Box>, t: real)
    requires AllExact(o, d, outer, boxes) && Contained(outer, boxes) && 0.0 <= t <= MAX_DISTANCE
    ensures InSomeSlabs(o, d, boxes, t) <==> InSomeBox(boxes, At(o, d, t))
    ensures InSomeSlabs(o, d, boxes, t) ==> InSlabs(o, d, outer, 3, t)
  {
    hide BoxExact, InSlabs, InBox, At;
    SlabsAreBox(o, d, outer, t);
    SomeSlabsAreSomeBox(o, d, boxes, t);
  }

  // With its regions inside, and every axis tested rightly, the app is hit where the
  // ray first enters any region; the outer box changes nothing.
  lemma HitIsFirstEntry(o: Vec3, d: Vec3, outerBox: Box, boxes: seq<Box>, outer: Option<real>, inner: Option<real>)
    requires FirstIn(o, d, outerBox, outer) && (outer.Some? ==> FirstInSome(o, d, boxes, inner))
    requires AllExact(o, d, outerBox, boxes) && Contained(outerBox, boxes)
    ensures outer.Some? ==> Hit(outer, inner) == inner
    ensures FirstEntry(o, d, boxes, Hit(outer, inner))
  {
    hide InSlabs, InSomeSlabs, InSomeBox, At, AllExact, Contained;
    forall t | 0.0 <= t <= MAX_DISTANCE
      ensures InSomeSlabs(o, d, boxes, t) <==> InSomeBox(boxes, At(o, d, t))
      ensures InSomeSlabs(o, d, boxes, t) ==> InSlabs(o, d, outerBox, 3, t)
    {
      SlabsAreRegions(o, d, outerBox, boxes, t);
    }
  }

  class BoundedApp {
    var pendingHalfSize: Vec3
    var pendingRegions: seq<Region>
    var currentHalfSize: Vec3
    var currentRegions: seq<Region>
    var scale: Vec3
    var pos: Vec3
    var turn: Turn
    var configureList: map<nat, Vec3>

    constructor (pos: Vec3, turn: Turn)
      ensures Valid() && this.pos == pos && this.turn == turn && configureList == map[]
      ensures currentHalfSize == pendingHalfSize == ORIGIN && currentRegions == pendingRegions == []
    {
      pendingHalfSize, pendingRegions, currentHalfSize, currentRegions := ORIGIN, [], ORIGIN, [];
      scale, configureList := ORIGIN, map[];
      this.pos, this.turn := pos, turn;
    }

    // No size is in force, or about to be, that was not offered.
    ghost predicate Valid()
      reads this
    {
      && (pendingHalfSize == ORIGIN || pendingHalfSize in configureList.Values)
      && (currentHalfSize == ORIGIN || currentHalfSize in configureList.Values)
      && scale == currentHalfSize.Times(2.0)
    }

    // A serial is offered once; a second offer of it would not replace the first.
    method Configure(serial: nat, halfSize: Vec3)
      requires Valid()
      modifies this`configureList
      ensures Valid()
      ensures configureList == if serial in old(configureList) then old(configureList)
              else old(configureList)[serial := halfSize]
    {
      if serial !in configureList {
        assert forall v :: v in configureList.Values ==> v in configureList[serial := halfSize].Values by {
          forall v | v in configureList.Values
            ensures v in configureList[serial := halfSize].Values
          {
            var k :| k in configureList && configureList[k] == v;
            assert configureList[serial := halfSize][k] == v;
          }
        }
        configureList := configureList[serial := halfSize];
      }
    }

    // An unknown serial is ignored.
    method AckConfigure(serial: nat)
      requires Valid()
      modifies this`pendingHalfSize
      ensures Valid()
      ensures pendingHalfSize == if serial in configureList then configureList[serial] else old(pendingHalfSize)
    {
      if serial in configureList {
        pendingHalfSize := configureList[serial];
      }
    }

    method SetRegion(regions: seq<Region>)
      requires Valid()
      modifies this`pendingRegions
      ensures Valid() && pendingRegions == regions
    {
      pendingRegions := regions;
    }

    method Commit()
      requires Valid()
      modifies this`currentHalfSize, this`currentRegions, this`scale
      ensures Valid() && currentHalfSize == pendingHalfSize && currentRegions == pendingRegions
    {
      currentHalfSize := pendingHalfSize;
      scale := pendingHalfSize.Times(2.0);
      currentRegions := pendingRegions;
    }

    function OuterBox(): Box
      reads this
    {
      BoxOf(turn, pos, currentHalfSize)
    }

    function RegionBoxes(): seq<Box>
      reads this
    {
      seq(|currentRegions|, i requires 0 <= i < |currentRegions| reads this => RegionBox(turn, pos, currentRegions[i]))
    }

    // The distance at which the app is hit, from the first hits of its outer
    // box and of its regions.
    method CheckIntersection(o: Vec3, d: Vec3)
      returns (distance: Option<real>, ghost outer: Option<real>, ghost inner: Option<real>)
      ensures FirstIn(o, d, OuterBox(), outer) && (outer.Some? ==> FirstInSome(o, d, RegionBoxes(), inner))
      ensures distance == Hit(outer, inner)
      ensures Contained(OuterBox(), RegionBoxes()) && AllExact(o, d, OuterBox(), RegionBoxes())
              ==> FirstEntry(o, d, RegionBoxes(), distance)
      ensures turn.Orthonormal() && Inside(currentHalfSize, currentRegions) && AllExact(o, d, OuterBox(), RegionBoxes())
              ==> FirstOccupied(o, d, turn, pos, currentRegions, distance)
    {
      ghost var boxes := RegionBoxes();
      var outerDistance := WithObb(o, d, OuterBox());
      outer, inner, distance := outerDistance, None, None;
      if outerDistance.Some? {
        var innerMinDistance := LeastRegion(o, d);
        inner := innerMinDistance;
        if innerMinDistance.Some? {
          distance := Some(Max(innerMinDistance.value, outerDistance.value));
        }
      }
      if turn.Orthonormal() && Inside(currentHalfSize, currentRegions) {
        InsideIsContained(turn, pos, currentHalfSize, currentRegions, boxes);
      }
      if Contained(OuterBox(), boxes) && AllExact(o, d, OuterBox(), boxes) {
        HitIsFirstEntry(o, d, OuterBox(), boxes, outer, inner);
        if turn.Orthonormal() {
          EntryIsOccupied(o, d, turn, pos, currentRegions, boxes, distance);
        }
      }
    }

    method LeastRegion(o: Vec3, d: Vec3) returns (least: Option<real>)
      ensures FirstInSome(o, d, RegionBoxes(), least)
      ensures turn.Orthonormal() && (forall b :: b in RegionBoxes() ==> BoxExact(o, d, b))
              ==> FirstOccupied(o, d, turn, pos, currentRegions, least)
    {
      ghost var boxes := RegionBoxes();
      least := None;
      for i := 0 to |currentRegions|
        invariant FirstInSome(o, d, boxes[..i], least)
      {
        var result := WithObb(o, d, RegionBox(turn, pos, currentRegions[i]));
        FirstOfMore(o, d, boxes[..i], boxes[i], least, result);
        assert boxes[..i + 1] == boxes[..i] + [boxes[i]];
        if result.None? {
          continue;
        }
        if least.None? || result.value < least.value {
          least := result;
        }
      }
      assert boxes[..|boxes|] == boxes;
      if turn.Orthonormal() && forall b :: b in boxes ==> BoxExact(o, d, b) {
        FirstIsEntry(o, d, boxes, least);
        EntryIsOccupied(o, d, turn, pos, currentRegions, boxes, least);
      }
    }
  }
}

// Where a ray meets a surface or a box. Numbers are real; a direction is
// taken as already normalised.
module Intersections {
  import opened Common

  datatype Vec3 = Vec3(x: real, y: real, z: real) {
    function Plus(v: Vec3): Vec3 {
      Vec3(x + v.x, y + v.y, z + v.z)
    }

    function Minus(v: Vec3): Vec3 {
      Vec3(x - v.x, y - v.y, z - v.z)
    }

    function Times(k: real): Vec3 {
      Vec3(x * k, y * k, z * k)
    }

    function Dot(v: Vec3): real {
      x * v.x + y * v.y + z * v.z
    }

    function Cross(v: Vec3): Vec3 {
      Vec3(y * v.z - z * v.y, z * v.x - x * v.z, x * v.y - y * v.x)
    }
  }

  datatype SurfaceInfo = SurfaceInfo(distance: real, u: real, v: real)

  // Zero when the ray runs along the surface.
  function Det(d: Vec3, v0: Vec3, v1: Vec3, v2: Vec3): real {
    d.Cross(v2.Minus(v0)).Dot(v1.Minus(v0))
  }

  function WithSurface(o: Vec3, d: Vec3, v0: Vec3, v1: Vec3, v2: Vec3): Option<SurfaceInfo>
    requires Det(d, v0, v1, v2) != 0.0
  {
    var e1, e2, w := v1.Minus(v0), v2.Minus(v0), o.Minus(v0);
    var p, q := d.Cross(e2), w.Cross(e1);
    var det := p.Dot(e1);
    var t := q.Dot(e2) / det;
    if t < 0.0 then None
    else
      var u := p.Dot(w) / det;
      if u < 0.0 || u > 1.0 then None
      else
        var v := q.Dot(d) / det;
        if v < 0.0 || v > 1.0 then None else Some(SurfaceInfo(t, u, v))
  }

  // The ray is at the point of the surface that has the coordinates u and v.
  predicate Meets(o: Vec3, d: Vec3, v0: Vec3, v1: Vec3, v2: Vec3, i: SurfaceInfo) {
    && i.distance >= 0.0 && 0.0 <= i.u <= 1.0 && 0.0 <= i.v <= 1.0
    && OnPlane(o.Minus(v0), d, v1.Minus(v0), v2.Minus(v0), i)
  }

  // o + t d = v0 + u e1 + v e2, moved to one side.
  predicate OnPlane(w: Vec3, d: Vec3, e1: Vec3, e2: Vec3, i: SurfaceInfo) {
    w.Plus(d.Times(i.distance)) == e1.Times(i.u).Plus(e2.Times(i.v))
  }

  lemma CramerFirst(w: Vec3, d: Vec3, e1: Vec3, e2: Vec3)
    ensures var p, q := d.Cross(e2), w.Cross(e1);
            w.x * p.Dot(e1) + d.x * q.Dot(e2) == e1.x * p.Dot(w) + e2.x * q.Dot(d)
  {
  }

  function Turned(v: Vec3): Vec3 {
    Vec3(v.y, v.z, v.x)
  }

  lemma TurnedProducts(a: Vec3, b: Vec3, c: Vec3)
    ensures Turned(a).Cross(Turned(b)).Dot(Turned(c)) == a.Cross(b).Dot(c)
  {
  }

  // Any four vectors are dependent, with these factors.
  lemma Cramer(w: Vec3, d: Vec3, e1: Vec3, e2: Vec3)
    ensures var p, q := d.Cross(e2), w.Cross(e1);
            w.Times(p.Dot(e1)).Plus(d.Times(q.Dot(e2))) == e1.Times(p.Dot(w)).Plus(e2.Times(q.Dot(d)))
  {
    CramerFirst(w, d, e1, e2);
    CramerFirst(Turned(w), Turned(d), Turned(e1), Turned(e2));
    CramerFirst(Turned(Turned(w)), Turned(Turned(d)), Turned(Turned(e1)), Turned(Turned(e2)));
    TurnedProducts(d, e2, e1);
    TurnedProducts(w, e1, e2);
    TurnedProducts(d, e2, w);
    TurnedProducts(w, e1, d);
    TurnedProducts(Turned(d), Turned(e2), Turned(e1));
    TurnedProducts(Turned(w), Turned(e1), Turned(e2));
    TurnedProducts(Turned(d), Turned(e2), Turned(w));
    TurnedProducts(Turned(w), Turned(e1), Turned(d));
  }

  lemma DotLinear(p: Vec3, d: Vec3, e1: Vec3, e2: Vec3, i: SurfaceInfo, w: Vec3)
    requires OnPlane(w, d, e1, e2, i)
    ensures p.Dot(w) == i.u * p.Dot(e1) + i.v * p.Dot(e2) - i.distance * p.Dot(d)
  {
    assert w.x == e1.x * i.u + e2.x * i.v - d.x * i.distance;
    assert w.y == e1.y * i.u + e2.y * i.v - d.y * i.distance;
    assert w.z == e1.z * i.u + e2.z * i.v - d.z * i.distance;
    assert p.Dot(w) == p.x * (e1.x * i.u + e2.x * i.v - d.x * i.distance)
                     + p.y * (e1.y * i.u + e2.y * i.v - d.y * i.distance)
                     + p.z * (e1.z * i.u + e2.z * i.v - d.z * i.distance);
  }

  // Turning the factors of a triple product, and its zeros.
  lemma Triple(a: Vec3, b: Vec3, c: Vec3)
    ensures a.Cross(b).Dot(c) == b.Cross(c).Dot(a)
    ensures a.Cross(b).Dot(a) == 0.0 && a.Cross(b).Dot(b) == 0.0
    ensures a.Cross(b).Dot(c) == -b.Cross(a).Dot(c)
  {
  }

  // A point gives back its coordinates.
  lemma Coordinates(w: Vec3, d: Vec3, e1: Vec3, e2: Vec3, i: SurfaceInfo)
    requires OnPlane(w, d, e1, e2, i)
    ensures var det := d.Cross(e2).Dot(e1);
            && d.Cross(e2).Dot(w) == i.u * det
            && w.Cross(e1).Dot(e2) == i.distance * det
            && w.Cross(e1).Dot(d) == i.v * det
  {
    DotLinear(d.Cross(e2), d, e1, e2, i, w);
    DotLinear(e1.Cross(e2), d, e1, e2, i, w);
    DotLinear(e1.Cross(d), d, e1, e2, i, w);
    Triple(d, e2, e1);
    Triple(w, e1, e2);
    Triple(w, e1, d);
    Triple(e1, e2, d);
    Triple(e2, d, e1);
    Triple(e1, d, e2);
  }

  // The test is sound, complete and has one answer: it returns exactly the
  // place where the ray meets the surface.
  lemma WithSurfaceIff(o: Vec3, d: Vec3, v0: Vec3, v1: Vec3, v2: Vec3, i: SurfaceInfo)
    requires Det(d, v0, v1, v2) != 0.0
    ensures WithSurface(o, d, v0, v1, v2) == Some(i) <==> Meets(o, d, v0, v1, v2, i)
  {
    hide Vec3.Dot, Vec3.Cross, Vec3.Minus;
    var e1, e2, w := v1.Minus(v0), v2.Minus(v0), o.Minus(v0);
    var p, q, det := d.Cross(e2), w.Cross(e1), Det(d, v0, v1, v2);
    if WithSurface(o, d, v0, v1, v2) == Some(i) {
      Cramer(w, d, e1, e2);
      Quotient(i.distance, det, q.Dot(e2));
      Quotient(i.u, det, p.Dot(w));
      Quotient(i.v, det, q.Dot(d));
      Solution(w, d, e1, e2, det, i, q.Dot(e2), p.Dot(w), q.Dot(d));
    }
    if Meets(o, d, v0, v1, v2, i) {
      Coordinates(w, d, e1, e2, i);
      Quotient(i.distance, det, q.Dot(e2));
      Quotient(i.u, det, p.Dot(w));
      Quotient(i.v, det, q.Dot(d));
    }
  }

  lemma Quotient(a: real, b: real, c: real)
    requires b != 0.0
    ensures c == a * b <==> c / b == a
  {
  }

  // An equation of vectors is three equations of numbers.
  lemma Components(w: Vec3, d: Vec3, e1: Vec3, e2: Vec3, k: real, t: real, u: real, v: real)
    requires w.Times(k).Plus(d.Times(t)) == e1.Times(u).Plus(e2.Times(v))
    ensures w.x * k + d.x * t == e1.x * u + e2.x * v
    ensures w.y * k + d.y * t == e1.y * u + e2.y * v
    ensures w.z * k + d.z * t == e1.z * u + e2.z * v
  {
    var l, r := w.Times(k).Plus(d.Times(t)), e1.Times(u).Plus(e2.Times(v));
    assert l.x == w.x * k + d.x * t && r.x == e1.x * u + e2.x * v;
    assert l.y == w.y * k + d.y * t && r.y == e1.y * u + e2.y * v;
    assert l.z == w.z * k + d.z * t && r.z == e1.z * u + e2.z * v;
  }

  lemma PlaneParts(w: Vec3, d: Vec3, e1: Vec3, e2: Vec3, i: SurfaceInfo)
    requires w.x + d.x * i.distance == e1.x * i.u + e2.x * i.v
    requires w.y + d.y * i.distance == e1.y * i.u + e2.y * i.v
    requires w.z + d.z * i.distance == e1.z * i.u + e2.z * i.v
    ensures OnPlane(w, d, e1, e2, i)
  {
  }

  lemma Solution(
    w: Vec3, d: Vec3, e1: Vec3, e2: Vec3, det: real, i: SurfaceInfo, t: real, u: real, v: real)
    requires det != 0.0 && t == i.distance * det && u == i.u * det && v == i.v * det
    requires w.Times(det).Plus(d.Times(t)) == e1.Times(u).Plus(e2.Times(v))
    ensures OnPlane(w, d, e1, e2, i)
  {
    hide Vec3.Times, Vec3.Plus, OnPlane;
    Components(w, d, e1, e2, det, t, u, v);
    Undivided(w.x, d.x, e1.x, e2.x, det, i, t, u, v);
    Undivided(w.y, d.y, e1.y, e2.y, det, i, t, u, v);
    Undivided(w.z, d.z, e1.z, e2.z, det, i, t, u, v);
    PlaneParts(w, d, e1, e2, i);
  }

  lemma Undivided(w: real, d: real, e1: real, e2: real, det: real, i: SurfaceInfo, t: real, u: real, v: real)
    requires det != 0.0 && t == i.distance * det && u == i.u * det && v == i.v * det
    requires w * det + d * t == e1 * u + e2 * v
    ensures w + d * i.distance == e1 * i.u + e2 * i.v
  {
    assert d * t == (d * i.distance) * det && e1 * u == (e1 * i.u) * det && e2 * v == (e2 * i.v) * det;
    var rest := w + d * i.distance - (e1 * i.u + e2 * i.v);
    assert rest * det == 0.0;
  }

  // ---- oriented boxes ---------------------------------------------------------------

  // The columns of a model matrix, and the half size along each axis.
  datatype Obb = Obb(axes: seq<Vec3>, pos: Vec3, half: seq<real>)

  type Box = b: Obb | |b.axes| == 3 && |b.half| == 3
    witness Obb([Vec3(1.0, 0.0, 0.0), Vec3(0.0, 1.0, 0.0), Vec3(0.0, 0.0, 1.0)], Vec3(0.0, 0.0, 0.0), [0.0, 0.0, 0.0])

  // A slower component along an axis counts as none.
  const CUTOFF := 0.001
  // The greatest finite distance.
  const MAX_DISTANCE := 340282346638528859811704183484516925440.0

  function Abs(x: real): real {
    if x < 0.0 then -x else x
  }

  // Along one axis: the ray moves with speed f, the centre is at e, and the
  // slab reaches h to either side.
  predicate InSlab(f: real, e: real, h: real, t: real) {
    if Abs(f) > CUTOFF then Abs(f * t - e) <= Abs(h) else -h <= e <= h
  }

  function Speed(d: Vec3, b: Box, i: nat): real
    requires i < 3
  {
    d.Dot(b.axes[i])
  }

  function Centre(o: Vec3, b: Box, i: nat): real
    requires i < 3
  {
    b.axes[i].Dot(b.pos.Minus(o))
  }

  // At t the ray is inside the first n slabs of the box.
  predicate InSlabs(o: Vec3, d: Vec3, b: Box, n: nat, t: real)
    requires n <= 3
  {
    forall i :: 0 <= i < n ==> InSlab(Speed(d, b, i), Centre(o, b, i), b.half[i], t)
  }

  // `near` is the first distance at which the ray is in all slabs of the box,
  // if there is one in range.
  ghost predicate FirstIn(o: Vec3, d: Vec3, b: Box, near: Option<real>) {
    if near.None? then forall t :: 0.0 <= t <= MAX_DISTANCE ==> !InSlabs(o, d, b, 3, t)
    else
      && 0.0 <= near.value <= MAX_DISTANCE && InSlabs(o, d, b, 3, near.value)
      && forall t :: 0.0 <= t <= MAX_DISTANCE && InSlabs(o, d, b, 3, t) ==> near.value <= t
  }

  lemma Side(f: real, t: real, a: real)
    requires f != 0.0
    ensures f > 0.0 ==> (t <= a <==> t * f <= a * f)
    ensures f < 0.0 ==> (t <= a <==> a * f <= t * f)
  {
    assert (a - t) * f == a * f - t * f;
  }

  predicate Between(a: real, b: real, t: real) {
    if a > b then b <= t <= a else a <= t <= b
  }

  lemma BetweenTimes(a: real, b: real, t: real, f: real)
    requires f != 0.0
    ensures Between(a * f, b * f, t * f) <==> Between(a, b, t)
  {
    Side(f, t, a);
    Side(f, t, b);
    Side(f, a, b);
    Side(f, a, t);
    Side(f, b, t);
    Side(f, b, a);
  }

  lemma Within(x: real, e: real, h: real)
    ensures Abs(x - e) <= Abs(h) <==> Between(e - h, e + h, x)
  {
  }

  // A slab is an interval of distances.
  lemma SlabInterval(f: real, e: real, h: real, t: real)
    requires Abs(f) > CUTOFF
    ensures InSlab(f, e, h, t) <==> Between((e - h) / f, (e + h) / f, t)
  {
    var a, b := (e - h) / f, (e + h) / f;
    Quotient(a, f, e - h);
    Quotient(b, f, e + h);
    BetweenTimes(a, b, t, f);
    Within(t * f, e, h);
    assert f * t == t * f;
  }

  // `near` and `far` bound the distances at which the ray is in the first n
  // slabs.
  ghost predicate Bounds(o: Vec3, d: Vec3, b: Box, n: nat, near: real, far: real)
    requires n <= 3
  {
    forall t :: 0.0 <= t <= MAX_DISTANCE ==> (InSlabs(o, d, b, n, t) <==> near <= t <= far)
  }

  lemma NextSlab(o: Vec3, d: Vec3, b: Box, i: nat, t: real)
    requires i < 3
    ensures InSlabs(o, d, b, i + 1, t) <==>
            InSlabs(o, d, b, i, t) && InSlab(Speed(d, b, i), Centre(o, b, i), b.half[i], t)
    ensures InSlabs(o, d, b, 3, t) ==> InSlabs(o, d, b, i + 1, t)
  {
  }

  lemma Clip(o: Vec3, d: Vec3, b: Box, i: nat, near: real, far: real, low: real, high: real)
    requires i < 3 && Bounds(o, d, b, i, near, far) && low <= high
    requires Abs(Speed(d, b, i)) > CUTOFF
    requires var f, e, h := Speed(d, b, i), Centre(o, b, i), b.half[i];
             ((low == (e - h) / f && high == (e + h) / f) || (low == (e + h) / f && high == (e - h) / f))
    ensures Bounds(o, d, b, i + 1, if near < low then low else near, if high < far then high else far)
  {
    var n := i + 1;
    forall t | 0.0 <= t <= MAX_DISTANCE
      ensures InSlabs(o, d, b, n, t) <==> near <= t <= far && low <= t <= high
    {
      NextSlab(o, d, b, i, t);
      SlabInterval(Speed(d, b, i), Centre(o, b, i), b.half[i], t);
    }
  }

  lemma Pass(o: Vec3, d: Vec3, b: Box, i: nat, near: real, far: real)
    requires i < 3 && Bounds(o, d, b, i, near, far) && Abs(Speed(d, b, i)) <= CUTOFF
    ensures var e, h := Centre(o, b, i), b.half[i];
            if -h <= e <= h then Bounds(o, d, b, i + 1, near, far) else forall t :: !InSlabs(o, d, b, 3, t)
  {
    var n := i + 1;
    forall t
      ensures InSlabs(o, d, b, n, t) <==> InSlabs(o, d, b, i, t) && -b.half[i] <= Centre(o, b, i) <= b.half[i]
      ensures InSlabs(o, d, b, 3, t) ==> InSlabs(o, d, b, n, t)
    {
      NextSlab(o, d, b, i, t);
    }
  }

  lemma Empty(o: Vec3, d: Vec3, b: Box, n: nat, near: real, far: real)
    requires n <= 3 && Bounds(o, d, b, n, near, far) && far < near
    ensures forall t :: 0.0 <= t <= MAX_DISTANCE ==> !InSlabs(o, d, b, 3, t)
  {
    forall t | 0.0 <= t <= MAX_DISTANCE
      ensures !InSlabs(o, d, b, 3, t)
    {
      assert !InSlabs(o, d, b, n, t);
    }
  }

  method WithObb(o: Vec3, d: Vec3, b: Box) returns (distance: Option<real>)
    ensures FirstIn(o, d, b, distance)
  {
    var near, far := 0.0, MAX_DISTANCE;
    for i := 0 to 3
      invariant 0.0 <= near <= far <= MAX_DISTANCE && Bounds(o, d, b, i, near, far)
    {
      var f, e, h := Speed(d, b, i), Centre(o, b, i), b.half[i];
      if Abs(f) > CUTOFF {
        var intersectMin, intersectMax := (e - h) / f, (e + h) / f;
        if intersectMin > intersectMax {
          intersectMin, intersectMax := intersectMax, intersectMin;
        }
        Clip(o, d, b, i, near, far, intersectMin, intersectMax);
        far := if intersectMax < far then intersectMax else far;
        near := if near < intersectMin then intersectMin else near;
        if far < near {
          Empty(o, d, b, i + 1, near, far);
          return None;
        }
      } else {
        Pass(o, d, b, i, near, far);
        if -e - h > 0.0 || -e + h < 0.0 {
          return None;
        }
      }
    }
    return Some(near);
  }

  // ---- slabs and points ------------------------------------------------------------

  function At(o: Vec3, d: Vec3, t: real): Vec3 {
    o.Plus(d.Times(t))
  }

  predicate InBox(b: Box, x: Vec3) {
    forall i :: 0 <= i < 3 ==> Abs(b.axes[i].Dot(x.Minus(b.pos))) <= b.half[i]
  }

  // On its way through the range the ray never comes within h of e.
  predicate Misses(f: real, e: real, h: real) {
    Greater(0.0, f * MAX_DISTANCE) < e - h || e + h < Lesser(0.0, f * MAX_DISTANCE)
  }

  function Greater(a: real, b: real): real {
    if a < b then b else a
  }

  function Lesser(a: real, b: real): real {
    if a < b then a else b
  }

  // When the test of one axis is right about every distance in range: a fast
  // component is, unless the half size is negative and the ray comes near
  // nevertheless; a slow one is iff it stays where it starts, in or out.
  predicate AxisExact(f: real, e: real, h: real) {
    if Abs(f) > CUTOFF then h >= 0.0 || Misses(f, e, -h)
    else if h < 0.0 then true
    else if -h <= e <= h then Abs(f * MAX_DISTANCE - e) <= h
    else Misses(f, e, h)
  }

  lemma Span(f: real, t: real)
    requires 0.0 <= t <= MAX_DISTANCE
    ensures Lesser(0.0, f * MAX_DISTANCE) <= f * t <= Greater(0.0, f * MAX_DISTANCE)
  {
    if f != 0.0 {
      Side(f, 0.0, t);
      Side(f, t, MAX_DISTANCE);
    }
  }

  lemma MissesAll(f: real, e: real, h: real)
    requires Misses(f, e, h)
    ensures forall t :: 0.0 <= t <= MAX_DISTANCE ==> !Near(f, e, h, t)
  {
    forall t | 0.0 <= t <= MAX_DISTANCE
      ensures !Near(f, e, h, t)
    {
      Span(f, t);
    }
  }

  // At t the ray is within h of e.
  predicate Near(f: real, e: real, h: real, t: real) {
    Abs(f * t - e) <= h
  }

  lemma SignOf(f: real, m: real)
    requires m > 0.0
    ensures (f > 0.0 <==> f * m > 0.0) && (f < 0.0 <==> f * m < 0.0)
  {
  }

  lemma TimeOf(f: real, x: real) returns (t: real)
    requires 0.0 < x <= f * MAX_DISTANCE || f * MAX_DISTANCE <= x < 0.0
    ensures 0.0 <= t <= MAX_DISTANCE && f * t == x
  {
    SignOf(f, MAX_DISTANCE);
    t := x / f;
    Quotient(t, f, x);
    Side(f, 0.0, t);
    Side(f, t, MAX_DISTANCE);
  }

  // A time at which it is near, if it ever is.
  lemma Reaches(f: real, e: real, h: real) returns (t: real)
    requires h >= 0.0 && !Misses(f, e, h)
    ensures 0.0 <= t <= MAX_DISTANCE && Near(f, e, h, t)
  {
    if -h <= e <= h {
      assert f * 0.0 == 0.0;
      t := 0.0;
    } else {
      var m := f * MAX_DISTANCE;
      assert Greater(0.0, m) >= e - h && e + h >= Lesser(0.0, m);
      var x := if e > h then e - h else e + h;
      assert 0.0 < x <= m || m <= x < 0.0;
      t := TimeOf(f, x);
    }
  }

  ghost predicate AxisRight(f: real, e: real, h: real) {
    forall t :: 0.0 <= t <= MAX_DISTANCE ==> (InSlab(f, e, h, t) <==> Near(f, e, h, t))
  }

  lemma FastAxis(f: real, e: real, h: real)
    requires Abs(f) > CUTOFF
    ensures AxisRight(f, e, h) <==> h >= 0.0 || Misses(f, e, -h)
  {
    if h < 0.0 {
      if Misses(f, e, -h) {
        MissesAll(f, e, -h);
        assert forall t :: 0.0 <= t <= MAX_DISTANCE ==> (InSlab(f, e, h, t) <==> Near(f, e, -h, t));
      } else {
        var t := Reaches(f, e, -h);
        assert InSlab(f, e, h, t) && !Near(f, e, h, t);
      }
    }
  }

  lemma SlowAxis(f: real, e: real, h: real)
    requires Abs(f) <= CUTOFF && h >= 0.0
    ensures AxisRight(f, e, h) <==> if -h <= e <= h then Near(f, e, h, MAX_DISTANCE) else Misses(f, e, h)
  {
    if -h <= e <= h {
      if Near(f, e, h, MAX_DISTANCE) {
        forall t | 0.0 <= t <= MAX_DISTANCE
          ensures Near(f, e, h, t)
        {
          Span(f, t);
        }
      } else {
        assert InSlab(f, e, h, MAX_DISTANCE);
      }
    } else if Misses(f, e, h) {
      MissesAll(f, e, h);
    } else {
      var t := Reaches(f, e, h);
      assert !InSlab(f, e, h, t);
    }
  }

  // The test of one axis is right about every distance in range iff this
  // holds of speed, centre and half size, whatever they are.
  lemma AxisExactIff(f: real, e: real, h: real)
    ensures AxisRight(f, e, h) <==> AxisExact(f, e, h)
  {
    if Abs(f) > CUTOFF {
      FastAxis(f, e, h);
    } else if h >= 0.0 {
      SlowAxis(f, e, h);
    }
  }

  predicate BoxExact(o: Vec3, d: Vec3, b: Box) {
    forall i :: 0 <= i < 3 ==> AxisExact(Speed(d, b, i), Centre(o, b, i), b.half[i])
  }

  lemma AlongAxis(o: Vec3, d: Vec3, a: Vec3, pos: Vec3, t: real)
    ensures a.Dot(At(o, d, t).Minus(pos)) == d.Dot(a) * t - a.Dot(pos.Minus(o))
  {
    assert a.Dot(At(o, d, t).Minus(pos)) ==
           a.x * (o.x + d.x * t - pos.x) + a.y * (o.y + d.y * t - pos.y) + a.z * (o.z + d.z * t - pos.z);
  }

  lemma AxisSlab(o: Vec3, d: Vec3, b: Box, i: nat, t: real)
    requires i < 3 && BoxExact(o, d, b) && 0.0 <= t <= MAX_DISTANCE
    ensures InSlab(Speed(d, b, i), Centre(o, b, i), b.half[i], t) <==>
            Abs(b.axes[i].Dot(At(o, d, t).Minus(b.pos))) <= b.half[i]
  {
    hide Vec3.Dot, Vec3.Minus, InSlab, At, AxisExact;
    AlongAxis(o, d, b.axes[i], b.pos, t);
    AxisExactIff(Speed(d, b, i), Centre(o, b, i), b.half[i]);
  }

  // Then being in all the slabs is being in the box.
  lemma SlabsAreBox(o: Vec3, d: Vec3, b: Box, t: real)
    requires BoxExact(o, d, b) && 0.0 <= t <= MAX_DISTANCE
    ensures InSlabs(o, d, b, 3, t) <==> InBox(b, At(o, d, t))
  {
    hide Vec3.Dot, Vec3.Minus, At, Speed, Centre, InSlab, Abs, BoxExact;
    forall i | 0 <= i < 3
      ensures InSlab(Speed(d, b, i), Centre(o, b, i), b.half[i], t) <==>
              Abs(b.axes[i].Dot(At(o, d, t).Minus(b.pos))) <= b.half[i]
    {
      AxisSlab(o, d, b, i, t);
    }
  }

  // In particular it is when no half size is negative and no component of the
  // direction is slow without being zero.
  lemma RegularIsExact(o: Vec3, d: Vec3, b: Box)
    requires forall i :: 0 <= i < 3 ==> b.half[i] >= 0.0 && (Speed(d, b, i) == 0.0 || Abs(Speed(d, b, i)) > CUTOFF)
    ensures BoxExact(o, d, b)
  {
    hide Speed, Centre;
    forall i | 0 <= i < 3
      ensures AxisExact(Speed(d, b, i), Centre(o, b, i), b.half[i])
    {
      if Speed(d, b, i) == 0.0 {
        assert Speed(d, b, i) * MAX_DISTANCE == 0.0;
      }
    }
  }

  // ---- a slow component breaks this ---------------------------------------------------

  const SLOW := Vec3(4000.0 / 4000001.0, 3999999.0 / 4000001.0, 0.0)
  const WALL: Box := Obb([Vec3(1.0, 0.0, 0.0), Vec3(0.0, 1.0, 0.0), Vec3(0.0, 0.0, 1.0)], Vec3(2.0, 0.0, 0.0),
      [1.0, 3000.0, 1.0])
  const ORIGIN := Vec3(0.0, 0.0, 0.0)

  lemma SlowIsUnit()
    ensures SLOW.Dot(SLOW) == 1.0
  {
  }

  lemma SlowSpeed()
    ensures Abs(Speed(SLOW, WALL, 0)) <= CUTOFF && Centre(ORIGIN, WALL, 0) == 2.0
  {
  }

  // The time at which the ray passes beside the centre of the wall.
  const PASSING := 4000001.0 / 2000.0

  lemma PassingPoint()
    ensures At(ORIGIN, SLOW, PASSING).Minus(WALL.pos) == Vec3(0.0, 3999999.0 / 2000.0, 0.0)
  {
  }

  lemma InWall(x: Vec3, i: nat)
    requires i < 3 && Abs(x.x) <= 1.0 && Abs(x.y) <= 3000.0 && Abs(x.z) <= 1.0
    ensures Abs(WALL.axes[i].Dot(x)) <= WALL.half[i]
  {
    assert WALL.axes[0].Dot(x) == x.x && WALL.axes[1].Dot(x) == x.y && WALL.axes[2].Dot(x) == x.z;
  }

  lemma SlowEnters()
    ensures InBox(WALL, At(ORIGIN, SLOW, PASSING))
  {
    hide Vec3.Dot, Vec3.Minus, At, PASSING, SLOW, WALL, ORIGIN;
    PassingPoint();
    forall i | 0 <= i < 3
      ensures Abs(WALL.axes[i].Dot(At(ORIGIN, SLOW, PASSING).Minus(WALL.pos))) <= WALL.half[i]
    {
      InWall(At(ORIGIN, SLOW, PASSING).Minus(WALL.pos), i);
    }
  }

  // Here the ray enters the box, and the test does not see it.
  lemma SlowRayMisses()
    ensures SLOW.Dot(SLOW) == 1.0
    ensures InBox(WALL, At(ORIGIN, SLOW, PASSING)) && 0.0 <= PASSING <= MAX_DISTANCE
    ensures forall t :: !InSlabs(ORIGIN, SLOW, WALL, 3, t)
  {
    hide InBox, Speed, Centre, At, Vec3.Dot;
    SlowIsUnit();
    SlowEnters();
    SlowSpeed();
    forall t
      ensures !InSlabs(ORIGIN, SLOW, WALL, 3, t)
    {
      assert !InSlab(Speed(SLOW, WALL, 0), Centre(ORIGIN, WALL, 0), WALL.half[0], t);
    }
  }
}

// Rotations, by their columns.
module Rotations {
  import opened Intersections

  datatype Turn = Turn(x: Vec3, y: Vec3, z: Vec3) {
    function Apply(v: Vec3): Vec3 {
      x.Times(v.x).Plus(y.Times(v.y)).Plus(z.Times(v.z))
    }

    function After(t: Turn): Turn {
      Turn(Apply(t.x), Apply(t.y), Apply(t.z))
    }

    // The coordinates of a vector along the columns.
    function Along(v: Vec3): Vec3 {
      Vec3(x.Dot(v), y.Dot(v), z.Dot(v))
    }

    predicate Orthonormal() {
      && x.Dot(x) == 1.0 && y.Dot(y) == 1.0 && z.Dot(z) == 1.0
      && x.Dot(y) == 0.0 && y.Dot(z) == 0.0 && z.Dot(x) == 0.0
    }
  }

  lemma DotPlus(a: Vec3, b: Vec3, c: Vec3)
    ensures a.Dot(b.Plus(c)) == a.Dot(b) + a.Dot(c) && a.Dot(b) == b.Dot(a)
  {
  }

  lemma DotTimes(a: Vec3, b: Vec3, k: real)
    ensures a.Dot(b.Times(k)) == a.Dot(b) * k
  {
  }

  // What a vector has to do with an image, by the columns.
  lemma DotApply(t: Turn, a: Vec3, v: Vec3)
    ensures a.Dot(t.Apply(v)) == t.Along(a).Dot(v)
  {
    hide Vec3.Dot, Vec3.Times, Vec3.Plus;
    DotPlus(a, t.x.Times(v.x).Plus(t.y.Times(v.y)), t.z.Times(v.z));
    DotPlus(a, t.x.Times(v.x), t.y.Times(v.y));
    DotTimes(a, t.x, v.x);
    DotTimes(a, t.y, v.y);
    DotTimes(a, t.z, v.z);
    DotPlus(a, t.x, t.y);
    DotPlus(a, t.z, t.z);
    DotPlus(a, t.y, t.y);
    Parts(t.Along(a), v);
  }

  lemma Parts(a: Vec3, v: Vec3)
    ensures a.Dot(v) == a.x * v.x + a.y * v.y + a.z * v.z
  {
  }

  lemma AlongApply(t: Turn, v: Vec3)
    requires t.Orthonormal()
    ensures t.Along(t.Apply(v)) == v
  {
    hide Vec3.Dot, Turn.Apply;
    DotApply(t, t.x, v);
    DotApply(t, t.y, v);
    DotApply(t, t.z, v);
    DotPlus(t.x, t.y, t.z);
    DotPlus(t.y, t.x, t.z);
    DotPlus(t.z, t.x, t.y);
    DotPlus(t.x, t.z, t.z);
    DotPlus(t.y, t.z, t.z);
    Parts(Vec3(1.0, 0.0, 0.0), v);
    Parts(Vec3(0.0, 1.0, 0.0), v);
    Parts(Vec3(0.0, 0.0, 1.0), v);
  }

  // A rotation keeps dot products.
  lemma TurnKeepsDot(t: Turn, u: Vec3, v: Vec3)
    requires t.Orthonormal()
    ensures t.Apply(u).Dot(t.Apply(v)) == u.Dot(v)
  {
    hide Vec3.Dot, Turn.Apply, Turn.Along, Turn.Orthonormal;
    DotApply(t, t.Apply(u), v);
    AlongApply(t, u);
  }

  // ---- every vector is an image -----------------------------------------------------

  lemma DoubleCrossFirst(a: Vec3, b: Vec3, c: Vec3)
    ensures c.Cross(a.Cross(b)).x == a.x * c.Dot(b) - b.x * c.Dot(a)
  {
    assert c.y * (a.x * b.y - a.y * b.x) == a.x * (c.y * b.y) - b.x * (c.y * a.y);
    assert c.z * (a.z * b.x - a.x * b.z) == b.x * (c.z * a.z) - a.x * (c.z * b.z);
    assert a.x * c.Dot(b) == a.x * (c.x * b.x) + a.x * (c.y * b.y) + a.x * (c.z * b.z);
    assert b.x * c.Dot(a) == b.x * (c.x * a.x) + b.x * (c.y * a.y) + b.x * (c.z * a.z);
    assert a.x * (c.x * b.x) == b.x * (c.x * a.x);
  }

  lemma TurnedCross(a: Vec3, b: Vec3)
    ensures Turned(a).Cross(Turned(b)) == Turned(a.Cross(b)) && Turned(a).Dot(Turned(b)) == a.Dot(b)
  {
  }

  lemma DoubleCross(a: Vec3, b: Vec3, c: Vec3)
    ensures c.Cross(a.Cross(b)) == a.Times(c.Dot(b)).Minus(b.Times(c.Dot(a)))
  {
    hide Vec3.Dot, Vec3.Cross;
    DoubleCrossFirst(a, b, c);
    TurnedDoubleCross(a, b, c);
    TurnedDoubleCross(Turned(a), Turned(b), Turned(c));
    TurnedCross(c, b);
    TurnedCross(c, a);
    TurnedCross(Turned(c), Turned(b));
    TurnedCross(Turned(c), Turned(a));
  }

  lemma TurnedDoubleCross(a: Vec3, b: Vec3, c: Vec3)
    ensures Turned(c).Cross(Turned(a).Cross(Turned(b))) == Turned(c.Cross(a.Cross(b)))
    ensures c.Cross(a.Cross(b)).y == a.y * Turned(c).Dot(Turned(b)) - b.y * Turned(c).Dot(Turned(a))
  {
    hide Vec3.Dot, Vec3.Cross;
    TurnedCross(a, b);
    TurnedCross(c, a.Cross(b));
    DoubleCrossFirst(Turned(a), Turned(b), Turned(c));
  }

  lemma CrossLength(u: Vec3, v: Vec3)
    ensures u.Cross(v).Dot(u.Cross(v)) == u.Dot(u) * v.Dot(v) - u.Dot(v) * u.Dot(v)
  {
  }

  lemma Opposite(u: Vec3, v: Vec3)
    requires u.Cross(v) == ORIGIN
    ensures v.Cross(u) == ORIGIN
  {
  }

  lemma CrossNothing(u: Vec3)
    ensures u.Cross(ORIGIN) == ORIGIN && u.Times(0.0) == ORIGIN && ORIGIN.Minus(ORIGIN) == ORIGIN
  {
  }

  lemma Balance(u: Vec3, v: Vec3)
    requires u.Minus(v.Times(1.0)) == ORIGIN
    ensures u == v
  {
  }

  // What has no part along two columns is a multiple of their cross product.
  lemma Third(a: Vec3, b: Vec3, w: Vec3)
    requires a.Dot(a) == 1.0 && b.Dot(b) == 1.0 && a.Dot(b) == 0.0
    requires w.Dot(a) == 0.0 && w.Dot(b) == 0.0
    ensures w == a.Cross(b).Times(a.Cross(b).Dot(w))
  {
    hide Vec3.Dot, Vec3.Cross, Vec3.Times, Vec3.Minus;
    var n := a.Cross(b);
    CrossLength(a, b);
    DoubleCross(a, b, w);
    CrossNothing(a);
    CrossNothing(b);
    assert w.Cross(n) == ORIGIN;
    Opposite(w, n);
    DoubleCross(n, w, n);
    CrossNothing(n);
    DotPlus(n, n, w);
    Balance(n.Times(n.Dot(w)), w);
  }

  lemma NoFactor(k: real, m: real)
    requires k * k == 1.0 && k * m == 0.0
    ensures m == 0.0
  {
    assert k * (k * m) == (k * k) * m;
  }

  lemma OnlyNothing(t: Turn, w: Vec3)
    requires t.Orthonormal() && t.Along(w) == ORIGIN
    ensures w == ORIGIN
  {
    hide Vec3.Dot, Vec3.Cross, Vec3.Times;
    var n := t.x.Cross(t.y);
    DotPlus(w, t.x, t.y);
    DotPlus(w, t.y, t.y);
    DotPlus(w, t.z, t.z);
    DotPlus(t.z, t.y, t.y);
    Third(t.x, t.y, w);
    Third(t.x, t.y, t.z);
    DotTimes(t.z, t.z, 1.0);
    DotTimes(t.z, n, n.Dot(t.z));
    DotTimes(t.z, n, n.Dot(w));
    DotPlus(t.z, n, n);
    var k, m := n.Dot(t.z), n.Dot(w);
    assert t.z.Dot(n) == k;
    assert t.z.Dot(t.z) == k * k;
    assert t.z.Dot(w) == k * m;
    NoFactor(k, m);
    CrossNothing(n);
  }

  lemma Rest(t: Turn, v: Vec3, w: Vec3)
    ensures t.Along(v.Minus(w)) == t.Along(v).Minus(t.Along(w))
  {
  }

  lemma ApplyAlong(t: Turn, v: Vec3)
    requires t.Orthonormal()
    ensures t.Apply(t.Along(v)) == v
  {
    hide Turn.Apply, Turn.Along, Turn.Orthonormal;
    var w := t.Apply(t.Along(v));
    AlongApply(t, t.Along(v));
    Rest(t, v, w);
    OnlyNothing(t, v.Minus(w));
  }
}

// The ray that the user points with.
module RayCasters {
  // Angles, of the ray or of an object.
  datatype Angles = Angles(polar: real, azimuthal: real) {
    function Plus(polarBy: real, azimuthalBy: real): Angles {
      Angles(polar + polarBy, azimuthal + azimuthalBy)
    }

    function Minus(a: Angles): Angles {
      Angles(polar - a.polar, azimuthal - a.azimuthal)
    }
  }

  function Clamp(x: real, low: real, high: real): real {
    if x < low then low else if high < x then high else x
  }

  // The number pi is not needed more exactly than as a positive constant.
  class RayCaster {
    const pi: real
    var angles: Angles
    var length: real

    constructor (pi: real)
      requires pi > 0.0
      ensures this.pi == pi && Valid() && angles == Angles(pi / 2.0, pi)
    {
      this.pi, length, angles := pi, 3.4, Angles(pi / 2.0, pi);
    }

    // The ray stays clear of both poles.
    predicate Valid()
      reads this
    {
      pi > 0.0 && pi / 8.0 <= angles.polar <= pi - pi / 8.0
    }

    // Returns by how much the polar angle has really changed.
    method MoveRel(polar: real, azimuthal: real) returns (diffPolar: real)
      requires Valid()
      modifies this`angles
      ensures Valid() && angles == old(angles).Plus(diffPolar, azimuthal)
      ensures angles.polar == Clamp(old(angles).polar + polar, pi / 8.0, pi - pi / 8.0)
      ensures pi / 8.0 <= old(angles).polar + polar <= pi - pi / 8.0 ==> diffPolar == polar
      ensures old(angles).polar + polar < pi / 8.0 ==> angles.polar == pi / 8.0
      ensures old(angles).polar + polar > pi - pi / 8.0 ==> angles.polar == pi - pi / 8.0
    {
      diffPolar := angles.polar;
      angles := Angles(Clamp(angles.polar + polar, pi / 8.0, pi - pi / 8.0), angles.azimuthal + azimuthal);
      diffPolar := angles.polar - diffPolar;
    }

    method SetLength(l: real)
      modifies this`length
      ensures length == l
    {
      length := l;
    }
  }
}

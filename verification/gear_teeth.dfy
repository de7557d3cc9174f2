/**
 The tooth loop of DrawGearTeeth: one unit-cube draw per tooth, evenly spaced
 around the gear's Z axis and pushed out to the pitch radius. Float arithmetic
 is modelled over the reals; pi is a parameter, since nothing here depends on
 its value beyond its sign.
 */
module GearTeeth {

  /** Vertices in the unit cube's vertex array: six faces of two triangles. */
  const CubeVertexCount: nat := 36

  /** The unit cube spans [-CubeHalfExtent, CubeHalfExtent] on every axis. */
  const CubeHalfExtent: real := 0.5

  datatype Vec3 = Vec3(x: real, y: real, z: real)

  /**
   What one iteration of the tooth loop submits: the model matrix
   translate(centre) * rotateZ(angle) * translate(offset, 0, 0) * scale(size),
   and the range of cube vertices drawn with it.
   */
  datatype ToothDraw = ToothDraw(centre: Vec3, angle: real, offset: real, size: Vec3, first: nat, count: nat)

  /** Iterations of `for (int i = 0; i < N; ++i)`. */
  function Count(n: int): nat
  {
    if n > 0 then n else 0
  }

  /** The angle between neighbouring teeth of an n-tooth gear. */
  function ToothPitch(n: int, pi: real): real
    requires n != 0
  {
    2.0 * pi / n as real
  }

  /** The angle of tooth i when the gear is turned to `angleRad`: i n-ths of a turn further on. */
  function ToothAngle(angleRad: real, i: int, n: int, pi: real): (r: real)
    requires n != 0
    ensures (n as real) * (r - angleRad) == (i as real) * (2.0 * pi)
  {
    angleRad + (i as real) * ToothPitch(n, pi)
  }

  /** Neighbouring teeth are exactly one pitch apart, and n pitches make a full turn. */
  lemma ToothSpacing(angleRad: real, i: int, n: int, pi: real)
    requires n != 0
    ensures ToothAngle(angleRad, i + 1, n, pi) - ToothAngle(angleRad, i, n, pi) == ToothPitch(n, pi)
    ensures ToothAngle(angleRad, i + n, n, pi) == ToothAngle(angleRad, i, n, pi) + 2.0 * pi
  {
    var p := ToothPitch(n, pi);
    assert (n as real) * p == 2.0 * pi;
    assert ((i + n) as real) * p == (i as real) * p + (n as real) * p;
  }

  /**
   For a positive pi, the n teeth of a gear lie within one turn from the first,
   in increasing order, so no two of them land on the same spot.
   */
  lemma TeethWithinOneTurn(angleRad: real, i: int, j: int, n: int, pi: real)
    requires pi > 0.0 && 0 <= i < j < n
    ensures 0.0 < ToothAngle(angleRad, j, n, pi) - ToothAngle(angleRad, i, n, pi) < 2.0 * pi
  {
    var p := ToothPitch(n, pi);
    assert p > 0.0;
    assert (n as real) * p == 2.0 * pi;
    assert ToothAngle(angleRad, j, n, pi) - ToothAngle(angleRad, i, n, pi) == ((j - i) as real) * p;
    assert ((j - i) as real) * p < (n as real) * p;
  }

  /**
   One cube draw per tooth: tooth i at angle `angleRad + i * 2pi / N`, its inner face
   on `baseRadius` and its outer face `toothLen` further out.
   */
  method DrawGearTeeth(centre: Vec3, n: int, baseRadius: real, toothLen: real, toothHeight: real,
                       thick: real, angleRad: real, pi: real)
    returns (draws: seq<ToothDraw>)
    ensures |draws| == Count(n)
    ensures forall i :: 0 <= i < |draws| ==> draws[i].angle == ToothAngle(angleRad, i, n, pi)
    ensures forall i :: 0 <= i < |draws| ==>
      && draws[i].centre == centre
      && draws[i].offset - CubeHalfExtent * draws[i].size.x == baseRadius
      && draws[i].offset + CubeHalfExtent * draws[i].size.x == baseRadius + toothLen
      && draws[i].size.y == toothHeight && draws[i].size.z == thick
      && draws[i].first == 0 && draws[i].count == CubeVertexCount
  {
    draws := [];
    var i := 0;
    while i < n
      invariant 0 <= i <= Count(n)
      invariant |draws| == i
      invariant forall j :: 0 <= j < i ==> draws[j].angle == ToothAngle(angleRad, j, n, pi)
      invariant forall j :: 0 <= j < i ==>
        draws[j] == ToothDraw(centre, draws[j].angle, baseRadius + toothLen * 0.5,
                              Vec3(toothLen, toothHeight, thick), 0, CubeVertexCount)
    {
      var a := angleRad + (i as real) * (2.0 * pi / (n as real));
      var offset := baseRadius + toothLen * 0.5;
      draws := draws + [ToothDraw(centre, a, offset, Vec3(toothLen, toothHeight, thick), 0, CubeVertexCount)];
      i := i + 1;
    }
  }
}

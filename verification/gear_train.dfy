/**
 The seven-gear train drawn every frame: each gear turns at the reference gear's
 rate scaled by the inverse tooth ratio, in a fixed direction, from a fixed phase.
 Angles are taken before the per-frame `fmod` reduction; float arithmetic is
 modelled over the reals and pi is a parameter.
 */
module GearTrain {
  import opened GearTeeth

  /** The gears are numbered 1 to 7; gear 1 is the reference. */
  type GearId = k: int | 1 <= k <= 7 witness 1

  /** The reference gear's angular velocity, in radians per second. */
  const Omega1: real := 0.5

  const ToothLen: real := 0.25
  const ToothHeight: real := 0.20
  const Thickness: real := 0.20

  function Teeth(k: GearId): int
  {
    if k == 1 then 18
    else if k == 2 then 28
    else if k == 3 then 22
    else if k == 4 then 7
    else if k == 5 then 11
    else if k == 6 then 8
    else 11
  }

  function PitchRadius(k: GearId): real
  {
    if k == 1 then 1.2
    else if k == 2 then 1.9
    else if k == 3 then 1.5
    else if k == 4 then 0.5
    else if k == 5 then 0.7
    else if k == 6 then 0.5
    else 0.7
  }

  /** +1 for gears turning the same way as gear 1, -1 for gears 2 and 3. */
  function Direction(k: GearId): int
  {
    if k == 2 || k == 3 then -1 else 1
  }

  /**
   Angular velocity of gear k: omega1 * N1 / Nk, signed by its direction. Its teeth
   cross the pitch circle as fast as gear 1's, and only gears 2 and 3 turn backwards.
   */
  function Rate(k: GearId): (r: real)
    ensures r * (Teeth(k) as real) == (Direction(k) as real) * Omega1 * (Teeth(1) as real)
    ensures r < 0.0 <==> k == 2 || k == 3
  {
    (Direction(k) as real) * (Omega1 * ((Teeth(1) as real) / (Teeth(k) as real)))
  }

  /**
   The phase added to gear k's angle when it is computed: half a tooth of gear 2 for
   gear 3, half a tooth of their own for gears 5 and 7, nothing for the others.
   */
  function Phase(k: GearId, pi: real): (r: real)
    ensures k == 3 ==> r == ToothPitch(Teeth(2), pi) / 2.0
    ensures k == 5 || k == 7 ==> r == ToothPitch(Teeth(k), pi) / 2.0
    ensures k != 3 && k != 5 && k != 7 ==> r == 0.0
  {
    if k == 3 then pi / Teeth(2) as real
    else if k == 5 then pi / Teeth(5) as real
    else if k == 7 then assert ToothPitch(Teeth(7), pi) / 2.0 == pi / 11.0; pi / Teeth(7) as real
    else 0.0
  }

  /** The phase added only where gear k's teeth are drawn: half a tooth, for gear 2 alone. */
  function DrawPhase(k: GearId, pi: real): (r: real)
    ensures k == 2 ==> r == ToothPitch(Teeth(2), pi) / 2.0
    ensures k != 2 ==> r == 0.0
  {
    if k == 2 then pi / Teeth(2) as real else 0.0
  }

  /**
   Gear k's angle at time t, as computed before the modulo reduction. The one rule
   agrees with the seven angles written out gear by gear.
   */
  function Angle(k: GearId, t: real, pi: real): (r: real)
    ensures k == 1 ==> r == Omega1 * t
    ensures k == 2 ==> r == -(Omega1 * (18.0 / 28.0)) * t
    ensures k == 3 ==> r == -(Omega1 * (18.0 / 22.0)) * t + pi / 28.0
    ensures k == 4 ==> r == (Omega1 * (18.0 / 7.0)) * t
    ensures k == 5 ==> r == (Omega1 * (18.0 / 11.0)) * t + pi / 11.0
    ensures k == 6 ==> r == (Omega1 * (18.0 / 8.0)) * t
    ensures k == 7 ==> r == (Omega1 * (18.0 / 11.0)) * t + pi / 11.0
  {
    Rate(k) * t + Phase(k, pi)
  }

  /**
   The angle gear k's teeth are drawn at: the gear's rate times t, plus half a tooth
   of gear 2 for gears 2 and 3, half a tooth of their own for gears 5 and 7.
   */
  function DrawAngle(k: GearId, t: real, pi: real): (r: real)
    ensures k == 2 || k == 3 ==> r == Rate(k) * t + ToothPitch(Teeth(2), pi) / 2.0
    ensures k == 5 || k == 7 ==> r == Rate(k) * t + ToothPitch(Teeth(k), pi) / 2.0
    ensures k == 1 || k == 4 || k == 6 ==> r == Rate(k) * t
  {
    Angle(k, t, pi) + DrawPhase(k, pi)
  }

  /**
   Every gear's teeth pass its pitch circle at the reference gear's rate:
   Rate(k) * Nk == +-omega1 * N1, negative exactly for gears 2 and 3.
   */
  lemma PitchLineSpeed(k: GearId)
    ensures Teeth(k) > 0
    ensures Rate(k) * (Teeth(k) as real) == (Direction(k) as real) * Omega1 * (Teeth(1) as real)
    ensures Rate(k) < 0.0 <==> k == 2 || k == 3
    ensures Rate(k) > 0.0 <==> k != 2 && k != 3
  {
    var n1, nk := Teeth(1) as real, Teeth(k) as real;
    assert n1 / nk * nk == n1;
    assert n1 / nk > 0.0;
  }

  /**
   The pairs of gears whose teeth meet, as the hand-placed centres arrange them:
   1-2, 1-3, 3-4, 3-6, 2-5 and 2-7.
   */
  predicate Meshes(i: GearId, j: GearId)
  {
    (i, j) in {(1, 2), (1, 3), (3, 4), (3, 6), (2, 5), (2, 7)}
  }

  /** Meshing gears turn in opposite directions with matching pitch-line tooth speed. */
  lemma MeshingGearsAgree(i: GearId, j: GearId)
    requires Meshes(i, j)
    ensures Rate(i) * (Teeth(i) as real) == -(Rate(j) * (Teeth(j) as real))
    ensures (Rate(i) < 0.0) != (Rate(j) < 0.0)
  {
    PitchLineSpeed(i);
    PitchLineSpeed(j);
  }

  /** The angle grows linearly in time at the gear's rate. */
  lemma AngleAdvance(k: GearId, t1: real, t2: real, pi: real)
    ensures DrawAngle(k, t2, pi) - DrawAngle(k, t1, pi) == Rate(k) * (t2 - t1)
  {
    assert Rate(k) * t2 - Rate(k) * t1 == Rate(k) * (t2 - t1);
  }

  /**
   The start positions: gears 2 and 3 are drawn half a tooth of gear 2 round, gears
   5 and 7 half a tooth of their own, and gears 1, 4 and 6 not at all.
   */
  lemma StartPhases(k: GearId, pi: real)
    ensures k == 2 || k == 3 ==> DrawAngle(k, 0.0, pi) == ToothPitch(Teeth(2), pi) / 2.0
    ensures k == 5 || k == 7 ==> DrawAngle(k, 0.0, pi) == ToothPitch(Teeth(k), pi) / 2.0
    ensures k == 1 || k == 4 || k == 6 ==> DrawAngle(k, 0.0, pi) == 0.0
  {
    assert Rate(k) * 0.0 == 0.0;
  }

  /** The time the reference gear takes to turn by one tooth. */
  function ToothPeriod(pi: real): real
  {
    ToothPitch(Teeth(1), pi) / Omega1
  }

  /**
   In one tooth period every gear turns by exactly one of its own teeth, each in its
   own direction: all seven gears advance tooth for tooth.
   */
  lemma OneToothPerPeriod(k: GearId, t: real, pi: real)
    ensures DrawAngle(k, t + ToothPeriod(pi), pi)
         == DrawAngle(k, t, pi) + (Direction(k) as real) * ToothPitch(Teeth(k), pi)
  {
    var T := ToothPeriod(pi);
    AngleAdvance(k, t, t + T, pi);
    RatioCancels(Direction(k) as real, Omega1, Teeth(1) as real, Teeth(k) as real, 2.0 * pi);
  }

  /** w * (n1 / nk) times (p / n1) / w is p / nk. */
  lemma RatioCancels(d: real, w: real, n1: real, nk: real, p: real)
    requires w != 0.0 && n1 != 0.0 && nk != 0.0
    ensures d * (w * (n1 / nk)) * (p / n1 / w) == d * (p / nk)
  {
    calc {
      d * (w * (n1 / nk)) * (p / n1 / w);
      d * ((w * (n1 / nk)) * (p / n1 / w));
      { assert (w * (n1 / nk)) * (p / n1 / w) == (n1 / nk) * (p / n1); }
      d * ((n1 / nk) * (p / n1));
      { assert (n1 / nk) * (p / n1) == p / nk; }
      d * (p / nk);
    }
  }

  /**
   After one tooth period, gear k's tooth i is drawn where its neighbour tooth
   i + direction was drawn before: the drawn pattern repeats tooth for tooth.
   */
  lemma TeethRepeatAfterPeriod(k: GearId, t: real, pi: real, i: int)
    ensures ToothAngle(DrawAngle(k, t + ToothPeriod(pi), pi), i, Teeth(k), pi)
         == ToothAngle(DrawAngle(k, t, pi), i + Direction(k), Teeth(k), pi)
  {
    OneToothPerPeriod(k, t, pi);
    var p := ToothPitch(Teeth(k), pi);
    assert ((i + Direction(k)) as real) * p == (i as real) * p + (Direction(k) as real) * p;
  }

  /**
   Gear k's row of tooth draws: one per tooth, tooth i at the gear's drawn angle
   plus i pitches, its inner face on the gear's pitch radius and its outer face one
   tooth length further out, scaled to the tooth size, drawing the whole unit cube,
   around the gear's centre.
   */
  ghost predicate TeethOfGear(draws: seq<ToothDraw>, k: GearId, t: real, pi: real, centre: Vec3)
  {
    && |draws| == Teeth(k)
    && forall i :: 0 <= i < |draws| ==>
      && draws[i].angle == ToothAngle(DrawAngle(k, t, pi), i, Teeth(k), pi)
      && draws[i].offset - CubeHalfExtent * draws[i].size.x == PitchRadius(k)
      && draws[i].offset + CubeHalfExtent * draws[i].size.x == PitchRadius(k) + ToothLen
      && draws[i].size == Vec3(ToothLen, ToothHeight, Thickness)
      && draws[i].first == 0 && draws[i].count == CubeVertexCount
      && draws[i].centre == centre
  }

  /**
   The per-frame gear draws, gear 1 to gear 7. Where each gear is placed is a
   parameter; row j holds the teeth of gear j + 1.
   */
  method DrawGearTrain(t: real, pi: real, centre: GearId -> Vec3) returns (teeth: seq<seq<ToothDraw>>)
    ensures |teeth| == 7
    ensures forall j :: 0 <= j < 7 ==> TeethOfGear(teeth[j], j + 1, t, pi, centre(j + 1))
  {
    teeth := [];
    var k := 1;
    while k <= 7
      invariant 1 <= k <= 8
      invariant |teeth| == k - 1
      invariant forall j :: 0 <= j < k - 1 ==> TeethOfGear(teeth[j], j + 1, t, pi, centre(j + 1))
    {
      var draws := DrawGearTeeth(centre(k), Teeth(k), PitchRadius(k), ToothLen, ToothHeight, Thickness,
                                 DrawAngle(k, t, pi), pi);
      assert TeethOfGear(draws, k, t, pi, centre(k));
      teeth := teeth + [draws];
      k := k + 1;
    }
  }
}

/** The motor a TEVEX monoblock hood ships with, chosen from the hood's length
    by the vendor's "length - fan" tables. */
module TevexMotorRules {
  import opened Wrappers
  import JsMath
  import Tevex

  /** The three tabulated hood depths, in mm. */
  const FONDOS: seq<int> := [800, 1000, 1200]

  /** The one motor of the 400º/2H variant up to 3000 mm. */
  const MOTOR_400 := "TMI 400º/2H 9/9 3/4 CV (II)"

  /** Upper length limits (mm, inclusive) of the standard tiers ... */
  const TIER_LIMITS: seq<int> := [1000, 1500, 2500, 3000]

  /** ... and the motor of each tier. */
  const TIER_MOTORS: seq<string> :=
    ["TMI 9/9 1/3 CV (II)", "TMI 9/9 1/2 CV (II)", "TMI 9/9 3/4 CV (II)", "TMI 10/10 1 CV (III)"]

  function Abs(x: int): nat {
    if x < 0 then -x else x
  }

  /** One step of the depth `reduce`: the candidate replaces the running choice
      only when it is strictly nearer. */
  function Nearer(fmm: int, prev: int, curr: int): (r: int)
    ensures r == prev || r == curr
    ensures Abs(r - fmm) <= Abs(prev - fmm) && Abs(r - fmm) <= Abs(curr - fmm)
  {
    if Abs(curr - fmm) < Abs(prev - fmm) then curr else prev
  }

  /** `candidates.reduce(Nearer, acc)`, left to right. */
  function ReduceNearest(fmm: int, candidates: seq<int>, acc: int): (r: int)
    ensures r == acc || r in candidates
    ensures Abs(r - fmm) <= Abs(acc - fmm)
    ensures forall c :: c in candidates ==> Abs(r - fmm) <= Abs(c - fmm)
  {
    if candidates == [] then acc
    else
      var rest := candidates[1..];
      assert forall c :: c in candidates ==> c == candidates[0] || c in rest;
      ReduceNearest(fmm, rest, Nearer(fmm, acc, candidates[0]))
  }

  /** The tabulated depth nearest to `fmm`; a tie goes to the smaller depth. */
  function NearestFondo(fmm: int): (fondo: int)
    ensures fondo in FONDOS
    ensures forall f :: f in FONDOS ==> Abs(fondo - fmm) <= Abs(f - fmm)
  {
    ReduceNearest(fmm, FONDOS, 800)
  }

  /** The nearest depth splits the line at the midpoints 900 and 1100, each
      midpoint going to the depth below it. */
  lemma NearestFondoBands(fmm: int)
    ensures NearestFondo(fmm) == 800 <==> fmm <= 900
    ensures NearestFondo(fmm) == 1000 <==> 900 < fmm <= 1100
    ensures NearestFondo(fmm) == 1200 <==> 1100 < fmm
  {
    var a := Nearer(fmm, 800, 800);
    var b := Nearer(fmm, a, 1000);
    var c := Nearer(fmm, b, 1200);
    assert FONDOS[1..] == [1000, 1200] && FONDOS[1..][1..] == [1200] && FONDOS[1..][1..][1..] == [];
    assert ReduceNearest(fmm, FONDOS, 800) == ReduceNearest(fmm, [1000, 1200], a);
    assert ReduceNearest(fmm, [1000, 1200], a) == ReduceNearest(fmm, [1200], b);
    assert ReduceNearest(fmm, [1200], b) == ReduceNearest(fmm, [], c);
  }

  /** The hood length in whole millimetres, as `Math.round(length * 1000)`. */
  function LengthMm(lengthMeters: real): (mm: int)
    ensures lengthMeters * 1000.0 - 0.5 < mm as real <= lengthMeters * 1000.0 + 0.5
  {
    JsMath.Round(lengthMeters * 1000.0)
  }

  /** `selectMotorForMonoblock`: the motor of a monoblock hood, or `None` when
      the length needs two fans. */
  function SelectMotorForMonoblock(hoodModel: string, lengthMeters: real, depthMeters: real,
                                   isHomologada400: Option<bool>): (motor: Option<string>)
    ensures motor.Some? <==> LengthMm(lengthMeters) <= 3000
    ensures motor.Some? ==> motor.value in Tevex.TEVEX_FANS
  {
    var lmm := LengthMm(lengthMeters);
    var fmm := JsMath.Round(depthMeters * 1000.0);
    var fondo := NearestFondo(fmm);
    MotorsInCatalogue();
    if isHomologada400 == Some(true) then
      if lmm <= 3000 then Some(MOTOR_400) else None
    else if lmm <= 1000 then Some(TIER_MOTORS[0])
    else if lmm <= 1500 then Some(TIER_MOTORS[1])
    else if lmm <= 2500 then Some(TIER_MOTORS[2])
    else if lmm <= 3000 then Some(TIER_MOTORS[3])
    else None
  }

  /** Every motor the rules can name is one of the vendor's motors. */
  lemma MotorsInCatalogue()
    ensures MOTOR_400 in Tevex.TEVEX_FANS
    ensures forall m :: m in TIER_MOTORS ==> m in Tevex.TEVEX_FANS
  {
    var fans := Tevex.TEVEX_FANS;
    assert fans[17] == MOTOR_400;
    assert fans[1] == TIER_MOTORS[0] && fans[2] == TIER_MOTORS[1];
    assert fans[3] == TIER_MOTORS[2] && fans[8] == TIER_MOTORS[3];
  }

  predicate Ascending(limits: seq<int>) {
    forall i, j :: 0 <= i < j < |limits| ==> limits[i] <= limits[j]
  }

  /** How many of `limits` lie strictly below `lmm`; for ascending limits, the
      position where `lmm` falls among them. */
  function CountBelow(limits: seq<int>, lmm: int): (n: nat)
    ensures n <= |limits|
    ensures Ascending(limits) ==> (forall i :: 0 <= i < n ==> limits[i] < lmm)
                                  && (forall i :: n <= i < |limits| ==> lmm <= limits[i])
  {
    if limits == [] then 0
    else
      var rest := CountBelow(limits[1..], lmm);
      assert Ascending(limits) ==> Ascending(limits[1..]);
      (if limits[0] < lmm then 1 else 0) + rest
  }

  /** The standard tier of a length: the number of tier limits it exceeds
      (4 means no single fan will do). */
  function Tier(lmm: int): (t: nat)
    ensures t <= |TIER_LIMITS|
    ensures forall i :: 0 <= i < t ==> TIER_LIMITS[i] < lmm
    ensures forall i :: t <= i < |TIER_LIMITS| ==> lmm <= TIER_LIMITS[i]
  {
    assert Ascending(TIER_LIMITS);
    CountBelow(TIER_LIMITS, lmm)
  }

  /** A longer hood never falls in a lower tier. */
  lemma {:induction false} CountBelowMonotone(limits: seq<int>, l1: int, l2: int)
    requires l1 <= l2
    ensures CountBelow(limits, l1) <= CountBelow(limits, l2)
  {
    if limits != [] {
      CountBelowMonotone(limits[1..], l1, l2);
    }
  }

  /** Rounding to millimetres keeps the order of lengths. */
  lemma LengthMmMonotone(a: real, b: real)
    requires a <= b
    ensures LengthMm(a) <= LengthMm(b)
  {
    var x, y := a * 1000.0 + 0.5, b * 1000.0 + 0.5;
    assert x <= y;
    assert x.Floor as real <= x <= y;
  }

  /** Outside the 400º variant the motor is the one of the length's tier. */
  lemma StandardTierMotor(hoodModel: string, lengthMeters: real, depthMeters: real,
                          isHomologada400: Option<bool>)
    requires isHomologada400 != Some(true)
    ensures var t := Tier(LengthMm(lengthMeters));
            SelectMotorForMonoblock(hoodModel, lengthMeters, depthMeters, isHomologada400)
            == if t < |TIER_MOTORS| then Some(TIER_MOTORS[t]) else None
  {
    var lmm := LengthMm(lengthMeters);
    assert TIER_LIMITS[1..] == [1500, 2500, 3000] && TIER_LIMITS[1..][1..] == [2500, 3000];
    assert TIER_LIMITS[1..][1..][1..] == [3000] && TIER_LIMITS[1..][1..][1..][1..] == [];
    var n3 := CountBelow([3000], lmm);
    var n2 := CountBelow([2500, 3000], lmm);
    var n1 := CountBelow([1500, 2500, 3000], lmm);
    assert n3 == if 3000 < lmm then 1 else 0;
    assert n2 == (if 2500 < lmm then 1 else 0) + n3;
    assert n1 == (if 1500 < lmm then 1 else 0) + n2;
    assert Tier(lmm) == (if 1000 < lmm then 1 else 0) + n1;
  }

  /** The selected tier grows with the hood length. */
  lemma TierMonotoneInLength(l1: real, l2: real)
    requires l1 <= l2
    ensures Tier(LengthMm(l1)) <= Tier(LengthMm(l2))
  {
    LengthMmMonotone(l1, l2);
    CountBelowMonotone(TIER_LIMITS, LengthMm(l1), LengthMm(l2));
  }

  /** In the 400º variant one motor serves every length up to 3000 mm. */
  lemma Homologada400Motor(hoodModel: string, lengthMeters: real, depthMeters: real)
    ensures SelectMotorForMonoblock(hoodModel, lengthMeters, depthMeters, Some(true))
            == if LengthMm(lengthMeters) <= 3000 then Some(MOTOR_400) else None
  {
  }

  /** Neither the hood model nor its depth affects the choice. */
  lemma IndependentOfModelAndDepth(h1: string, h2: string, lengthMeters: real, d1: real, d2: real,
                                   isHomologada400: Option<bool>)
    ensures SelectMotorForMonoblock(h1, lengthMeters, d1, isHomologada400)
            == SelectMotorForMonoblock(h2, lengthMeters, d2, isHomologada400)
  {
  }
}

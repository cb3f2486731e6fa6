/** The per-tick rules of the trawl simulation, shared by the dashboard's own
    interval loop and by the stand-alone simulation controller: how the winch
    moves the two depth sensors, how the boat offset advances, which seabed
    distance is recorded and how the fixed-length chart history slides. */
module Telemetry {

  /** Depth limits of the two sensors, in metres. */
  const Sensor1Min: real := 50.0
  const Sensor1Max: real := 200.0
  const Sensor2Min: real := 80.0
  const Sensor2Max: real := 210.0

  /** Metres a sensor moves per tick while the winch runs. */
  const WinchStep: real := 3.0

  /** Floor of the seabed distance written into a history sample. */
  const MinRecordedDistance: real := 5.0

  /** The boat offset counts ticks modulo this period. */
  const BoatPeriod: nat := 20

  datatype WinchStatus = Idle | Lifting | Lowering

  /** The commands the winch panel sends to the dashboard. */
  datatype Operation = Lift | Lower | Stop

  datatype Depths = Depths(sensor1: real, sensor2: real)

  /** One point of the chart history; `time` is the wall-clock label. */
  datatype Sample = Sample(time: string, sensor1: real, sensor2: real, seabedDistance: real)

  function Max(a: real, b: real): real { if a >= b then a else b }

  function Min(a: real, b: real): real { if a <= b then a else b }

  /** The winch status the dashboard adopts for a command. */
  function StatusOf(op: Operation): (s: WinchStatus)
    ensures s == Lifting <==> op == Lift
    ensures s == Lowering <==> op == Lower
    ensures s == Idle <==> op == Stop
  {
    match op
    case Lift => Lifting
    case Lower => Lowering
    case Stop => Idle
  }

  /** The command that puts the winch into a given status. */
  function CommandFor(s: WinchStatus): Operation
  {
    match s
    case Lifting => Lift
    case Lowering => Lower
    case Idle => Stop
  }

  lemma StatusOfRoundTrip(op: Operation, s: WinchStatus)
    ensures CommandFor(StatusOf(op)) == op
    ensures StatusOf(CommandFor(s)) == s
  {
  }

  /** A value of `Math.random()`. */
  predicate IsUnitRandom(rand: real) { 0.0 <= rand < 1.0 }

  /** The idle drift `Math.random() * 6 - 3`. */
  function Drift(rand: real): (r: real)
    ensures IsUnitRandom(rand) ==> -WinchStep <= r < WinchStep
    ensures rand == 0.5 ==> r == 0.0
  {
    rand * 6.0 - 3.0
  }

  predicate InRange(d: Depths)
  {
    Sensor1Min <= d.sensor1 <= Sensor1Max && Sensor2Min <= d.sensor2 <= Sensor2Max
  }

  /** The new sensor depths after one tick. Lifting only clamps from below and
      lowering only from above; the idle drift is clamped on both sides.
      `rand1` and `rand2` are the two `Math.random()` draws of an idle tick. */
  function StepDepths(status: WinchStatus, d: Depths, rand1: real, rand2: real): (r: Depths)
    ensures status == Lifting ==> r.sensor1 >= Sensor1Min && r.sensor2 >= Sensor2Min
    ensures status == Lowering ==> r.sensor1 <= Sensor1Max && r.sensor2 <= Sensor2Max
    ensures status == Idle ==> InRange(r)
    ensures status == Lifting ==>
      (r.sensor1 == d.sensor1 - WinchStep || r.sensor1 == Sensor1Min) &&
      (r.sensor2 == d.sensor2 - WinchStep || r.sensor2 == Sensor2Min)
    ensures status == Lowering ==>
      (r.sensor1 == d.sensor1 + WinchStep || r.sensor1 == Sensor1Max) &&
      (r.sensor2 == d.sensor2 + WinchStep || r.sensor2 == Sensor2Max)
  {
    match status
    case Lifting =>
      Depths(Max(Sensor1Min, d.sensor1 - WinchStep), Max(Sensor2Min, d.sensor2 - WinchStep))
    case Lowering =>
      Depths(Min(Sensor1Max, d.sensor1 + WinchStep), Min(Sensor2Max, d.sensor2 + WinchStep))
    case Idle =>
      Depths(Max(Sensor1Min, Min(Sensor1Max, d.sensor1 + Drift(rand1))),
             Max(Sensor2Min, Min(Sensor2Max, d.sensor2 + Drift(rand2))))
  }

  /** Lifting from inside the range: no sensor goes deeper, and each rises by
      exactly one step unless that would cross its upper limit. */
  lemma LiftingStep(d: Depths, rand1: real, rand2: real)
    requires InRange(d)
    ensures var r := StepDepths(Lifting, d, rand1, rand2);
      && InRange(r)
      && r.sensor1 <= d.sensor1 && r.sensor2 <= d.sensor2
      && (d.sensor1 - WinchStep >= Sensor1Min ==> r.sensor1 == d.sensor1 - WinchStep)
      && (d.sensor1 - WinchStep < Sensor1Min ==> r.sensor1 == Sensor1Min)
      && (d.sensor2 - WinchStep >= Sensor2Min ==> r.sensor2 == d.sensor2 - WinchStep)
      && (d.sensor2 - WinchStep < Sensor2Min ==> r.sensor2 == Sensor2Min)
  {
  }

  /** Lowering from inside the range: no sensor rises, and each sinks by
      exactly one step unless that would cross its lower limit. */
  lemma LoweringStep(d: Depths, rand1: real, rand2: real)
    requires InRange(d)
    ensures var r := StepDepths(Lowering, d, rand1, rand2);
      && InRange(r)
      && r.sensor1 >= d.sensor1 && r.sensor2 >= d.sensor2
      && (d.sensor1 + WinchStep <= Sensor1Max ==> r.sensor1 == d.sensor1 + WinchStep)
      && (d.sensor1 + WinchStep > Sensor1Max ==> r.sensor1 == Sensor1Max)
      && (d.sensor2 + WinchStep <= Sensor2Max ==> r.sensor2 == d.sensor2 + WinchStep)
      && (d.sensor2 + WinchStep > Sensor2Max ==> r.sensor2 == Sensor2Max)
  {
  }

  /** Whatever the winch does, a tick keeps in-range depths in range and moves
      each sensor by at most one winch step. */
  lemma StepStaysNear(status: WinchStatus, d: Depths, rand1: real, rand2: real)
    requires InRange(d) && IsUnitRandom(rand1) && IsUnitRandom(rand2)
    ensures var r := StepDepths(status, d, rand1, rand2);
      && InRange(r)
      && d.sensor1 - WinchStep <= r.sensor1 <= d.sensor1 + WinchStep
      && d.sensor2 - WinchStep <= r.sensor2 <= d.sensor2 + WinchStep
  {
  }

  /** The depths after `n` ticks of a running winch. */
  function Haul(status: WinchStatus, d: Depths, n: nat): Depths
    requires status != Idle
  {
    if n == 0 then d else StepDepths(status, Haul(status, d, n - 1), 0.0, 0.0)
  }

  /** `n` lifting ticks raise each sensor by 3n metres, stopping at its limit. */
  lemma {:induction false} LiftingRun(d: Depths, n: nat)
    requires InRange(d)
    ensures Haul(Lifting, d, n) ==
      Depths(Max(Sensor1Min, d.sensor1 - WinchStep * n as real),
             Max(Sensor2Min, d.sensor2 - WinchStep * n as real))
  {
    if n > 0 {
      LiftingRun(d, n - 1);
      var k := WinchStep * (n - 1) as real;
      assert WinchStep * n as real == k + WinchStep;
      assert Haul(Lifting, d, n) == StepDepths(Lifting, Haul(Lifting, d, n - 1), 0.0, 0.0);
    }
  }

  /** `n` lowering ticks sink each sensor by 3n metres, stopping at its limit. */
  lemma {:induction false} LoweringRun(d: Depths, n: nat)
    requires InRange(d)
    ensures Haul(Lowering, d, n) ==
      Depths(Min(Sensor1Max, d.sensor1 + WinchStep * n as real),
             Min(Sensor2Max, d.sensor2 + WinchStep * n as real))
  {
    if n > 0 {
      LoweringRun(d, n - 1);
      var k := WinchStep * (n - 1) as real;
      assert WinchStep * n as real == k + WinchStep;
      assert Haul(Lowering, d, n) == StepDepths(Lowering, Haul(Lowering, d, n - 1), 0.0, 0.0);
    }
  }

  /** From anywhere in range, fifty lifting ticks bring both sensors up to
      their shallowest depths and keep them there. */
  lemma LiftingReachesLimit(d: Depths, n: nat)
    requires InRange(d) && n >= 50
    ensures Haul(Lifting, d, n) == Depths(Sensor1Min, Sensor2Min)
  {
    LiftingRun(d, n);
  }

  /** The boat offset after one tick: `(prev + 1) % 20`. */
  function NextBoat(b: nat): (r: nat)
    ensures r < BoatPeriod
    ensures b < BoatPeriod - 1 ==> r == b + 1
    ensures b == BoatPeriod - 1 ==> r == 0
  {
    (b + 1) % BoatPeriod
  }

  function BoatAfter(b: nat, n: nat): nat
  {
    if n == 0 then b else NextBoat(BoatAfter(b, n - 1))
  }

  /** Adding one after reducing modulo the period is adding one before. */
  lemma SuccessorMod(m: nat)
    ensures (m % BoatPeriod + 1) % BoatPeriod == (m + 1) % BoatPeriod
  {
    var q, r := m / BoatPeriod, m % BoatPeriod;
    assert m == BoatPeriod * q + r;
    if r == BoatPeriod - 1 {
      assert m + 1 == BoatPeriod * (q + 1);
    } else {
      assert m + 1 == BoatPeriod * q + (r + 1);
    }
  }

  /** After `n` ticks the boat offset is the start plus `n`, modulo 20. */
  lemma {:induction false} BoatAfterTicks(b: nat, n: nat)
    requires b < BoatPeriod
    ensures BoatAfter(b, n) == (b + n) % BoatPeriod
  {
    if n > 0 {
      BoatAfterTicks(b, n - 1);
      SuccessorMod(b + n - 1);
    }
  }

  /** Twenty ticks bring the boat back to where it started. */
  lemma BoatCycle(b: nat)
    requires b < BoatPeriod
    ensures BoatAfter(b, BoatPeriod) == b
  {
    BoatAfterTicks(b, BoatPeriod);
  }

  /** The seabed distance stored in a history sample:
      `max(5, seabed - max(sensor1, sensor2))`. It is the clearance of the
      deeper sensor, but never below the floor of five metres. */
  function SeabedDistance(seabed: real, d: Depths): (r: real)
    ensures r >= MinRecordedDistance
    ensures r > MinRecordedDistance ==> r <= seabed - d.sensor1 && r <= seabed - d.sensor2
    ensures r == MinRecordedDistance || r == seabed - d.sensor1 || r == seabed - d.sensor2
    ensures r == MinRecordedDistance ==>
      seabed - d.sensor1 <= MinRecordedDistance || seabed - d.sensor2 <= MinRecordedDistance
  {
    Max(MinRecordedDistance, seabed - Max(d.sensor1, d.sensor2))
  }

  /** Moving each sensor by at most one step moves the recorded distance by at
      most one step. */
  lemma SeabedDistanceNear(seabed: real, d: Depths, e: Depths)
    requires d.sensor1 - WinchStep <= e.sensor1 <= d.sensor1 + WinchStep
    requires d.sensor2 - WinchStep <= e.sensor2 <= d.sensor2 + WinchStep
    ensures SeabedDistance(seabed, d) - WinchStep <= SeabedDistance(seabed, e)
    ensures SeabedDistance(seabed, e) <= SeabedDistance(seabed, d) + WinchStep
  {
  }

  /** The history update `[...prev.slice(1), sample]`: a non-empty window keeps
      its length, drops its oldest sample and ends with the new one. */
  function Slide(prev: seq<Sample>, sample: Sample): (r: seq<Sample>)
    ensures |prev| > 0 ==> |r| == |prev|
    ensures |prev| == 0 ==> r == [sample]
    ensures r[|r| - 1] == sample
    ensures forall i :: 0 <= i < |r| - 1 ==> r[i] == prev[i + 1]
  {
    if |prev| == 0 then [sample] else prev[1..] + [sample]
  }
}

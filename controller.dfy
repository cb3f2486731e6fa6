/** The stand-alone simulation controller: a logic-only component that owns
    the boat offset and, on each tick, reports the new depths, the new boat
    offset and a history updater to its parent through three callbacks. Unlike
    the dashboard, it records the seabed distance of the depths AFTER the move. */
module Controller {
  import opened Telemetry
  import opened Dashboard

  /** What one tick hands to the three callbacks: the arguments of
      `onSensorDepthChange` and `onBoatMovementChange`, and the sample the
      updater given to `onHistoryDataChange` appends with `Slide`. */
  datatype Emission = Emission(depths: Depths, boat: nat, sample: Sample)

  /** The outputs of one tick, from the component's props and boat offset. */
  function TickEmission(status: WinchStatus, d: Depths, seabed: real, boat: nat,
                        rand1: real, rand2: real, time: string): (e: Emission)
    ensures e.depths == StepDepths(status, d, rand1, rand2)
    ensures e.boat == NextBoat(boat)
    ensures e.sample.sensor1 == e.depths.sensor1 && e.sample.sensor2 == e.depths.sensor2
    ensures e.sample.seabedDistance >= MinRecordedDistance
    ensures e.sample.seabedDistance > MinRecordedDistance ==>
      e.sample.seabedDistance <= seabed - e.depths.sensor1 &&
      e.sample.seabedDistance <= seabed - e.depths.sensor2
    ensures e.sample.time == time
    ensures e.boat < BoatPeriod
    ensures boat < BoatPeriod - 1 ==> e.boat == boat + 1
  {
    var after := StepDepths(status, d, rand1, rand2);
    Emission(after, NextBoat(boat), Sample(time, after.sensor1, after.sensor2, SeabedDistance(seabed, after)))
  }

  /** One call made by the controller to its parent: `onSensorDepthChange`
      with the new depths, `onBoatMovementChange` with the new offset, or
      `onHistoryDataChange` with a function from the previous history to the
      next one. */
  datatype Callback =
    | SensorDepthChange(sensor1: real, sensor2: real)
    | BoatMovementChange(movement: nat)
    | HistoryDataChange(updater: seq<Sample> -> seq<Sample>)

  class SimulationController {
    var boatMovement: nat
    /** Every callback call made so far, oldest first. */
    var calls: seq<Callback>

    constructor ()
      ensures boatMovement == 0 && calls == []
    {
      boatMovement := 0;
      calls := [];
    }

    /** One interval tick with the current props. When `isSimulating` is false
        no interval is registered: no state changes and no callback fires.
        Otherwise the three callbacks fire in order: depths, boat offset, then
        a history updater that slides the new sample into any history. */
    method Tick(isSimulating: bool, d: Depths, status: WinchStatus, seabed: real,
                rand1: real, rand2: real, time: string)
      modifies this
      ensures !isSimulating ==> unchanged(this)
      ensures isSimulating ==>
        var e := TickEmission(status, d, seabed, old(boatMovement), rand1, rand2, time);
        var k := |old(calls)|;
        && boatMovement == e.boat
        && |calls| == k + 3 && calls[..k] == old(calls)
        && calls[k].SensorDepthChange?
        && calls[k].sensor1 == e.depths.sensor1 && calls[k].sensor2 == e.depths.sensor2
        && calls[k + 1].BoatMovementChange? && calls[k + 1].movement == e.boat
        && calls[k + 2].HistoryDataChange?
        && (forall prev :: calls[k + 2].updater(prev) == Slide(prev, e.sample))
      ensures isSimulating ==> boatMovement < BoatPeriod
    {
      if isSimulating {
        var e := TickEmission(status, d, seabed, boatMovement, rand1, rand2, time);
        calls := calls + [SensorDepthChange(e.depths.sensor1, e.depths.sensor2)];
        boatMovement := e.boat;
        calls := calls + [BoatMovementChange(e.boat)];
        var sample := e.sample;
        calls := calls + [HistoryDataChange((prev: seq<Sample>) => Slide(prev, sample))];
      }
    }
  }

  /** The controller's sample always describes its own depths: its seabed
      distance is the recorded distance of the sensor values it carries. */
  lemma ControllerSampleConsistent(status: WinchStatus, d: Depths, seabed: real, boat: nat,
                                   rand1: real, rand2: real, time: string)
    ensures var s := TickEmission(status, d, seabed, boat, rand1, rand2, time).sample;
      s.seabedDistance == SeabedDistance(seabed, Depths(s.sensor1, s.sensor2))
  {
  }

  /** From in-range depths the two copies of the tick agree on the new depths
      and boat offset, and their recorded seabed distances, taken before and
      after the move, differ by at most one winch step. */
  lemma DashboardAndControllerAgree(status: WinchStatus, d: Depths, seabed: real, boat: nat,
                                    rand1: real, rand2: real, time: string)
    requires InRange(d) && IsUnitRandom(rand1) && IsUnitRandom(rand2)
    ensures var e := TickEmission(status, d, seabed, boat, rand1, rand2, time);
      var s := DashboardSample(status, seabed, d, rand1, rand2, time);
      && Depths(s.sensor1, s.sensor2) == e.depths
      && e.sample.sensor1 == s.sensor1 && e.sample.sensor2 == s.sensor2
      && e.sample.time == s.time
      && s.seabedDistance - WinchStep <= e.sample.seabedDistance
      && e.sample.seabedDistance <= s.seabedDistance + WinchStep
  {
    StepStaysNear(status, d, rand1, rand2);
    SeabedDistanceNear(seabed, d, StepDepths(status, d, rand1, rand2));
  }

  /** While lowering an unclamped, well-clear net whose deeper sensor is the
      second one, the controller records exactly one step less clearance than
      the dashboard does for the same tick. */
  lemma LoweringRecordsOneStepCloser(d: Depths, seabed: real, boat: nat, time: string)
    requires InRange(d) && d.sensor1 <= d.sensor2 && d.sensor2 + WinchStep <= Sensor2Max
    requires d.sensor1 + WinchStep <= Sensor1Max
    requires seabed - d.sensor2 - WinchStep >= MinRecordedDistance
    ensures TickEmission(Lowering, d, seabed, boat, 0.0, 0.0, time).sample.seabedDistance
         == DashboardSample(Lowering, seabed, d, 0.0, 0.0, time).seabedDistance - WinchStep
  {
  }
}

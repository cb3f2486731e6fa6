/** The trawl dashboard's own state and its simulation tick. The interval
    callback reads the current depths, winch status and seabed depth, moves the
    sensors, advances the boat offset and appends one sample to the chart
    history, whose seabed distance it takes from the depths BEFORE the move. */
module Dashboard {
  import opened Telemetry

  const InitialSensor1: real := 120.0
  const InitialSensor2: real := 180.0
  const InitialSeabed: real := 220.0

  /** Limits of the seabed-depth slider. */
  const SeabedMin: real := 150.0
  const SeabedMax: real := 300.0

  /** The clearance shown in the "Distance to seabed" indicator: the seabed
      depth minus the deeper sensor, shown as zero once a sensor reaches it. */
  function DisplayedDistance(seabed: real, d: Depths): (r: real)
    ensures r >= 0.0
    ensures r > 0.0 ==> r <= seabed - d.sensor1 && r <= seabed - d.sensor2
    ensures r == 0.0 || r == seabed - d.sensor1 || r == seabed - d.sensor2
    ensures r == 0.0 ==> seabed <= d.sensor1 || seabed <= d.sensor2
  {
    Max(0.0, seabed - Max(d.sensor1, d.sensor2))
  }

  class TrawlDashboard {
    var sensor1Depth: real
    var sensor2Depth: real
    var isSimulating: bool
    var seabedDepth: real
    var boatMovement: nat
    var winchStatus: WinchStatus
    var historyData: seq<Sample>

    /** What every way of changing the dashboard keeps: both sensors inside
        their slider ranges, the boat offset below its period and the seabed
        inside its slider range. */
    ghost predicate Valid()
      reads this
    {
      && InRange(Depths(sensor1Depth, sensor2Depth))
      && boatMovement < BoatPeriod
      && SeabedMin <= seabedDepth <= SeabedMax
    }

    function Sensors(): Depths
      reads this
    {
      Depths(sensor1Depth, sensor2Depth)
    }

    /** `seabedDepth - max(sensor1Depth, sensor2Depth)`: the clearance handed to
        the alerts panel, negative once a sensor is below the seabed. */
    function CurrentSeabedDistance(): (r: real)
      reads this
      ensures r <= seabedDepth - sensor1Depth && r <= seabedDepth - sensor2Depth
      ensures r == seabedDepth - sensor1Depth || r == seabedDepth - sensor2Depth
    {
      seabedDepth - Max(sensor1Depth, sensor2Depth)
    }

    constructor ()
      ensures Valid()
      ensures sensor1Depth == InitialSensor1 && sensor2Depth == InitialSensor2
      ensures !isSimulating && seabedDepth == InitialSeabed && boatMovement == 0
      ensures winchStatus == Idle && historyData == []
    {
      sensor1Depth, sensor2Depth := InitialSensor1, InitialSensor2;
      isSimulating := false;
      seabedDepth := InitialSeabed;
      boatMovement := 0;
      winchStatus := Idle;
      historyData := [];
    }

    /** The mount effect replaces the empty history with generated seed data. */
    method SeedHistory(initial: seq<Sample>)
      modifies this`historyData
      ensures historyData == initial
      ensures old(Valid()) ==> Valid()
    {
      historyData := initial;
    }

    /** One interval tick. While the simulation is stopped no interval is
        registered and nothing changes. `rand1`, `rand2` are the idle-drift
        draws of `Math.random()`, `time` is the formatted wall-clock time. */
    method Tick(rand1: real, rand2: real, time: string)
      modifies this
      ensures !old(isSimulating) ==> unchanged(this)
      ensures isSimulating == old(isSimulating) && seabedDepth == old(seabedDepth)
      ensures winchStatus == old(winchStatus)
      ensures old(isSimulating) ==>
        && Sensors() == StepDepths(winchStatus, old(Sensors()), rand1, rand2)
        && boatMovement == NextBoat(old(boatMovement))
        && historyData == Slide(old(historyData),
             DashboardSample(winchStatus, seabedDepth, old(Sensors()), rand1, rand2, time))
      ensures old(Valid()) ==> Valid()
      ensures old(Valid()) && IsUnitRandom(rand1) && IsUnitRandom(rand2) ==>
        && old(sensor1Depth) - WinchStep <= sensor1Depth <= old(sensor1Depth) + WinchStep
        && old(sensor2Depth) - WinchStep <= sensor2Depth <= old(sensor2Depth) + WinchStep
      ensures old(isSimulating) && |old(historyData)| > 0 ==> |historyData| == |old(historyData)|
    {
      if isSimulating {
        var before := Sensors();
        var after := StepDepths(winchStatus, before, rand1, rand2);
        sensor1Depth, sensor2Depth := after.sensor1, after.sensor2;
        boatMovement := NextBoat(boatMovement);
        historyData := Slide(historyData, DashboardSample(winchStatus, seabedDepth, before, rand1, rand2, time));
        if InRange(before) {
          if winchStatus == Lifting {
            LiftingStep(before, rand1, rand2);
          } else if winchStatus == Lowering {
            LoweringStep(before, rand1, rand2);
          }
          if IsUnitRandom(rand1) && IsUnitRandom(rand2) {
            StepStaysNear(winchStatus, before, rand1, rand2);
          }
        }
      }
    }

    /** `toggleSimulation`: starts or stops the interval. */
    method ToggleSimulation()
      modifies this`isSimulating
      ensures isSimulating == !old(isSimulating)
      ensures old(Valid()) ==> Valid()
    {
      isSimulating := !isSimulating;
    }

    /** `handleWinchOperation`: the winch panel's command sets the status. */
    method HandleWinchOperation(op: Operation)
      modifies this`winchStatus
      ensures winchStatus == StatusOf(op)
      ensures old(Valid()) ==> Valid()
    {
      winchStatus := StatusOf(op);
    }

    /** The seabed slider, limited to [150, 300]. */
    method AdjustSeabed(value: real)
      requires SeabedMin <= value <= SeabedMax
      modifies this`seabedDepth
      ensures seabedDepth == value
      ensures old(Valid()) ==> Valid()
    {
      seabedDepth := value;
    }

    /** The two sensor sliders, limited to their ranges and disabled while the
        simulation runs. */
    method SetSensorDepths(d: Depths)
      requires InRange(d) && !isSimulating
      modifies this`sensor1Depth, this`sensor2Depth
      ensures Sensors() == d
      ensures old(Valid()) ==> Valid()
    {
      sensor1Depth, sensor2Depth := d.sensor1, d.sensor2;
    }
  }

  /** The sample a dashboard tick appends, as a value: new depths, but the
      seabed distance of the old ones. */
  function DashboardSample(status: WinchStatus, seabed: real, d: Depths,
                           rand1: real, rand2: real, time: string): (s: Sample)
    ensures Depths(s.sensor1, s.sensor2) == StepDepths(status, d, rand1, rand2)
    ensures s.seabedDistance == SeabedDistance(seabed, d)
    ensures s.seabedDistance >= MinRecordedDistance
    ensures s.seabedDistance > MinRecordedDistance ==>
      s.seabedDistance <= seabed - d.sensor1 && s.seabedDistance <= seabed - d.sensor2
    ensures s.time == time
  {
    var after := StepDepths(status, d, rand1, rand2);
    Sample(time, after.sensor1, after.sensor2, SeabedDistance(seabed, d))
  }

  /** The dashboard's sample lags by one tick: lowering from 120 m and 180 m
      above a 220 m seabed records 40 m beside depths 123 m and 183 m, whose
      own clearance is 37 m. */
  lemma DashboardSampleLags()
    ensures var s := DashboardSample(Lowering, 220.0, Depths(120.0, 180.0), 0.0, 0.0, "");
      && s.sensor1 == 123.0 && s.sensor2 == 183.0
      && s.seabedDistance == 40.0
      && SeabedDistance(220.0, Depths(s.sensor1, s.sensor2)) == 37.0
  {
  }
}

/** The winch control panel. A maintenance-mode flag gates every command the
    panel forwards to the dashboard: outside maintenance `lift`, `lower` and
    `stop` pass through unchanged; inside it nothing does. Toggling the mode
    first sends `stop` through the same gate, so entering maintenance stops the
    winch and leaving it sends nothing. */
module Winch {
  import opened Telemetry

  /** What the operator does on the panel: press a command button, or the
      maintenance toggle. */
  datatype Input = Press(op: Operation) | ToggleMaintenance

  /** The panel's mode after some inputs, and the commands it forwarded to
      `onWinchOperation`, oldest first. */
  datatype Reaction = Reaction(maintenance: bool, forwarded: seq<Operation>)

  /** `handleOperation`: the commands that reach `onWinchOperation`. */
  function Gate(maintenance: bool, op: Operation): (r: seq<Operation>)
    ensures maintenance <==> r == []
    ensures forall i :: 0 <= i < |r| ==> r[i] == op
    ensures |r| <= 1
  {
    if maintenance then [] else [op]
  }

  /** One input from a given mode. */
  function React(maintenance: bool, input: Input): (r: Reaction)
    ensures r.maintenance == (maintenance != input.ToggleMaintenance?)
    ensures maintenance ==> r.forwarded == []
    ensures !maintenance ==> |r.forwarded| == 1
    ensures input.Press? && !maintenance ==> r.forwarded == [input.op]
    ensures input.ToggleMaintenance? && !maintenance ==> r.forwarded == [Stop]
  {
    match input
    case Press(op) => Reaction(maintenance, Gate(maintenance, op))
    case ToggleMaintenance => Reaction(!maintenance, Gate(maintenance, Stop))
  }

  /** A sequence of inputs from a given mode. */
  function Run(maintenance: bool, inputs: seq<Input>): (r: Reaction)
    ensures (forall i :: 0 <= i < |inputs| ==> inputs[i].Press?) ==> r.maintenance == maintenance
    ensures maintenance && (forall i :: 0 <= i < |inputs| ==> inputs[i].Press?) ==> r.forwarded == []
    ensures !maintenance && (forall i :: 0 <= i < |inputs| ==> inputs[i].Press?) ==>
      r.forwarded == seq(|inputs|, i requires 0 <= i < |inputs| => inputs[i].op)
    decreases |inputs|
  {
    if |inputs| == 0 then Reaction(maintenance, [])
    else
      var first := React(maintenance, inputs[0]);
      var rest := Run(first.maintenance, inputs[1..]);
      Reaction(rest.maintenance, first.forwarded + rest.forwarded)
  }

  function Toggles(inputs: seq<Input>): nat
  {
    if |inputs| == 0 then 0
    else (if inputs[0].ToggleMaintenance? then 1 else 0) + Toggles(inputs[1..])
  }

  /** Outside maintenance a command is forwarded once and unchanged; inside
      it nothing is forwarded. Neither changes the mode. */
  lemma PressForwardsUnlessMaintenance(maintenance: bool, op: Operation)
    ensures Run(maintenance, [Press(op)]).maintenance == maintenance
    ensures !maintenance ==> Run(maintenance, [Press(op)]).forwarded == [op]
    ensures maintenance ==> Run(maintenance, [Press(op)]).forwarded == []
  {
    assert [Press(op)][1..] == [];
  }

  /** Entering maintenance forwards exactly one `stop`; leaving it forwards
      nothing, because that `stop` meets the closed gate. */
  lemma ToggleForwardsStopOnEntry(maintenance: bool)
    ensures Run(maintenance, [ToggleMaintenance]).maintenance == !maintenance
    ensures !maintenance ==> Run(maintenance, [ToggleMaintenance]).forwarded == [Stop]
    ensures maintenance ==> Run(maintenance, [ToggleMaintenance]).forwarded == []
  {
    assert [ToggleMaintenance][1..] == [];
  }

  /** Two toggles restore the mode and, from either mode, forward one `stop`. */
  lemma ToggleTwice(maintenance: bool)
    ensures Run(maintenance, [ToggleMaintenance, ToggleMaintenance]) == Reaction(maintenance, [Stop])
  {
    var inputs := [ToggleMaintenance, ToggleMaintenance];
    assert inputs[1..] == [ToggleMaintenance];
    ToggleForwardsStopOnEntry(!maintenance);
    assert Run(!maintenance, inputs[1..]) == React(!maintenance, ToggleMaintenance) by {
      assert inputs[1..][1..] == [];
    }
  }

  /** The mode after any inputs is the start mode flipped once per toggle. */
  lemma {:induction false} ModeFollowsToggles(maintenance: bool, inputs: seq<Input>)
    ensures Run(maintenance, inputs).maintenance == (maintenance != (Toggles(inputs) % 2 == 1))
    decreases |inputs|
  {
    if |inputs| > 0 {
      ModeFollowsToggles(React(maintenance, inputs[0]).maintenance, inputs[1..]);
    }
  }

  /** However long the operator presses buttons in maintenance mode, nothing
      is forwarded and the mode stays on. */
  lemma {:induction false} MaintenanceForwardsNothing(inputs: seq<Input>)
    requires forall i :: 0 <= i < |inputs| ==> inputs[i].Press?
    ensures Run(true, inputs) == Reaction(true, [])
  {
    if |inputs| > 0 {
      MaintenanceForwardsNothing(inputs[1..]);
    }
  }

  /** Each input forwards at most one command. */
  lemma {:induction false} ForwardsAtMostOnePerInput(maintenance: bool, inputs: seq<Input>)
    ensures |Run(maintenance, inputs).forwarded| <= |inputs|
    decreases |inputs|
  {
    if |inputs| > 0 {
      ForwardsAtMostOnePerInput(React(maintenance, inputs[0]).maintenance, inputs[1..]);
    }
  }

  /** The dashboard's winch status after it has handled the forwarded commands
      in order (`handleWinchOperation` for each). */
  function Follow(status: WinchStatus, ops: seq<Operation>): (r: WinchStatus)
    ensures |ops| == 0 ==> r == status
    ensures |ops| > 0 ==> r == StatusOf(ops[|ops| - 1])
    decreases |ops|
  {
    if |ops| == 0 then status else Follow(StatusOf(ops[0]), ops[1..])
  }

  lemma {:induction false} FollowAppend(status: WinchStatus, xs: seq<Operation>, ys: seq<Operation>)
    ensures Follow(status, xs + ys) == Follow(Follow(status, xs), ys)
    decreases |xs|
  {
    if |xs| > 0 {
      assert (xs + ys)[1..] == xs[1..] + ys;
      FollowAppend(StatusOf(xs[0]), xs[1..], ys);
    } else {
      assert xs + ys == ys;
    }
  }

  /** With the dashboard driven only by this panel, whenever the panel is in
      maintenance mode the dashboard's winch is idle: entering maintenance
      stops it, and nothing moves it again until maintenance is left. */
  lemma {:induction false} MaintenanceKeepsWinchIdle(maintenance: bool, status: WinchStatus, inputs: seq<Input>)
    requires maintenance ==> status == Idle
    ensures var r := Run(maintenance, inputs);
      r.maintenance ==> Follow(status, r.forwarded) == Idle
    decreases |inputs|
  {
    if |inputs| > 0 {
      var first := React(maintenance, inputs[0]);
      var status' := Follow(status, first.forwarded);
      if first.maintenance {
        if inputs[0].Press? {
          assert first.forwarded == [] && status' == status;
        } else {
          assert first.forwarded == [Stop] && first.forwarded[1..] == [];
          assert status' == Follow(StatusOf(Stop), []);
        }
      }
      MaintenanceKeepsWinchIdle(first.maintenance, status', inputs[1..]);
      FollowAppend(status, first.forwarded, Run(first.maintenance, inputs[1..]).forwarded);
    }
  }

  class WinchControl {
    var maintenanceMode: bool
    /** Every command passed to `onWinchOperation`, oldest first. */
    var forwarded: seq<Operation>

    constructor ()
      ensures !maintenanceMode && forwarded == []
    {
      maintenanceMode := false;
      forwarded := [];
    }

    method HandleOperation(op: Operation)
      modifies this`forwarded
      ensures forwarded == old(forwarded) + Gate(maintenanceMode, op)
    {
      if maintenanceMode {
        return;
      }
      forwarded := forwarded + [op];
    }

    method ToggleMaintenance()
      modifies this
      ensures maintenanceMode == !old(maintenanceMode)
      ensures forwarded == old(forwarded) + Gate(old(maintenanceMode), Stop)
    {
      HandleOperation(Stop);
      maintenanceMode := !maintenanceMode;
    }

    /** The panel as a whole: each input does what `React` says. */
    method Handle(input: Input)
      modifies this
      ensures |old(forwarded)| <= |forwarded| && forwarded[..|old(forwarded)|] == old(forwarded)
      ensures Reaction(maintenanceMode, forwarded[|old(forwarded)|..]) == React(old(maintenanceMode), input)
    {
      match input
      case Press(op) => HandleOperation(op);
      case ToggleMaintenance => ToggleMaintenance();
    }
  }
}

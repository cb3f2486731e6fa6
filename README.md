# Smart trawl gear dashboard: the simulation and alert rules

The dashboard shows a trawl net hanging from a boat on two ropes, each ending
in a depth sensor, above an adjustable seabed. Behind the graphics sit three
small rules, and this project models them and proves what they guarantee:

- **The simulation tick** (`Telemetry`, `Dashboard`, `Controller`). While the
  simulation runs, every tick the winch status moves the sensors. Lifting
  raises both by 3 m, stopping at 50 m and 80 m. Lowering sinks both by 3 m,
  stopping at 200 m and 210 m. An idle winch lets them drift by
  `Math.random() * 6 - 3`, clamped to both limits. The boat offset counts
  ticks modulo 20. The chart history drops its oldest sample and appends a new
  one, whose seabed distance is floored at 5 m. The dashboard and the
  stand-alone simulation controller each carry a copy of this tick. They differ
  in one point, which the model keeps. The dashboard records the seabed
  distance of the depths *before* the move; the controller records that of the
  depths *after* it.
- **The seabed proximity alerts** (`Alerts`, `Text`). These follow a hysteresis
  rule. Below the threshold, a proximity warning is put at the head of the
  list, but only if no proximity warning is present yet. Up to 5 m above the
  threshold nothing changes. Further away, and only if a proximity warning is
  present, every alert whose id mentions `proximity` is purged and a "safe"
  notice is put at the head. Alerts can also be removed by id.
- **The winch maintenance gate** (`Winch`). A maintenance flag blocks every
  `lift`, `lower` and `stop` command on its way to the dashboard. Toggling
  the flag first sends `stop` through that gate. So entering maintenance stops
  the winch, and leaving it sends nothing.

Depths and distances are `real`: the idle drift makes them fractional. Each
`Math.random()` draw is a parameter in [0, 1). `Date.now()`, which names a
new alert, is a `nat` parameter; `new Date()`, which stamps it, is a separate
parameter. The wall-clock label of a history sample is an opaque string. One
call of a `Tick` method is one interval tick. One call of
`AlertsPanel.OnSeabedDistance` is one run of the alert effect.

The callbacks of the controller are recorded in one log, in the order they
fire. Each entry holds the call's arguments; the history updater passed to
`onHistoryDataChange` is kept as the function itself. The winch panel's calls
to `onWinchOperation` are recorded as a log of the commands passed.

`trawl-websocket-server/server.js` echoes every message to every client, and
`mqtt_subscriber.js` only logs the messages it receives.

## Model

| member | source | states |
|---|---|---|
| `Telemetry.StatusOf` | src/components/TrawlDashboard.tsx:111-113 | the winch mapping is total: lift gives lifting, lower gives lowering, stop gives idle, each in both directions |
| `Telemetry.StatusOfRoundTrip` | src/components/TrawlDashboard.tsx:111-113 | the mapping is a bijection between commands and statuses (the inverse `CommandFor` undoes it both ways) |
| `Telemetry.Drift` | src/components/TrawlDashboard.tsx:62-63 | for a `Math.random()` draw in [0, 1) the idle drift lies in [-3, 3); the middle draw 0.5 gives no drift |
| `Telemetry.StepDepths` | src/components/TrawlDashboard.tsx:51-64 | lifting leaves sensor 1 at 50 m or deeper and sensor 2 at 80 m or deeper; lowering leaves them at most 200 m and 210 m; each running-winch step is exactly 3 m or lands on the limit; idle leaves both inside their ranges whatever the start and drift |
| `Telemetry.LiftingStep` | src/components/TrawlDashboard.tsx:54-56 | from in-range depths lifting stays in range, never deepens a sensor, and moves each exactly 3 m up unless that crosses its limit, in which case it lands on the limit |
| `Telemetry.LoweringStep` | src/components/TrawlDashboard.tsx:57-59 | from in-range depths lowering stays in range, never raises a sensor, and moves each exactly 3 m down unless that crosses its limit, in which case it lands on the limit |
| `Telemetry.StepStaysNear` | src/components/TrawlDashboard.tsx:54-64 | for every winch status and every drift draw in [0,1), in-range depths stay in range and each sensor moves by at most 3 m |
| `Telemetry.LiftingRun` | src/components/TrawlDashboard.tsx:54-56 | n lifting ticks from in-range depths give `max(limit, depth - 3n)` for each sensor |
| `Telemetry.LoweringRun` | src/components/TrawlDashboard.tsx:57-59 | n lowering ticks from in-range depths give `min(limit, depth + 3n)` for each sensor |
| `Telemetry.LiftingReachesLimit` | src/components/TrawlDashboard.tsx:54-56 | fifty or more lifting ticks from anywhere in range leave both sensors at their shallowest limits, 50 m and 80 m |
| `Telemetry.NextBoat` | src/components/TrawlDashboard.tsx:68 | the new boat offset is below 20; it is the old one plus one, except that 19 wraps to 0 |
| `Telemetry.BoatAfterTicks` | src/components/TrawlDashboard.tsx:68 | after n ticks from an offset below 20 the offset is (start + n) mod 20 |
| `Telemetry.BoatCycle` | src/components/TrawlDashboard.tsx:68 | twenty ticks return the boat offset to where it started |
| `Telemetry.SeabedDistance` | src/components/TrawlDashboard.tsx:73 | the recorded distance is at least 5 m; above 5 m it is the clearance of the deeper sensor (no larger than either sensor's clearance and equal to one of them); it is 5 m only when some sensor is within 5 m of the seabed |
| `Telemetry.SeabedDistanceNear` | src/components/trawl/SimulationController.tsx:60 | moving each sensor by at most 3 m moves the recorded distance by at most 3 m |
| `Telemetry.Slide` | src/components/TrawlDashboard.tsx:75-83 | a non-empty history keeps its length; the last element is the new sample; elements 0..n-2 are the old elements 1..n-1; an empty history becomes the one new sample |
| `Dashboard.DisplayedDistance` | src/components/TrawlDashboard.tsx:188 | the displayed distance is never negative; when positive it is the clearance of the deeper sensor; it is zero only when a sensor is at or below the seabed |
| `Dashboard.TrawlDashboard.CurrentSeabedDistance` | src/components/TrawlDashboard.tsx:125 | the distance handed to the alerts panel is the smaller of the two sensors' clearances (it may be negative) |
| `Dashboard.TrawlDashboard.constructor` | src/components/TrawlDashboard.tsx:20-26 | the dashboard starts at 120 m and 180 m above a 220 m seabed, stopped, boat offset 0, winch idle, empty history, and in its invariant |
| `Dashboard.TrawlDashboard.SeedHistory` | src/components/TrawlDashboard.tsx:29-43 | the mount effect replaces the history with the seed samples and keeps the invariant |
| `Dashboard.TrawlDashboard.Tick` | src/components/TrawlDashboard.tsx:49-85 | a stopped dashboard does not change; a running one moves the sensors by `StepDepths` for its winch status, advances the boat by `NextBoat` and slides in the `DashboardSample` of the old depths (new depths, seabed distance of the OLD depths); it keeps the invariant (depths in range, boat below 20, seabed in range) for any draws, moves each sensor at most 3 m for draws in [0, 1), and keeps a non-empty history's length |
| `Dashboard.TrawlDashboard.ToggleSimulation` | src/components/TrawlDashboard.tsx:95-96 | toggling flips `isSimulating` and keeps the invariant |
| `Dashboard.TrawlDashboard.HandleWinchOperation` | src/components/TrawlDashboard.tsx:111-113 | a command sets the winch status given by `StatusOf` and keeps the invariant |
| `Dashboard.TrawlDashboard.AdjustSeabed` | src/components/TrawlDashboard.tsx:107-109 | the seabed slider sets the seabed depth within [150, 300] and keeps the invariant |
| `Dashboard.TrawlDashboard.SetSensorDepths` | src/components/TrawlDashboard.tsx:227-251 | the sensor sliders, enabled only while stopped, set in-range depths and keep the invariant |
| `Dashboard.DashboardSample` | src/components/TrawlDashboard.tsx:49-83 | the dashboard's sample carries the stepped depths and the tick's time, and its seabed distance is exactly the recorded distance `SeabedDistance` of the OLD depths (at least 5 m and, above 5 m, no larger than either old clearance) |
| `Dashboard.DashboardSampleLags` | src/components/TrawlDashboard.tsx:73 | lowering from 120 m and 180 m above 220 m records 40 m beside depths 123 m and 183 m, whose own clearance is 37 m: the dashboard's sample lags one tick |
| `Controller.TickEmission` | src/components/trawl/SimulationController.tsx:36-70 | the depths passed to `onSensorDepthChange` are `StepDepths` of the props and the boat offset is `NextBoat` of the old one, so both agree with the dashboard's tick; the sample carries exactly those depths and the tick's time; its seabed distance is at least 5 m and, above 5 m, no larger than either NEW depth's clearance; the new boat offset is below 20 and is the old one plus one unless it wraps |
| `Controller.SimulationController.constructor` | src/components/trawl/SimulationController.tsx:27 | the controller starts with boat offset 0 and no callback calls |
| `Controller.SimulationController.Tick` | src/components/trawl/SimulationController.tsx:33-72 | when not simulating nothing changes and no callback fires; otherwise exactly three calls are appended to the log, in order: `onSensorDepthChange` with the depths of `TickEmission`, `onBoatMovementChange` with the new offset (also the local state, below 20), and `onHistoryDataChange` with an updater that maps every previous history to `Slide` of it and the new sample |
| `Controller.ControllerSampleConsistent` | src/components/trawl/SimulationController.tsx:60-69 | the controller's sample's seabed distance is the recorded distance of the very depths it carries |
| `Controller.DashboardAndControllerAgree` | src/components/trawl/SimulationController.tsx:39-60 | from in-range depths and draws in [0, 1), the controller's emission and the dashboard's `DashboardSample` carry the same depths and time, and their recorded seabed distances differ by at most 3 m |
| `Controller.LoweringRecordsOneStepCloser` | src/components/trawl/SimulationController.tsx:42-60 | lowering an unclamped net whose deeper sensor is sensor 2, well clear of the seabed, the controller records exactly 3 m less than the dashboard's `DashboardSample` for the same tick |
| `Text.Contains` | src/components/trawl/AlertsPanel.tsx:41-42 | `includes` finds a part only if it is no longer than the string, and always finds the empty part |
| `Text.Decimal` | src/components/trawl/AlertsPanel.tsx:48 | the rendering of `Date.now()` in an id is a non-empty string of decimal digits, with no leading zero from 10 on |
| `Text.DecimalRoundTrip` | src/components/trawl/AlertsPanel.tsx:48 | reading the rendered digits back gives the timestamp |
| `Text.DecimalInjective` | src/components/trawl/AlertsPanel.tsx:48 | distinct timestamps give distinct ids |
| `Alerts.Filter` | src/components/trawl/AlertsPanel.tsx:59 | `filter` keeps exactly the elements that pass, and no more elements than the input |
| `Alerts.FilterAppend` | src/components/trawl/AlertsPanel.tsx:59 | `filter` distributes over concatenation, so the kept alerts stay in their relative order |
| `Alerts.HasProximityWarning` | src/components/trawl/AlertsPanel.tsx:41-43 | a proximity warning is present exactly when the number of proximity warnings is positive |
| `Alerts.ProximityWarning` | src/components/trawl/AlertsPanel.tsx:47-53 | the new warning is itself a proximity warning, its id starts with `proximity-`, its timestamp is the `new Date()` value and its details give the current distance |
| `Alerts.SafeNotice` | src/components/trawl/AlertsPanel.tsx:62-68 | the new notice is a success alert whose id starts with `safe-` and never mentions `proximity`; its timestamp is the `new Date()` value and its details give the current distance |
| `Alerts.ProximityStep` | src/components/trawl/AlertsPanel.tsx:39-71 | inside the dead band the list is unchanged; below the threshold a proximity warning is present afterwards; above threshold + 5 none is; any change puts an alert stamped with the `new Date()` value at the head |
| `Alerts.ProximityIdTagged` | src/components/trawl/AlertsPanel.tsx:48 | a proximity warning's id contains `proximity` |
| `Alerts.SafeIdUntagged` | src/components/trawl/AlertsPanel.tsx:59-63 | a safe notice's id never contains `proximity`, so the purge cannot remove it |
| `Alerts.WarnsWhenTooClose` | src/components/trawl/AlertsPanel.tsx:41-56 | below the threshold with no proximity warning, exactly one warning, `ProximityWarning` (id prefix `proximity-`, its message and details), is put at the head, the rest of the list is unchanged, and the list then holds exactly one proximity warning |
| `Alerts.QuietWhileWarned` | src/components/trawl/AlertsPanel.tsx:41-45 | below the threshold with a proximity warning present, the list is unchanged |
| `Alerts.QuietInDeadBand` | src/components/trawl/AlertsPanel.tsx:45-57 | with the distance in [threshold, threshold + 5], the list is unchanged |
| `Alerts.ClearsWhenSafe` | src/components/trawl/AlertsPanel.tsx:57-71 | above threshold + 5 with a proximity warning present, no alert of any type whose id contains `proximity` remains, the head is the `SafeNotice` (a success alert with id prefix `safe-`, its message and details), and the rest are the old non-proximity alerts in their old order |
| `Alerts.QuietWhenSafe` | src/components/trawl/AlertsPanel.tsx:57 | above threshold + 5 with no proximity warning, the list is unchanged |
| `Alerts.WarningFollowsHysteresis` | src/components/trawl/AlertsPanel.tsx:39-71 | after a step a proximity warning is present exactly when the distance is below the threshold, or at most threshold + 5 with a warning already present |
| `Alerts.AtMostOneWarning` | src/components/trawl/AlertsPanel.tsx:41-71 | if the list held at most one proximity warning before a step, it holds at most one after |
| `Alerts.RemoveById` | src/components/trawl/AlertsPanel.tsx:75-77 | no alert with the id remains, every remaining alert was in the list, every alert with another id is kept, and the list never grows |
| `Alerts.RemoveByIdExact` | src/components/trawl/AlertsPanel.tsx:75-77 | `removeAlert(id)` keeps no alert with that id and every alert with another id, and leaves a list without that id unchanged |
| `Alerts.RemoveByIdKeepsOrder` | src/components/trawl/AlertsPanel.tsx:75-77 | removal distributes over concatenation, so the remaining alerts keep their order |
| `Alerts.RemoveByIdIdempotent` | src/components/trawl/AlertsPanel.tsx:75-77 | removing the same id twice is the same as removing it once |
| `Alerts.RemoveByIdNarrows` | src/components/trawl/AlertsPanel.tsx:75-77 | removal never increases the number of proximity warnings |
| `Alerts.AlertVariant` | src/components/trawl/AlertsPanel.tsx:79-86 | warning shows the warning badge, error the destructive one, success the success one, and info (the `default` branch) the secondary one, each in both directions |
| `Alerts.AlertVariantDistinct` | src/components/trawl/AlertsPanel.tsx:79-86 | the badge mapping (warning, destructive, success, secondary) gives each alert type its own badge |
| `Alerts.AlertsPanel.constructor` | src/components/trawl/AlertsPanel.tsx:36 | the panel starts with the initial alerts |
| `Alerts.AlertsPanel.OnSeabedDistance` | src/components/trawl/AlertsPanel.tsx:39-73 | one effect run replaces the list by `ProximityStep`, keeps "at most one proximity warning", and leaves a warning present exactly as the hysteresis says |
| `Alerts.AlertsPanel.RemoveAlert` | src/components/trawl/AlertsPanel.tsx:75-77 | removal replaces the list by `RemoveById` and never adds a proximity warning |
| `Winch.Gate` | src/components/trawl/WinchControl.tsx:20-23 | the gate forwards nothing exactly in maintenance, and otherwise only the command given, at most once |
| `Winch.React` | src/components/trawl/WinchControl.tsx:20-28 | only a toggle flips the mode; in maintenance nothing is forwarded; outside it exactly one command is forwarded: the pressed one, or `stop` for a toggle |
| `Winch.Run` | src/components/trawl/WinchControl.tsx:20-28 | presses alone never change the mode; in maintenance they forward nothing; outside it they forward exactly the pressed commands, in order |
| `Winch.Follow` | src/components/TrawlDashboard.tsx:111-113 | after a batch of commands the dashboard's status is that of the last command, or unchanged if there were none |
| `Winch.PressForwardsUnlessMaintenance` | src/components/trawl/WinchControl.tsx:20-23 | a button press keeps the mode; outside maintenance it forwards the command once and unchanged; in maintenance it forwards nothing |
| `Winch.ToggleForwardsStopOnEntry` | src/components/trawl/WinchControl.tsx:25-28 | a toggle flips the mode; entering maintenance forwards exactly one `stop`; leaving it forwards nothing |
| `Winch.ToggleTwice` | src/components/trawl/WinchControl.tsx:25-28 | two toggles restore the mode and forward exactly `[stop]`, from either mode |
| `Winch.ModeFollowsToggles` | src/components/trawl/WinchControl.tsx:25-28 | after any inputs the mode is the start mode flipped once per toggle |
| `Winch.MaintenanceForwardsNothing` | src/components/trawl/WinchControl.tsx:20-21 | any number of button presses in maintenance forwards nothing and leaves maintenance on |
| `Winch.ForwardsAtMostOnePerInput` | src/components/trawl/WinchControl.tsx:20-28 | no input forwards more than one command |
| `Winch.FollowAppend` | src/components/TrawlDashboard.tsx:111-113 | the dashboard's status after two batches of commands is that after the second batch, starting from the status after the first |
| `Winch.MaintenanceKeepsWinchIdle` | src/components/trawl/WinchControl.tsx:20-28 | with the dashboard driven only by this panel, whenever the panel is in maintenance the dashboard's winch is idle |
| `Winch.WinchControl.constructor` | src/components/trawl/WinchControl.tsx:18 | maintenance mode starts off, with nothing forwarded |
| `Winch.WinchControl.HandleOperation` | src/components/trawl/WinchControl.tsx:20-23 | in maintenance nothing is forwarded; otherwise the command is forwarded once, unchanged |
| `Winch.WinchControl.ToggleMaintenance` | src/components/trawl/WinchControl.tsx:25-28 | the mode flips, and a `stop` is forwarded only when maintenance was off |
| `Winch.WinchControl.Handle` | src/components/trawl/WinchControl.tsx:20-28 | each input extends the forwarded log and sets the mode exactly as `React` says |

## Left out

- Rendering: the SVG scene, charts, icons, badges, toasts, sliders and their
  styling are presentation only. The sliders appear only as the value ranges
  they allow.
- Floating point: depths are exact reals. Rounding of `Math.random() * 6 - 3`
  and of the depth arithmetic is not modelled. The sensor spacing
  (`Math.sqrt`), the net curve, the random seabed bumps and the coastal path
  generator are left out for the same reason.
- Randomness and clocks: each `Math.random()` draw is a parameter in [0, 1),
  `Date.now()` is a parameter, and the formatted time string of a sample is an
  opaque string. The 20 random seed samples of the mount effect are a
  parameter of `SeedHistory`.
- Timers and React scheduling: `setInterval`/`clearInterval` lifecycles,
  effect dependency arrays and render batching are not modelled. One method
  call is one tick or one effect run. The alert effect's running only when
  the distance or threshold changes is the caller's concern.
- Alert display text: the `Current: <d>m` details line is kept as the distance
  it reports (`CurrentDistance(d)`), and JavaScript's number formatting is not
  modelled. `formatTime` and the alert icons are presentation.
- `Telemetry.NextBoat`: the offset is a `nat`. JavaScript's truncating `%`
  would differ from Dafny's only for a negative offset, which the boat
  counter never reaches.
- `Alerts.AlertsPanel.OnSeabedDistance`: the two `setAlerts` calls of the
  safe branch are applied together, as one update; React applies them in
  order to the same list, so the result is the same.
- The winch panel's `status` and `speed` props are display only.
- Servers: `trawl-websocket-server/server.js` and `mqtt_subscriber.js` are
  network I/O over the `ws` and `mqtt` libraries and only echo and log.
- `cn` in `src/lib/utils.ts` wraps `clsx` and `tailwind-merge`; it is not part of this model.

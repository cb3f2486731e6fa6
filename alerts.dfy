/** The alerts panel: a list of alerts, newest first, kept in step with the
    seabed clearance by a hysteresis rule. Below the threshold a single
    proximity warning is raised; within five metres above it nothing changes;
    further away every proximity alert is purged and a "safe" notice raised. */
module Alerts {
  import opened Text

  datatype Option<T> = None | Some(value: T)

  datatype AlertType = Warning | Error | Info | Success

  /** The optional details line: free text, or the `Current: <d>m` line the
      panel writes itself. */
  datatype Detail = Note(text: string) | CurrentDistance(metres: real)

  /** An alert; `timestamp` is a `Date`, in milliseconds since the epoch. */
  datatype Alert = Alert(id: string, kind: AlertType, message: string, timestamp: int,
                         details: Option<Detail>)

  /** The badge variants an alert type is shown with. */
  datatype Variant = WarningBadge | Destructive | SuccessBadge | Secondary

  const ProximityTag := "proximity"
  const ProximityPrefix := "proximity-"
  const SafePrefix := "safe-"
  const ProximityMessage := "Seabed distance below threshold"
  const SafeMessage := "Safe distance from seabed"

  /** Metres above the threshold the clearance must exceed before the panel
      reports safety again. */
  const HysteresisBand: real := 5.0

  /** `Array.prototype.filter`: the elements that pass `keep`, in order. */
  function Filter<T>(xs: seq<T>, keep: T -> bool): (r: seq<T>)
    ensures |r| <= |xs|
    ensures forall i :: 0 <= i < |r| ==> r[i] in xs && keep(r[i])
    ensures forall i :: 0 <= i < |xs| && keep(xs[i]) ==> xs[i] in r
  {
    if |xs| == 0 then [] else (if keep(xs[0]) then [xs[0]] else []) + Filter(xs[1..], keep)
  }

  /** Filtering distributes over concatenation, so it never reorders. */
  lemma {:induction false} FilterAppend<T>(xs: seq<T>, ys: seq<T>, keep: T -> bool)
    ensures Filter(xs + ys, keep) == Filter(xs, keep) + Filter(ys, keep)
  {
    if |xs| > 0 {
      assert (xs + ys)[1..] == xs[1..] + ys;
      FilterAppend(xs[1..], ys, keep);
    } else {
      assert xs + ys == ys;
    }
  }

  lemma {:induction false} FilterIdempotent<T>(xs: seq<T>, keep: T -> bool)
    ensures Filter(Filter(xs, keep), keep) == Filter(xs, keep)
  {
    if |xs| > 0 {
      FilterIdempotent(xs[1..], keep);
      var head := if keep(xs[0]) then [xs[0]] else [];
      FilterAppend(head, Filter(xs[1..], keep), keep);
    }
  }

  /** Filtering keeps a list whose every element passes. */
  lemma {:induction false} FilterKeepsAll<T>(xs: seq<T>, keep: T -> bool)
    requires forall x :: x in xs ==> keep(x)
    ensures Filter(xs, keep) == xs
  {
    if |xs| > 0 {
      FilterKeepsAll(xs[1..], keep);
    }
  }

  /** A list with no passing element filters to nothing. */
  lemma FilterDropsAll<T>(xs: seq<T>, keep: T -> bool)
    requires forall x :: x in xs ==> !keep(x)
    ensures Filter(xs, keep) == []
  {
  }

  /** Something passes the filter exactly when some element passes `keep`. */
  lemma {:induction false} FilterNonEmpty<T>(xs: seq<T>, keep: T -> bool)
    ensures |Filter(xs, keep)| > 0 <==> exists i :: 0 <= i < |xs| && keep(xs[i])
  {
    if |xs| > 0 && !keep(xs[0]) {
      FilterNonEmpty(xs[1..], keep);
      if exists i :: 0 <= i < |xs| && keep(xs[i]) {
        var i :| 0 <= i < |xs| && keep(xs[i]);
        assert xs[1..][i - 1] == xs[i];
      }
    }
  }

  /** Filtering first by `p` never lets more elements through `q`. */
  lemma {:induction false} FilterNarrows<T>(xs: seq<T>, p: T -> bool, q: T -> bool)
    ensures |Filter(Filter(xs, p), q)| <= |Filter(xs, q)|
  {
    if |xs| > 0 {
      FilterNarrows(xs[1..], p, q);
      var head := if p(xs[0]) then [xs[0]] else [];
      FilterAppend(head, Filter(xs[1..], p), q);
    }
  }

  predicate IsProximityWarning(a: Alert)
  {
    Contains(a.id, ProximityTag) && a.kind == Warning
  }

  predicate NotProximity(a: Alert)
  {
    !Contains(a.id, ProximityTag)
  }

  /** `alerts.some(a => a.id.includes('proximity') && a.type === 'warning')` */
  predicate HasProximityWarning(alerts: seq<Alert>)
    ensures HasProximityWarning(alerts) <==> WarningCount(alerts) > 0
  {
    FilterNonEmpty(alerts, IsProximityWarning);
    exists a :: a in alerts && IsProximityWarning(a)
  }

  function WarningCount(alerts: seq<Alert>): nat
  {
    |Filter(alerts, IsProximityWarning)|
  }

  function ProximityId(now: nat): string { ProximityPrefix + Decimal(now) }

  function SafeId(now: nat): string { SafePrefix + Decimal(now) }

  /** The warning raised when the net gets too close: its id is built from
      `Date.now()` (`now`), its timestamp is `new Date()` (`at`). */
  function ProximityWarning(now: nat, at: int, distance: real): (r: Alert)
    ensures IsProximityWarning(r)
    ensures |r.id| > |ProximityPrefix| && r.id[..|ProximityPrefix|] == ProximityPrefix
    ensures r.timestamp == at && r.details == Some(CurrentDistance(distance))
  {
    ProximityIdTagged(now);
    Alert(ProximityId(now), Warning, ProximityMessage, at, Some(CurrentDistance(distance)))
  }

  /** The notice raised when the net is clear again; a purge never removes it. */
  function SafeNotice(now: nat, at: int, distance: real): (r: Alert)
    ensures r.kind == Success && NotProximity(r) && !IsProximityWarning(r)
    ensures |r.id| > |SafePrefix| && r.id[..|SafePrefix|] == SafePrefix
    ensures r.timestamp == at && r.details == Some(CurrentDistance(distance))
  {
    SafeIdUntagged(now);
    Alert(SafeId(now), Success, SafeMessage, at, Some(CurrentDistance(distance)))
  }

  lemma ProximityIdTagged(now: nat)
    ensures Contains(ProximityId(now), ProximityTag)
  {
    assert ProximityId(now) == ProximityTag + ("-" + Decimal(now));
    ContainsPrefix(ProximityTag, "-" + Decimal(now));
  }

  /** A "safe" id never mentions proximity, so the purge never removes it. */
  lemma SafeIdUntagged(now: nat)
    ensures !Contains(SafeId(now), ProximityTag)
  {
    var s := SafeId(now);
    forall i | 0 <= i < |s|
      ensures s[i] != 'p'
    {
      if i >= |SafePrefix| {
        assert s[i] == Decimal(now)[i - |SafePrefix|];
      }
    }
    AbsentInitial(s, ProximityTag, 'p');
  }

  /** The effect that runs when the seabed distance or threshold changes.
      `now` stands for `Date.now()` and `at` for `new Date()`. */
  function ProximityStep(alerts: seq<Alert>, distance: real, threshold: real, now: nat, at: int): (r: seq<Alert>)
    ensures threshold <= distance <= threshold + HysteresisBand ==> r == alerts
    ensures distance < threshold ==> HasProximityWarning(r)
    ensures distance > threshold + HysteresisBand ==> !HasProximityWarning(r)
    ensures r == alerts || (|r| >= 1 && r[0].timestamp == at)
  {
    var warned := HasProximityWarning(alerts);
    if distance < threshold && !warned then
      [ProximityWarning(now, at, distance)] + alerts
    else if distance > threshold + HysteresisBand && warned then
      [SafeNotice(now, at, distance)] + Filter(alerts, NotProximity)
    else
      alerts
  }

  /** Too close and not yet warned: exactly one proximity warning is put in
      front and the rest of the list is untouched. */
  lemma WarnsWhenTooClose(alerts: seq<Alert>, distance: real, threshold: real, now: nat, at: int)
    requires distance < threshold && !HasProximityWarning(alerts)
    ensures var r := ProximityStep(alerts, distance, threshold, now, at);
      && |r| == |alerts| + 1 && r[1..] == alerts
      && r[0] == ProximityWarning(now, at, distance)
      && IsProximityWarning(r[0]) && r[0].id[..|ProximityPrefix|] == ProximityPrefix
      && WarningCount(r) == 1
  {
    var r := ProximityStep(alerts, distance, threshold, now, at);
    ProximityIdTagged(now);
    FilterAppend([r[0]], alerts, IsProximityWarning);
    FilterDropsAll(alerts, IsProximityWarning);
  }

  /** Too close but already warned: nothing changes. */
  lemma QuietWhileWarned(alerts: seq<Alert>, distance: real, threshold: real, now: nat, at: int)
    requires distance < threshold && HasProximityWarning(alerts)
    ensures ProximityStep(alerts, distance, threshold, now, at) == alerts
  {
  }

  /** Inside the dead band nothing changes, whatever the list holds. */
  lemma QuietInDeadBand(alerts: seq<Alert>, distance: real, threshold: real, now: nat, at: int)
    requires threshold <= distance <= threshold + HysteresisBand
    ensures ProximityStep(alerts, distance, threshold, now, at) == alerts
  {
  }

  /** Safe again after a warning: every alert whose id mentions proximity is
      gone, whatever its type; a "safe" success notice leads; the rest keep
      their order. */
  lemma ClearsWhenSafe(alerts: seq<Alert>, distance: real, threshold: real, now: nat, at: int)
    requires distance > threshold + HysteresisBand && HasProximityWarning(alerts)
    ensures var r := ProximityStep(alerts, distance, threshold, now, at);
      && |r| >= 1 && r[0] == SafeNotice(now, at, distance)
      && r[0].kind == Success && r[0].id[..|SafePrefix|] == SafePrefix
      && r[1..] == Filter(alerts, NotProximity)
      && (forall a :: a in r ==> !Contains(a.id, ProximityTag))
      && !HasProximityWarning(r) && WarningCount(r) == 0
  {
    var r := ProximityStep(alerts, distance, threshold, now, at);
    SafeIdUntagged(now);
    assert forall a :: a in r ==> a == r[0] || a in r[1..];
    FilterDropsAll(r, IsProximityWarning);
  }

  /** Safe and not warned: nothing changes. */
  lemma QuietWhenSafe(alerts: seq<Alert>, distance: real, threshold: real, now: nat, at: int)
    requires distance > threshold + HysteresisBand && !HasProximityWarning(alerts)
    ensures ProximityStep(alerts, distance, threshold, now, at) == alerts
  {
  }

  /** The hysteresis: after a step a proximity warning is shown exactly when
      the clearance is below the threshold, or inside the band and one was
      already shown. */
  lemma WarningFollowsHysteresis(alerts: seq<Alert>, distance: real, threshold: real, now: nat, at: int)
    ensures HasProximityWarning(ProximityStep(alerts, distance, threshold, now, at)) <==>
      distance < threshold || (distance <= threshold + HysteresisBand && HasProximityWarning(alerts))
  {
    var r := ProximityStep(alerts, distance, threshold, now, at);
    if distance < threshold && !HasProximityWarning(alerts) {
      WarnsWhenTooClose(alerts, distance, threshold, now, at);
      assert r[0] in r;
    } else if distance > threshold + HysteresisBand && HasProximityWarning(alerts) {
      ClearsWhenSafe(alerts, distance, threshold, now, at);
    }
  }

  /** A step never leaves more than one proximity warning behind if there was
      at most one before. */
  lemma AtMostOneWarning(alerts: seq<Alert>, distance: real, threshold: real, now: nat, at: int)
    requires WarningCount(alerts) <= 1
    ensures WarningCount(ProximityStep(alerts, distance, threshold, now, at)) <= 1
  {
    if distance < threshold && !HasProximityWarning(alerts) {
      WarnsWhenTooClose(alerts, distance, threshold, now, at);
    } else if distance > threshold + HysteresisBand && HasProximityWarning(alerts) {
      ClearsWhenSafe(alerts, distance, threshold, now, at);
    }
  }

  function IdIsNot(id: string): Alert -> bool
  {
    (a: Alert) => a.id != id
  }

  /** `removeAlert(id)`: `prev.filter(alert => alert.id !== id)`. */
  function RemoveById(alerts: seq<Alert>, id: string): (r: seq<Alert>)
    ensures |r| <= |alerts|
    ensures forall i :: 0 <= i < |r| ==> r[i].id != id && r[i] in alerts
    ensures forall i :: 0 <= i < |alerts| && alerts[i].id != id ==> alerts[i] in r
  {
    Filter(alerts, IdIsNot(id))
  }

  /** Removing by id drops exactly the alerts with that id, keeps every other
      one, and leaves a list without that id as it was. */
  lemma RemoveByIdExact(alerts: seq<Alert>, id: string)
    ensures var r := RemoveById(alerts, id);
      && (forall a :: a in r ==> a.id != id && a in alerts)
      && (forall a :: a in alerts && a.id != id ==> a in r)
      && ((forall a :: a in alerts ==> a.id != id) ==> r == alerts)
  {
    if forall a :: a in alerts ==> a.id != id {
      FilterKeepsAll(alerts, IdIsNot(id));
    }
  }

  /** Removal keeps order: it distributes over any split of the list. */
  lemma RemoveByIdKeepsOrder(xs: seq<Alert>, ys: seq<Alert>, id: string)
    ensures RemoveById(xs + ys, id) == RemoveById(xs, id) + RemoveById(ys, id)
  {
    FilterAppend(xs, ys, IdIsNot(id));
  }

  lemma RemoveByIdIdempotent(alerts: seq<Alert>, id: string)
    ensures RemoveById(RemoveById(alerts, id), id) == RemoveById(alerts, id)
  {
    FilterIdempotent(alerts, IdIsNot(id));
  }

  /** Removing an alert never adds a proximity warning. */
  lemma RemoveByIdNarrows(alerts: seq<Alert>, id: string)
    ensures WarningCount(RemoveById(alerts, id)) <= WarningCount(alerts)
  {
    FilterNarrows(alerts, IdIsNot(id), IsProximityWarning);
  }

  /** `getAlertVariant`: the badge for each alert type. */
  function AlertVariant(kind: AlertType): (v: Variant)
    ensures v == WarningBadge <==> kind == Warning
    ensures v == Destructive <==> kind == Error
    ensures v == SuccessBadge <==> kind == Success
    ensures v == Secondary <==> kind == Info
  {
    match kind
    case Warning => WarningBadge
    case Error => Destructive
    case Success => SuccessBadge
    case Info => Secondary
  }

  /** Every alert type has its own badge. */
  lemma AlertVariantDistinct(k1: AlertType, k2: AlertType)
    ensures AlertVariant(k1) == AlertVariant(k2) <==> k1 == k2
  {
  }

  class AlertsPanel {
    var alerts: seq<Alert>

    constructor (initialAlerts: seq<Alert>)
      ensures alerts == initialAlerts
    {
      alerts := initialAlerts;
    }

    /** One run of the effect for a new seabed distance or threshold. */
    method OnSeabedDistance(distance: real, threshold: real, now: nat, at: int)
      modifies this
      ensures alerts == ProximityStep(old(alerts), distance, threshold, now, at)
      ensures old(WarningCount(alerts)) <= 1 ==> WarningCount(alerts) <= 1
      ensures HasProximityWarning(alerts) <==>
        distance < threshold || (distance <= threshold + HysteresisBand && old(HasProximityWarning(alerts)))
    {
      if old(WarningCount(alerts)) <= 1 {
        AtMostOneWarning(alerts, distance, threshold, now, at);
      }
      WarningFollowsHysteresis(alerts, distance, threshold, now, at);
      alerts := ProximityStep(alerts, distance, threshold, now, at);
    }

    method RemoveAlert(id: string)
      modifies this
      ensures alerts == RemoveById(old(alerts), id)
      ensures WarningCount(alerts) <= old(WarningCount(alerts))
    {
      RemoveByIdNarrows(alerts, id);
      alerts := RemoveById(alerts, id);
    }
  }
}

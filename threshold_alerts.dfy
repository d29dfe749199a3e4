/** The threshold alert panel of a device: every new metric row is checked
    against the device's alert thresholds, each threshold exceeded adds an
    alert at the top of the list and shows a toast, and alerts can be
    cleared one id at a time. The toast library is a parameter: with
    `react-hot-toast`, which the panel imports, the toast of a threshold
    that is not `high` throws and ends the check. */
module ThresholdAlerts {
  import opened Common
  import opened Toasts

  /** A row of `alert_thresholds`. The operator column is stored but the
      check does not use it. */
  datatype Threshold = Threshold(metric: string, operator: string, value: real, alertType: string, severity: string)

  datatype Alert = Alert(id: string, deviceId: string, alertType: string, message: string, severity: string, createdAt: string)

  /** A metric row: metric name to value; a missing name reads `undefined`. */
  type Metrics = map<string, real>

  /** `metrics[threshold.metric] > threshold.value`; `undefined > x` is
      false. */
  predicate Fires(t: Threshold, metrics: Metrics)
  {
    t.metric in metrics && metrics[t.metric] > t.value
  }

  /** Only metric and value decide whether a threshold fires: the operator
      column is ignored, and a value equal to the threshold never fires. */
  lemma FiresIgnoresOperator(t: Threshold, metrics: Metrics, op: string)
    ensures Fires(t.(operator := op), metrics) <==> Fires(t, metrics)
    ensures t.metric in metrics && metrics[t.metric] == t.value ==> !Fires(t, metrics)
  {
  }

  /** The alert created for a firing threshold. `id` is a fresh UUID, `now`
      the creation time and `show` the number formatting of the value. */
  function NewAlert(t: Threshold, metrics: Metrics, deviceId: string, id: string, now: string,
                    show: real -> string): (a: Alert)
    requires t.metric in metrics
    ensures a.id == id && a.deviceId == deviceId && a.createdAt == now
    ensures a.alertType == t.alertType && a.severity == t.severity
    ensures a.message == t.metric + " exceeded threshold: " + show(metrics[t.metric]) + "%"
  {
    Alert(id, deviceId, t.alertType, t.metric + " exceeded threshold: " + show(metrics[t.metric]) + "%",
          t.severity, now)
  }

  /** The alerts created by the first `n` thresholds, in visiting order;
      threshold `i` uses `ids[i]`. */
  function FiredAlerts(ths: seq<Threshold>, n: nat, metrics: Metrics, deviceId: string, ids: seq<string>,
                       now: string, show: real -> string): (fired: seq<Alert>)
    requires n <= |ths| <= |ids|
    ensures |fired| == FiringCount(ths, n, metrics)
    ensures forall j :: 0 <= j < |fired| ==> fired[j].deviceId == deviceId && fired[j].createdAt == now
  {
    if n == 0 then []
    else
      FiredAlerts(ths, n - 1, metrics, deviceId, ids, now, show)
      + (if Fires(ths[n - 1], metrics) then [NewAlert(ths[n - 1], metrics, deviceId, ids[n - 1], now, show)] else [])
  }

  /** How many of the first `n` thresholds fire. */
  function FiringCount(ths: seq<Threshold>, n: nat, metrics: Metrics): (count: nat)
    requires n <= |ths|
    ensures count <= n
  {
    if n == 0 then 0
    else FiringCount(ths, n - 1, metrics) + (if Fires(ths[n - 1], metrics) then 1 else 0)
  }

  /** A threshold at position `i` that fires contributes its own alert, with
      its type and severity and the id drawn for it. */
  lemma {:induction false} FiredAlertOf(ths: seq<Threshold>, n: nat, i: nat, metrics: Metrics, deviceId: string,
                                        ids: seq<string>, now: string, show: real -> string)
    requires i < n <= |ths| <= |ids| && Fires(ths[i], metrics)
    ensures NewAlert(ths[i], metrics, deviceId, ids[i], now, show) in FiredAlerts(ths, n, metrics, deviceId, ids, now, show)
  {
    if i < n - 1 {
      FiredAlertOf(ths, n - 1, i, metrics, deviceId, ids, now, show);
    }
  }

  /** No threshold fires on an empty metric row. */
  lemma {:induction false} NothingFiresWithoutMetrics(ths: seq<Threshold>, n: nat, deviceId: string, ids: seq<string>,
                                                      now: string, show: real -> string)
    requires n <= |ths| <= |ids|
    ensures FiredAlerts(ths, n, map[], deviceId, ids, now, show) == []
  {
    if n > 0 {
      NothingFiresWithoutMetrics(ths, n - 1, deviceId, ids, now, show);
    }
  }

  /** One more threshold: a firing one puts its alert at the head of the
      newest-first list and its toast at the end; another changes
      nothing. */
  lemma FiredStep(ths: seq<Threshold>, i: nat, metrics: Metrics, deviceId: string, ids: seq<string>, now: string,
                  show: real -> string, older: seq<Alert>, shown: seq<Toast>)
    requires i < |ths| <= |ids|
    ensures var before := FiredAlerts(ths, i, metrics, deviceId, ids, now, show);
      var after := FiredAlerts(ths, i + 1, metrics, deviceId, ids, now, show);
      && (Fires(ths[i], metrics) ==>
            var a := NewAlert(ths[i], metrics, deviceId, ids[i], now, show);
            Reverse(after) + older == [a] + (Reverse(before) + older) &&
            shown + Map(after, AlertToast) == shown + Map(before, AlertToast) + [AlertToast(a)])
      && (!Fires(ths[i], metrics) ==> after == before)
  {
    var before := FiredAlerts(ths, i, metrics, deviceId, ids, now, show);
    if Fires(ths[i], metrics) {
      var a := NewAlert(ths[i], metrics, deviceId, ids[i], now, show);
      assert FiredAlerts(ths, i + 1, metrics, deviceId, ids, now, show) == before + [a];
      ReverseAppend(before, a);
      MapConcat(before, [a], AlertToast);
      assert [a] + Reverse(before) + older == [a] + (Reverse(before) + older);
      assert shown + (Map(before, AlertToast) + [AlertToast(a)]) == shown + Map(before, AlertToast) + [AlertToast(a)];
    } else {
      assert before + [] == before;
    }
  }

  /** A visit that throws: the threshold fires and the library has no
      method for the toast its severity asks for. */
  predicate Throws(lib: ToastLibrary, t: Threshold, metrics: Metrics)
  {
    Fires(t, metrics) && !lib.Has(SeverityKind(t.severity))
  }

  /** The position of the first threshold from `from` on whose visit
      throws, or `|ths|` when none does. */
  function FirstThrow(lib: ToastLibrary, ths: seq<Threshold>, metrics: Metrics, from: nat): (k: nat)
    requires from <= |ths|
    ensures from <= k <= |ths|
    ensures forall j :: from <= j < k ==> !Throws(lib, ths[j], metrics)
    ensures k < |ths| ==> Throws(lib, ths[k], metrics)
    decreases |ths| - from
  {
    if from == |ths| then from
    else if Throws(lib, ths[from], metrics) then from
    else FirstThrow(lib, ths, metrics, from + 1)
  }

  /** With a library that has every kind of toast no visit throws, so every
      threshold is visited. */
  lemma {:induction false} FullToastsNeverThrow(ths: seq<Threshold>, metrics: Metrics, from: nat)
    requires from <= |ths|
    ensures FirstThrow(FullToasts, ths, metrics, from) == |ths|
    decreases |ths| - from
  {
    if from < |ths| {
      FullToastsNeverThrow(ths, metrics, from + 1);
    }
  }

  /** With `react-hot-toast` the check ends at the first firing threshold
      whose severity is not `high`: every threshold before it either does
      not fire or is `high`. */
  lemma HotToastStopsAtFirstNonHigh(ths: seq<Threshold>, metrics: Metrics)
    ensures var k := FirstThrow(HotToast, ths, metrics, 0);
      && (forall j :: 0 <= j < k ==> !Fires(ths[j], metrics) || ths[j].severity == "high")
      && (k < |ths| ==> Fires(ths[k], metrics) && ths[k].severity != "high")
  {
    var k := FirstThrow(HotToast, ths, metrics, 0);
    forall j | 0 <= j < k
      ensures !Fires(ths[j], metrics) || ths[j].severity == "high"
    {
      SeverityToastShown(ths[j].severity);
    }
    if k < |ths| {
      SeverityToastShown(ths[k].severity);
    }
  }

  /** A `medium` threshold on cpu before a `high` one on memory, both
      exceeded: with `react-hot-toast` the cpu alert is added, no toast is
      shown and the memory threshold is never visited; with every kind of
      toast both alerts are added and both toasts shown. */
  lemma MediumThresholdEndsCheck()
    ensures var ths := [Threshold("cpu", ">", 80.0, "warning", "medium"),
                        Threshold("memory", ">", 80.0, "warning", "high")];
      var metrics := map["cpu" := 90.0, "memory" := 95.0];
      && FirstThrow(HotToast, ths, metrics, 0) == 0
      && FiringCount(ths, 1, metrics) == 1 && FiringCount(ths, 0, metrics) == 0
      && FirstThrow(FullToasts, ths, metrics, 0) == 2 && FiringCount(ths, 2, metrics) == 2
  {
    var ths := [Threshold("cpu", ">", 80.0, "warning", "medium"),
                Threshold("memory", ">", 80.0, "warning", "high")];
    var metrics := map["cpu" := 90.0, "memory" := 95.0];
    assert Throws(HotToast, ths[0], metrics);
    FullToastsNeverThrow(ths, metrics, 0);
  }

  /** The toast `showAlertNotification` shows for an alert. */
  function AlertToast(a: Alert): Toast
  {
    SeverityToast(a.alertType, a.message, a.severity)
  }

  function IsNot(id: string): Alert -> bool
  {
    (a: Alert) => a.id != id
  }

  /** `clearAlert`: the alerts whose id differs from `id`, in their order. */
  function WithoutAlert(alerts: seq<Alert>, id: string): (r: seq<Alert>)
    ensures forall i :: 0 <= i < |r| ==> r[i].id != id && r[i] in alerts
    ensures forall i :: 0 <= i < |alerts| && alerts[i].id != id ==> alerts[i] in r
  {
    Filter(alerts, IsNot(id))
  }

  /** Clearing works element by element, so it keeps the relative order of
      the remaining alerts, and clearing the same id twice changes nothing
      more. */
  lemma WithoutAlertKeepsOrder(a: seq<Alert>, b: seq<Alert>, id: string)
    ensures WithoutAlert(a + b, id) == WithoutAlert(a, id) + WithoutAlert(b, id)
    ensures WithoutAlert(WithoutAlert(a, id), id) == WithoutAlert(a, id)
  {
    FilterConcat(a, b, IsNot(id));
    FilterIdempotent(a, IsNot(id));
  }

  class ThresholdAlertsPanel {
    const deviceId: string
    var alerts: seq<Alert>
    var toasts: seq<Toast>

    constructor (deviceId: string)
      ensures this.deviceId == deviceId && alerts == [] && toasts == []
    {
      this.deviceId := deviceId;
      alerts := [];
      toasts := [];
    }

    /** `checkThresholds`: visits the thresholds in order (none while they
        are not loaded); each firing one prepends its alert and shows its
        toast. The visit of the first threshold whose toast the library
        cannot show adds its alert and then throws, so that threshold's toast
        and every later threshold are skipped. With a library that has every
        kind of toast the list grows by the number of firing thresholds,
        newest first (`FullToastsNeverThrow`). */
    method CheckThresholds(lib: ToastLibrary, thresholds: Option<seq<Threshold>>, metrics: Metrics,
                           ids: seq<string>, now: string, show: real -> string) returns (threw: bool)
      requires thresholds.Some? ==> |thresholds.value| <= |ids|
      modifies this
      ensures thresholds.None? ==> alerts == old(alerts) && toasts == old(toasts) && !threw
      ensures thresholds.Some? ==>
        var ths := thresholds.value;
        var k := FirstThrow(lib, ths, metrics, 0);
        && threw == (k < |ths|)
        && alerts == Reverse(FiredAlerts(ths, if k < |ths| then k + 1 else k, metrics, deviceId, ids, now, show))
                     + old(alerts)
        && toasts == old(toasts) + Map(FiredAlerts(ths, k, metrics, deviceId, ids, now, show), AlertToast)
    {
      threw := false;
      if thresholds.None? {
        return;
      }
      var ths := thresholds.value;
      ghost var k := FirstThrow(lib, ths, metrics, 0);
      var i := 0;
      while i < |ths|
        invariant 0 <= i <= k
        invariant alerts == Reverse(FiredAlerts(ths, i, metrics, deviceId, ids, now, show)) + old(alerts)
        invariant toasts == old(toasts) + Map(FiredAlerts(ths, i, metrics, deviceId, ids, now, show), AlertToast)
        invariant !threw
      {
        threw := CheckOne(lib, ths, i, metrics, ids, now, show, old(alerts), old(toasts));
        if threw {
          assert i == k;
          return;
        }
        i := i + 1;
      }
    }

    /** Threshold `i` of the loop, after the first `i` were checked: its
        alert, if it fires, extends the list, and its toast the toasts unless
        the visit throws. */
    method CheckOne(lib: ToastLibrary, ths: seq<Threshold>, i: nat, metrics: Metrics, ids: seq<string>, now: string,
                    show: real -> string, ghost alerts0: seq<Alert>, ghost toasts0: seq<Toast>) returns (threw: bool)
      requires i < |ths| <= |ids|
      requires alerts == Reverse(FiredAlerts(ths, i, metrics, deviceId, ids, now, show)) + alerts0
      requires toasts == toasts0 + Map(FiredAlerts(ths, i, metrics, deviceId, ids, now, show), AlertToast)
      modifies this
      ensures threw == Throws(lib, ths[i], metrics)
      ensures alerts == Reverse(FiredAlerts(ths, i + 1, metrics, deviceId, ids, now, show)) + alerts0
      ensures toasts == toasts0 + Map(FiredAlerts(ths, if threw then i else i + 1, metrics, deviceId, ids, now, show),
                                      AlertToast)
    {
      FiredStep(ths, i, metrics, deviceId, ids, now, show, alerts0, toasts0);
      threw := Visit(lib, ths[i], metrics, ids[i], now, show);
    }

    /** One threshold of the loop: when it fires, its alert goes to the
        head of the list and its toast is shown, unless the library has no
        method for that toast, in which case the visit throws. */
    method Visit(lib: ToastLibrary, t: Threshold, metrics: Metrics, id: string, now: string, show: real -> string)
      returns (threw: bool)
      modifies this
      ensures threw == Throws(lib, t, metrics)
      ensures Fires(t, metrics) ==>
        var alert := NewAlert(t, metrics, deviceId, id, now, show);
        alerts == [alert] + old(alerts) && toasts == old(toasts) + (if threw then [] else [AlertToast(alert)])
      ensures !Fires(t, metrics) ==> alerts == old(alerts) && toasts == old(toasts)
    {
      threw := false;
      if Fires(t, metrics) {
        var alert := NewAlert(t, metrics, deviceId, id, now, show);
        alerts := [alert] + alerts;
        var toast := AlertToast(alert);
        if lib.Has(toast.kind) {
          toasts := toasts + [toast];
        } else {
          threw := true;
        }
      }
    }

    /** `clearAlert`. */
    method ClearAlert(id: string)
      modifies this
      ensures alerts == WithoutAlert(old(alerts), id) && toasts == old(toasts)
    {
      alerts := WithoutAlert(alerts, id);
    }
  }
}

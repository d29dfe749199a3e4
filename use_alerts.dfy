/** The alert list of a device as the `useAlerts` hook keeps it: loaded from
    the `alerts` table, extended by realtime inserts (each with its toast
    when the toast library can show it), and changed by mark-as-read and
    clear only once the database accepted the change. */
module UseAlerts {
  import opened Common
  import opened Toasts

  /** A row of `alerts`. */
  datatype DeviceAlert = DeviceAlert(id: string, deviceId: string, alertType: string, message: string,
                                     severity: string, read: bool, createdAt: string)

  const FetchLimit: nat := 50

  /** The alerts with `read` set on those whose id is `id`; every other
      alert, and every other field, is kept. */
  function MarkRead(alerts: seq<DeviceAlert>, id: string): (r: seq<DeviceAlert>)
    ensures |r| == |alerts|
    ensures forall i :: 0 <= i < |alerts| && alerts[i].id == id ==> r[i] == alerts[i].(read := true)
    ensures forall i :: 0 <= i < |alerts| && alerts[i].id != id ==> r[i] == alerts[i]
  {
    seq(|alerts|, i requires 0 <= i < |alerts| => if alerts[i].id == id then alerts[i].(read := true) else alerts[i])
  }

  /** Marking the same id twice has no further effect, and marking never
      clears a read flag. */
  lemma MarkReadIdempotent(alerts: seq<DeviceAlert>, id: string)
    ensures MarkRead(MarkRead(alerts, id), id) == MarkRead(alerts, id)
    ensures forall i :: 0 <= i < |alerts| && alerts[i].read ==> MarkRead(alerts, id)[i].read
  {
  }

  function IsNot(id: string): DeviceAlert -> bool
  {
    (a: DeviceAlert) => a.id != id
  }

  /** The alerts whose id differs from `id`, in their order. */
  function WithoutAlert(alerts: seq<DeviceAlert>, id: string): (r: seq<DeviceAlert>)
    ensures forall i :: 0 <= i < |r| ==> r[i].id != id && r[i] in alerts
    ensures forall i :: 0 <= i < |alerts| && alerts[i].id != id ==> alerts[i] in r
  {
    Filter(alerts, IsNot(id))
  }

  lemma WithoutAlertKeepsOrder(a: seq<DeviceAlert>, b: seq<DeviceAlert>, id: string)
    ensures WithoutAlert(a + b, id) == WithoutAlert(a, id) + WithoutAlert(b, id)
  {
    FilterConcat(a, b, IsNot(id));
  }

  function AlertToast(a: DeviceAlert): Toast
  {
    SeverityToast(a.alertType, a.message, a.severity)
  }

  class AlertsHook {
    const deviceId: string
    var alerts: seq<DeviceAlert>
    var loading: bool
    var toasts: seq<Toast>

    constructor (deviceId: string)
      ensures this.deviceId == deviceId && alerts == [] && loading && toasts == []
    {
      this.deviceId := deviceId;
      alerts := [];
      loading := true;
      toasts := [];
    }

    /** A realtime INSERT: the new alert goes first and the rest of the
        list is unchanged; then its toast is shown, unless the library has
        no method for it, in which case the handler throws. With
        `react-hot-toast` only a `high` alert gets its toast
        (`Toasts.SeverityToastShown`). */
    method OnInsert(lib: ToastLibrary, a: DeviceAlert) returns (threw: bool)
      modifies this
      ensures alerts == [a] + old(alerts) && alerts[1..] == old(alerts)
      ensures threw <==> !lib.Has(SeverityKind(a.severity))
      ensures toasts == old(toasts) + (if threw then [] else [SeverityToast(a.alertType, a.message, a.severity)])
      ensures loading == old(loading)
    {
      alerts := [a] + alerts;
      var toast := AlertToast(a);
      threw := !lib.Has(toast.kind);
      if !threw {
        toasts := toasts + [toast];
      }
    }

    /** `fetchAlerts`: `rows` are the device's alerts newest first as the
        database orders them, `data` null gives the empty list, an error
        keeps the list; loading ends either way. */
    method FetchAlerts(response: Result<Option<seq<DeviceAlert>>>)
      modifies this
      ensures response.Err? ==> alerts == old(alerts)
      ensures response.Ok? && response.value.None? ==> alerts == []
      ensures response.Ok? && response.value.Some? ==> alerts == Take(response.value.value, FetchLimit)
      ensures response.Ok? ==> |alerts| <= FetchLimit
      ensures !loading && toasts == old(toasts)
    {
      if response.Ok? {
        alerts := if response.value.None? then [] else Take(response.value.value, FetchLimit);
      }
      loading := false;
    }

    /** `markAsRead`: the local list changes only after the update
        succeeded. */
    method MarkAsRead(id: string, updateError: Option<string>)
      modifies this
      ensures updateError.Some? ==> alerts == old(alerts)
      ensures updateError.None? ==> alerts == MarkRead(old(alerts), id)
      ensures loading == old(loading) && toasts == old(toasts)
    {
      if updateError.None? {
        alerts := MarkRead(alerts, id);
      }
    }

    /** `clearAlert`: the local list changes only after the delete
        succeeded. */
    method ClearAlert(id: string, deleteError: Option<string>)
      modifies this
      ensures deleteError.Some? ==> alerts == old(alerts)
      ensures deleteError.None? ==> alerts == WithoutAlert(old(alerts), id)
      ensures loading == old(loading) && toasts == old(toasts)
    {
      if deleteError.None? {
        alerts := WithoutAlert(alerts, id);
      }
    }
  }
}

/** The live metrics window of a device as the `useDeviceMetrics` hook keeps
    it: loaded once newest first, then extended by every realtime INSERT and
    cut to the last 60 rows. */
module DeviceMetrics {
  import opened Common

  const WindowSize: nat := 60

  /** A row of `device_metrics`; `timestamp` stands for the row's time. */
  datatype MetricRow = MetricRow(id: string, deviceId: string, timestamp: int, cpu: real, memory: real)

  /** `s.slice(-n)`: the last `n` elements, or all of them when there are
      fewer. */
  function KeepLast<T>(s: seq<T>, n: nat): (r: seq<T>)
    ensures |r| == if |s| <= n then |s| else n
    ensures r == s[|s| - |r|..]
  {
    if |s| <= n then s else s[|s| - n..]
  }

  /** The window after an INSERT. */
  function Appended(window: seq<MetricRow>, row: MetricRow): (r: seq<MetricRow>)
  {
    KeepLast(window + [row], WindowSize)
  }

  /** After an INSERT the window holds at most 60 rows and ends with the new
      row. Below 60 rows nothing is dropped; at 60 exactly the oldest row is
      dropped. */
  lemma AppendedWindow(window: seq<MetricRow>, row: MetricRow)
    requires |window| <= WindowSize
    ensures |Appended(window, row)| <= WindowSize
    ensures Appended(window, row)[|Appended(window, row)| - 1] == row
    ensures |window| < WindowSize ==> Appended(window, row) == window + [row]
    ensures |window| == WindowSize ==> Appended(window, row) == window[1..] + [row]
  {
    if |window| == WindowSize {
      assert (window + [row])[1..] == window[1..] + [row];
    }
  }

  /** Rows sorted newest first, as the initial fetch returns them. */
  predicate NewestFirst(rows: seq<MetricRow>)
  {
    forall i, j :: 0 <= i < j < |rows| ==> rows[i].timestamp > rows[j].timestamp
  }

  predicate OldestFirst(rows: seq<MetricRow>)
  {
    forall i, j :: 0 <= i < j < |rows| ==> rows[i].timestamp < rows[j].timestamp
  }

  /** The fetched rows are newest first while INSERTs land at the end: once a
      newer row arrives after a fetch of two or more rows, the window is in
      neither time order. */
  lemma WindowNotTimeOrdered(fetched: seq<MetricRow>, row: MetricRow)
    requires 2 <= |fetched| < WindowSize && NewestFirst(fetched)
    requires forall i :: 0 <= i < |fetched| ==> fetched[i].timestamp < row.timestamp
    ensures !NewestFirst(Appended(fetched, row)) && !OldestFirst(Appended(fetched, row))
  {
    var w := Appended(fetched, row);
    AppendedWindow(fetched, row);
    assert w[0] == fetched[0] && w[1] == fetched[1] && w[|w| - 1] == row;
  }

  class MetricsHook {
    const deviceId: string
    var metrics: seq<MetricRow>
    var loading: bool

    ghost predicate Valid()
      reads this
    {
      |metrics| <= WindowSize
    }

    constructor (deviceId: string)
      ensures Valid() && this.deviceId == deviceId && metrics == [] && loading
    {
      this.deviceId := deviceId;
      metrics := [];
      loading := true;
    }

    /** A realtime INSERT. */
    method OnInsert(row: MetricRow)
      requires Valid()
      modifies this
      ensures Valid() && metrics == Appended(old(metrics), row) && loading == old(loading)
    {
      metrics := KeepLast(metrics + [row], WindowSize);
    }

    /** `fetchMetrics`: `rows` are the device's rows newest first as the
        database orders them; `data` null gives the empty window, an error
        keeps the window; loading ends either way. */
    method FetchMetrics(response: Result<Option<seq<MetricRow>>>)
      requires Valid()
      modifies this
      ensures Valid() && !loading
      ensures response.Err? ==> metrics == old(metrics)
      ensures response.Ok? && response.value.None? ==> metrics == []
      ensures response.Ok? && response.value.Some? ==> metrics == Take(response.value.value, WindowSize)
    {
      if response.Ok? {
        metrics := if response.value.None? then [] else Take(response.value.value, WindowSize);
      }
      loading := false;
    }
  }
}

/** The activity log of a device: the action filter and case-insensitive
    message search over its `machine_logs` rows, and the CSV export of the
    rows that pass. */
module ActivityLog {
  import opened Common
  import opened Toasts

  /** A row of `machine_logs`. `message` is `details.message`, absent when
      the details carry none; `detailsJson` is `JSON.stringify(details)`. */
  datatype LogEntry = LogEntry(action: string, message: Option<string>, detailsJson: string, createdAt: string)

  /** Whether a log passes the search: an empty query passes everything;
      otherwise the lower-cased message must contain the lower-cased query,
      and a log without a message never passes. */
  predicate MatchesSearch(log: LogEntry, query: string)
  {
    query == "" || (log.message.Some? && Contains(Lower(log.message.value), Lower(query)))
  }

  function Keeps(filter: string, query: string): LogEntry -> bool
  {
    (log: LogEntry) => (filter == "all" || log.action == filter) && MatchesSearch(log, query)
  }

  /** `filteredLogs`: a log is kept iff its action matches the filter (or the
      filter is `'all'`) and it matches the search; order is kept. */
  function FilteredLogs(logs: seq<LogEntry>, filter: string, query: string): (r: seq<LogEntry>)
    ensures forall i :: 0 <= i < |r| ==> r[i] in logs
    ensures forall i :: 0 <= i < |r| ==> (filter == "all" || r[i].action == filter) && MatchesSearch(r[i], query)
    ensures forall i :: 0 <= i < |logs| ==>
              (filter == "all" || logs[i].action == filter) && MatchesSearch(logs[i], query) ==> logs[i] in r
  {
    Filter(logs, Keeps(filter, query))
  }

  lemma FilteredLogsKeepsOrder(a: seq<LogEntry>, b: seq<LogEntry>, filter: string, query: string)
    ensures FilteredLogs(a + b, filter, query) == FilteredLogs(a, filter, query) + FilteredLogs(b, filter, query)
  {
    FilterConcat(a, b, Keeps(filter, query));
  }

  /** With filter `'all'` and an empty search every log is shown. */
  lemma NoFilterShowsAll(logs: seq<LogEntry>)
    ensures FilteredLogs(logs, "all", "") == logs
  {
    FilterKeepsAll(logs, Keeps("all", ""));
  }

  /** A log without a message disappears as soon as something is typed in
      the search box. */
  lemma MessagelessHiddenBySearch(logs: seq<LogEntry>, filter: string, query: string)
    requires query != ""
    ensures forall i :: 0 <= i < |FilteredLogs(logs, filter, query)| ==> FilteredLogs(logs, filter, query)[i].message.Some?
  {
  }

  /** The search ignores the case of ASCII letters in the query. */
  lemma SearchIgnoresQueryCase(log: LogEntry, query: string)
    ensures MatchesSearch(log, Lower(query)) <==> MatchesSearch(log, query)
  {
    LowerIdempotent(query);
    if query != "" {
      assert Lower(query) != "";
    } else {
      assert Lower(query) == "";
    }
  }

  lemma LowerIdempotent(s: string)
    ensures Lower(Lower(s)) == Lower(s)
  {
  }

  const CsvHeader: string := "Timestamp,Action,Details"
  const LogsExported: string := "Logs exported successfully"

  /** The three unquoted fields of a log's CSV line; `formatDate` is the
      `yyyy-MM-dd HH:mm:ss` formatting of `created_at`. */
  function LogFields(log: LogEntry, formatDate: string -> string): (fields: seq<string>)
    ensures |fields| == 3
  {
    [formatDate(log.createdAt), log.action, log.detailsJson]
  }

  function LogLines(logs: seq<LogEntry>, formatDate: string -> string): (lines: seq<string>)
    ensures |lines| == |logs|
    ensures forall i :: 0 <= i < |logs| ==> lines[i] == Join(LogFields(logs[i], formatDate), ",")
  {
    if logs == [] then [] else [Join(LogFields(logs[0], formatDate), ",")] + LogLines(logs[1..], formatDate)
  }

  /** `handleExport`: nothing when the logs are not loaded or none passes the
      filter; otherwise the header and one line per shown log, downloaded
      as `device-logs-<device id>.csv`, and a success toast. */
  function ExportCsv(deviceId: string, logs: Option<seq<LogEntry>>, filter: string, query: string,
                     formatDate: string -> string): (r: Option<Export>)
    ensures r.None? <==> logs.None? || FilteredLogs(logs.value, filter, query) == []
    ensures r.Some? ==>
      r.value.fileName == "device-logs-" + deviceId + ".csv" && r.value.toast == Toast(Success, LogsExported)
  {
    if logs.None? then None
    else
      var shown := FilteredLogs(logs.value, filter, query);
      if shown == [] then None
      else
        Some(Export("device-logs-" + deviceId + ".csv", Join([CsvHeader] + LogLines(shown, formatDate), "\n"),
                    Toast(Success, LogsExported)))
  }

  /** An exported report read back line by line is the header followed by
      one line per shown log, in order, provided no field holds a line
      break. */
  lemma ExportCsvLines(deviceId: string, logs: seq<LogEntry>, filter: string, query: string,
                       formatDate: string -> string)
    requires forall i :: 0 <= i < |logs| ==>
      '\n' !in logs[i].action && '\n' !in logs[i].detailsJson && '\n' !in formatDate(logs[i].createdAt)
    requires FilteredLogs(logs, filter, query) != []
    ensures var shown := FilteredLogs(logs, filter, query);
      var r := ExportCsv(deviceId, Some(logs), filter, query, formatDate);
      r.Some? && Split(r.value.csv, '\n') == [CsvHeader] + LogLines(shown, formatDate)
  {
    var shown := FilteredLogs(logs, filter, query);
    var lines := [CsvHeader] + LogLines(shown, formatDate);
    forall i | 0 <= i < |lines| ensures '\n' !in lines[i] {
      if i > 0 {
        var log := shown[i - 1];
        assert log in logs;
        JoinFree(LogFields(log, formatDate), ",", '\n');
      }
    }
    SplitJoin(lines, '\n');
  }
}

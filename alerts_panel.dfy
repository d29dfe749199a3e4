/** The alerts panel: the filter over the hook's alert list, the icon chosen
    for each alert, and the CSV report of the filtered alerts. */
module AlertsPanel {
  import opened Common
  import opened Toasts
  import opened UseAlerts

  /** `'all'`, `'unread'`, or one of the severities. */
  type PanelFilter = string

  function Keeps(filter: PanelFilter): DeviceAlert -> bool
  {
    (a: DeviceAlert) => if filter == "all" then true else if filter == "unread" then !a.read else a.severity == filter
  }

  /** `filteredAlerts`: everything for `'all'`, exactly the unread alerts for
      `'unread'`, exactly the alerts of that severity otherwise; the order is
      kept. */
  function FilteredAlerts(alerts: seq<DeviceAlert>, filter: PanelFilter): (r: seq<DeviceAlert>)
    ensures filter == "all" ==> r == alerts
    ensures filter == "unread" ==> forall i :: 0 <= i < |r| ==> !r[i].read && r[i] in alerts
    ensures filter == "unread" ==> forall i :: 0 <= i < |alerts| && !alerts[i].read ==> alerts[i] in r
    ensures filter != "all" && filter != "unread" ==>
      forall i :: 0 <= i < |r| ==> r[i].severity == filter && r[i] in alerts
    ensures filter != "all" && filter != "unread" ==>
      forall i :: 0 <= i < |alerts| && alerts[i].severity == filter ==> alerts[i] in r
  {
    if filter == "all" then
      FilterKeepsAll(alerts, Keeps(filter));
      Filter(alerts, Keeps(filter))
    else Filter(alerts, Keeps(filter))
  }

  lemma FilteredAlertsKeepsOrder(a: seq<DeviceAlert>, b: seq<DeviceAlert>, filter: PanelFilter)
    ensures FilteredAlerts(a + b, filter) == FilteredAlerts(a, filter) + FilteredAlerts(b, filter)
  {
    FilterConcat(a, b, Keeps(filter));
  }

  /** Once an alert is marked read it no longer appears under `'unread'`. */
  lemma MarkedAlertLeavesUnread(alerts: seq<DeviceAlert>, id: string)
    ensures forall i :: 0 <= i < |FilteredAlerts(MarkRead(alerts, id), "unread")| ==>
      FilteredAlerts(MarkRead(alerts, id), "unread")[i].id != id
  {
  }

  /** With severities drawn from low, medium and high, the three severity
      filters split the list: together they hold every alert once. */
  lemma {:induction false} SeverityFiltersPartition(alerts: seq<DeviceAlert>)
    requires forall i :: 0 <= i < |alerts| ==> alerts[i].severity in ["low", "medium", "high"]
    ensures |FilteredAlerts(alerts, "low")| + |FilteredAlerts(alerts, "medium")| + |FilteredAlerts(alerts, "high")|
         == |alerts|
  {
    if alerts != [] {
      SeverityFiltersPartition(alerts[1..]);
    }
  }

  datatype Icon = RedWarning | YellowWarning | BlueInfo | GreyBell

  /** `getAlertIcon`. */
  function AlertIcon(alertType: string, severity: string): (icon: Icon)
    ensures icon == RedWarning <==> alertType == "warning" && severity == "high"
    ensures icon == YellowWarning <==> alertType == "warning" && severity != "high"
    ensures icon == BlueInfo <==> alertType == "info"
    ensures icon == GreyBell <==> alertType != "warning" && alertType != "info"
  {
    match alertType
    case "warning" => if severity == "high" then RedWarning else YellowWarning
    case "info" => BlueInfo
    case _ => GreyBell
  }

  const CsvHeader: string := "Tipo,Mensagem,Severidade,Data,Status"
  const ReportExported: string := "Relatório exportado com sucesso!"

  function StatusText(read: bool): (s: string)
  {
    if read then "Lido" else "Não lido"
  }

  /** The five fields of an alert's CSV line. The message is put between
      double quotes without escaping; `formatDate` is the locale date
      formatting of `created_at`. */
  function AlertFields(a: DeviceAlert, formatDate: string -> string): (fields: seq<string>)
    ensures |fields| == 5
    ensures fields[0] == a.alertType && fields[2] == a.severity && fields[3] == formatDate(a.createdAt)
    ensures fields[1] == "\"" + a.message + "\""
    ensures fields[4] == (if a.read then "Lido" else "Não lido")
  {
    [a.alertType, "\"" + a.message + "\"", a.severity, formatDate(a.createdAt), StatusText(a.read)]
  }

  function AlertLines(alerts: seq<DeviceAlert>, formatDate: string -> string): (lines: seq<string>)
    ensures |lines| == |alerts|
    ensures forall i :: 0 <= i < |alerts| ==> lines[i] == Join(AlertFields(alerts[i], formatDate), ",")
  {
    if alerts == [] then []
    else [Join(AlertFields(alerts[0], formatDate), ",")] + AlertLines(alerts[1..], formatDate)
  }

  /** The text of the exported report. */
  function AlertsCsv(alerts: seq<DeviceAlert>, formatDate: string -> string): string
  {
    Join([CsvHeader] + AlertLines(alerts, formatDate), "\n")
  }

  /** The date part of an ISO timestamp: everything before its first `T`. */
  function IsoDate(iso: string): (date: string)
    ensures 'T' !in date
    ensures 'T' !in iso ==> date == iso
  {
    if 'T' !in iso then
      SplitNoSepPrefix(iso, 'T', |iso|);
      Split(iso, 'T')[0]
    else Split(iso, 'T')[0]
  }

  /** For a timestamp `YYYY-MM-DDTHH:MM:SS.sssZ` as `toISOString` writes
      it, the date part is the first ten characters. */
  lemma IsoDateOf(iso: string)
    requires |iso| > 10 && iso[10] == 'T'
    requires forall i :: 0 <= i < 10 ==> iso[i] != 'T'
    ensures IsoDate(iso) == iso[..10]
  {
    SplitNoSepPrefix(iso, 'T', 10);
  }

  /** `handleExportAlerts`: the report of the shown alerts, downloaded as
      `alertas_<UTC date>.csv` where `nowIso` is the current time in ISO
      form, followed by a success toast. Unlike the device log export it
      has no guard: with no alert shown the report is the header alone. */
  function ExportAlerts(shown: seq<DeviceAlert>, formatDate: string -> string, nowIso: string): (r: Export)
    ensures r.fileName == "alertas_" + IsoDate(nowIso) + ".csv"
    ensures r.csv == AlertsCsv(shown, formatDate)
    ensures r.toast == Toast(Success, ReportExported)
    ensures shown == [] ==> r.csv == CsvHeader
  {
    Export("alertas_" + IsoDate(nowIso) + ".csv", AlertsCsv(shown, formatDate), Toast(Success, ReportExported))
  }

  /** No field of the alert contains `c`. */
  predicate FieldsFree(a: DeviceAlert, formatDate: string -> string, c: char)
  {
    c !in a.alertType && c !in a.message && c !in a.severity && c !in formatDate(a.createdAt)
  }

  /** Reading the report back line by line gives the header followed by one
      line per alert in order, as long as no field holds a line break. */
  lemma AlertsCsvLines(alerts: seq<DeviceAlert>, formatDate: string -> string)
    requires forall i :: 0 <= i < |alerts| ==> FieldsFree(alerts[i], formatDate, '\n')
    ensures Split(AlertsCsv(alerts, formatDate), '\n') == [CsvHeader] + AlertLines(alerts, formatDate)
    ensures |Split(AlertsCsv(alerts, formatDate), '\n')| == |alerts| + 1
  {
    var lines := [CsvHeader] + AlertLines(alerts, formatDate);
    HeaderFree();
    forall i | 0 <= i < |lines| ensures '\n' !in lines[i] {
      if i > 0 {
        LineFree(alerts[i - 1], formatDate);
      }
    }
    SplitJoin(lines, '\n');
  }

  /** The header is one line. */
  lemma HeaderFree()
    ensures '\n' !in CsvHeader
  {
  }

  /** An alert whose fields hold no line break gives a one-line row. */
  lemma LineFree(a: DeviceAlert, formatDate: string -> string)
    requires FieldsFree(a, formatDate, '\n')
    ensures '\n' !in Join(AlertFields(a, formatDate), ",")
  {
    var fields := AlertFields(a, formatDate);
    assert '\n' !in StatusText(a.read);
    assert '\n' !in fields[1];
    JoinFree(fields, ",", '\n');
  }

  /** Splitting a line at commas gives its five fields back, as long as no
      field holds a comma; a comma inside a message breaks the columns,
      because quoting is not taken into account when the fields are joined. */
  lemma AlertLineFields(a: DeviceAlert, formatDate: string -> string)
    requires FieldsFree(a, formatDate, ',')
    ensures Split(Join(AlertFields(a, formatDate), ","), ',') == AlertFields(a, formatDate)
  {
    SplitJoin(AlertFields(a, formatDate), ',');
  }
}

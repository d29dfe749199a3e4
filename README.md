# Dashboard core in Dafny

A Dafny model of the logic inside a React/Supabase device-support dashboard.
The dashboard's files mostly render screens and call the database, storage,
auth and HTTP services. Between those calls sit small sequential decisions,
and this project models them:

- the automation rule engine and the rule form that feeds it;
- threshold alerts, the monitoring thresholds, and the alert and activity-log
  lists with their CSV exports;
- the list reducers in the hooks: realtime device events, the 60-row metrics
  window, the per-transfer status map and training progress;
- the zod validators, the support login decision chain, the machine-restart
  permission gate and the classification done by the `query` wrapper;
- the image checks and record building in the profile forms;
- the session, two-factor and chat state machines, and the paginated search;
- the deepseek role prompt and the parsing of AI completion text;
- the reality-distortion stability guard, the quantum theme provider and the
  quantum pattern processor.

Each call to an outside service is a parameter of the model: a `Result`
(success with data, or an error message) or a boolean that says whether the
call threw. Components and hooks that keep state are classes. Their fields
are the React state, and their methods are the handlers. Pure helpers are
functions, with lemmas about them. Numbers are `real`, strings are
`seq<char>`, and `toLowerCase`/`toUpperCase` act on ASCII letters only.
The toast library is a parameter too: `react-hot-toast` has `success` and
`error` methods but no `warning` or `info`, and calling a missing method
throws, which the alert handlers show.
Generic helpers shared by the modules (`Filter`, `Split`, `Join`, `Trim`,
`Clamp`, `Option`, `Result`) live in `common.dfy`.

## Model

| member | source | states |
|---|---|---|
| Common.ConnectionCode | src/hooks/useDevices.ts:85 | the connection code of a new device (the first dash-separated group of a UUID, upper-cased) never contains a dash |
| Common.CanonicalConnectionCode | src/hooks/useDevices.ts:85 | for a canonical v4 UUID the code is exactly its first eight hex digits, upper-cased |
| Common.ConnectionToken | src/hooks/useSessionManagement.ts:50 | a session token (a UUID with every dash removed, upper-cased) contains no dash |
| Common.CanonicalConnectionToken | src/hooks/useSession.ts:30 | for a canonical v4 UUID the token is 32 upper-case hex digits |
| Common.Trim | src/lib/ai-diagnostics.ts:106-107 | `trim()` gives the piece of the text between a blank prefix and a blank suffix, starting and ending with a non-space, so exactly the leading and trailing white space (the white space and line terminators of ECMAScript) is removed; it is empty iff the text is blank |
| SupabaseQuery.Query | src/lib/supabase.ts:33-57 | an error answer becomes a `DatabaseError` with its message and code; a null or falsy answer becomes "No data returned from query"; a thrown `DatabaseError` passes through; any other exception becomes "An unexpected database error occurred"; otherwise the data is returned |
| SupabaseQuery.QueryIdempotent | src/lib/supabase.ts:39-56 | running `query` inside another `query` callback gives the same outcome as running it once |
| SupabaseQuery.DataIsTruthy | src/lib/supabase.ts:46-50 | every value `query` returns is truthy |
| ProfileEditForm.CheckImage | src/components/ProfileEditForm.tsx:28-35 | a picture is accepted iff it is at most 5 MiB and JPEG or PNG; the size is checked first, so an oversized file of the wrong type is reported as too large |
| ProfileEditForm.ImageSizeBoundary | src/components/ProfileEditForm.tsx:28 | exactly 5242880 bytes is accepted and 5242881 is not |
| ProfileEditForm.RejectionToast | src/components/ProfileEditForm.tsx:29-33 | a rejected picture shows an error toast whose text names the size limit or the allowed types |
| ProfileEditForm.StorageNameExtension | src/components/ProfileEditForm.tsx:48-49 | a picture `base.ext` is stored as `<profile id>.ext` whatever dots `base` holds; a name without a dot is kept whole as the extension |
| ProfileEditForm.NullIfEmpty | src/components/ProfileEditForm.tsx:77-80 | `s \|\| null` is null exactly for the empty text and the text itself otherwise |
| ProfileEditForm.PictureUrl | src/components/ProfileEditForm.tsx:45-67 | with no new picture, or when the upload fails, the current picture is kept; otherwise the public URL of the stored name is saved |
| ProfileEditForm.FormRecord | src/components/ProfileEditForm.tsx:75-82 | the saved record carries the name and the provider flag as typed and null for each empty optional text |
| ProfileEditForm.UntouchedFormRoundTrip | src/components/ProfileEditForm.tsx:16-22 | saving a form nobody touched writes the profile back unchanged (a null name becomes empty) |
| ProfileEditForm.EditForm.constructor | src/components/ProfileEditForm.tsx:16-22 | the fields start from the profile, null texts as empty strings, and the preview shows the current picture |
| ProfileEditForm.EditForm.HandleImageSelect | src/components/ProfileEditForm.tsx:25-43 | an accepted file becomes the selection and its data URL the preview; a rejected one only adds its error toast; no file changes nothing |
| ProfileEditForm.EditForm.HandleSubmit | src/components/ProfileEditForm.tsx:69-91 | a failed upload is toasted and the old picture kept; a successful update writes the record under the profile's id, toasts success and calls `onSave`; a failed update toasts the error and saves nothing; the write is `updateProfile` in src/hooks/useProfile.ts, an upsert under the profile's id that writes nothing for an empty id while the form still reports success |
| ProfileCreationModal.Upsert | src/components/ProfileCreationModal.tsx:82-84 | the upsert replaces the row with the record's id and keeps every other row |
| ProfileCreationModal.RecreateOverwrites | src/components/ProfileCreationModal.tsx:72-84 | creating a profile twice leaves only the second record |
| ProfileCreationModal.CreationModal.constructor | src/components/ProfileCreationModal.tsx:13-19 | every field starts empty, the provider flag off and no picture |
| ProfileCreationModal.CreationModal.HandleImageSelect | src/components/ProfileCreationModal.tsx:22-40 | the edit form's checks: an accepted file becomes the selection and preview, a rejected one only toasts |
| ProfileCreationModal.CreationModal.HandleSubmit | src/components/ProfileCreationModal.tsx:42-94 | no picture or a failed upload leaves the picture null; success upserts the record under the user's id, toasts and closes the modal; an upsert error only toasts |
| ProfilePage.UserIdText | src/components/profile/ProfilePage.tsx:29 | the user id in the photo path, or the text `undefined` when nobody is signed in |
| ProfilePage.PhotoUploadAsWritten | src/components/profile/ProfilePage.tsx:18-47 | as written (the database client is not imported): a missing file does nothing, an oversized one gets the size toast, and every other one ends in the failure toast with nothing written |
| ProfilePage.PhotoUpload | src/components/profile/ProfilePage.tsx:18-47 | with the client in scope: only the size is checked; the photo is stored as `<user id>.<ext>` and its public URL saved exactly when the upload and the update succeed for a signed-in user; an upload or update error gives the failure toast |
| ProfilePage.PhotoNeverSavedAsWritten | src/components/profile/ProfilePage.tsx:31 | as written, a signed-in user's photo is never saved even when storage and database would succeed; the corrected upload saves it |
| ProfilePage.NoTypeCheck | src/components/profile/ProfilePage.tsx:22-25 | a small file of any type (a PDF) is uploaded by the page although the profile forms reject it |
| ProfilePage.SignedOutPhotoPath | src/components/profile/ProfilePage.tsx:28-29 | signed out, the photo path is `undefined.<ext>` |
| ProfilePage.ServiceLabel | src/components/profile/ProfilePage.tsx:231-234 | the three known service types get their labels, an empty or missing type `Não informado`, and any other type shows nothing |
| ProfilePage.ProfilePageView.constructor | src/components/profile/ProfilePage.tsx:10-15 | the edit fields start from the profile available at the first render (empty while loading), null texts as empty strings |
| ProfilePage.ProfilePageView.StartEditing | src/components/profile/ProfilePage.tsx:150 | `Editar Perfil` enters edit mode and writes nothing |
| ProfilePage.ProfilePageView.Cancel | src/components/profile/ProfilePage.tsx:136 | `Cancelar` leaves edit mode, writes nothing and keeps the typed values |
| ProfilePage.ProfilePageView.HandleSaveProfile | src/components/profile/ProfilePage.tsx:49-63 | the fields are sent as typed, empty strings included; success (or no user, when nothing is sent) leaves edit mode with the success toast; an error keeps edit mode and toasts |
| ProfilePage.ProfilePageView.HandlePhotoUpload | src/components/profile/ProfilePage.tsx:18-47 | the page's toasts and writes grow by exactly those of `PhotoUpload` |
| UseTraining.PercentBounds | src/hooks/useTraining.ts:46-47 | `(completed / total) * 100` lies in [0, 100], is 100 for all of them and grows with the completed count |
| UseTraining.Progress | src/hooks/useTraining.ts:40-48 | the progress is 0 with no materials and otherwise the completed share in percent, always within [0, 100] |
| UseTraining.ProgressExtremes | src/hooks/useTraining.ts:40-48 | every material completed gives 100 (0 for an empty list); none completed gives 0 |
| UseTraining.MarkCompleted | src/hooks/useTraining.ts:60-62 | marking keeps the length, completes every material with the id and leaves the others as they were |
| UseTraining.MarkCompletedIdempotent | src/hooks/useTraining.ts:60-62 | marking the same id twice is marking it once |
| UseTraining.MarkCompletedCount | src/hooks/useTraining.ts:60-62 | marking never lowers the completed count and raises it when a matching material was not completed |
| UseTraining.MarkCompletedProgress | src/hooks/useTraining.ts:59-65 | the progress never drops when a material is marked |
| UseTraining.TrainingHook.constructor | src/hooks/useTraining.ts:13-15 | no materials, loading, progress 0 |
| UseTraining.TrainingHook.FetchTrainingMaterials | src/hooks/useTraining.ts:21-38 | a successful fetch replaces the list (null by the empty list) and recomputes the progress from it; an error keeps both; loading ends either way |
| UseTraining.TrainingHook.MarkAsCompleted | src/hooks/useTraining.ts:50-69 | only after a successful update is the material marked and the progress recomputed from the marked list; an error changes nothing |
| TrainingCatalog.ProgressMap | src/components/training/TrainingCatalog.tsx:36-39 | every fetched row's material has an entry, and each entry is stored under its own material id |
| TrainingCatalog.LastRowWins | src/components/training/TrainingCatalog.tsx:36-39 | the row kept for a material is its last row: no later row is for the same material |
| TrainingCatalog.StatusOf | src/components/training/TrainingCatalog.tsx:91-96 | `progress[id]?.status` is defined exactly for materials with a row, and is that row's status |
| TrainingCatalog.FilteredMaterials | src/components/training/TrainingCatalog.tsx:90-99 | filtering never adds materials |
| TrainingCatalog.FilterStatuses | src/components/training/TrainingCatalog.tsx:90-99 | `all` shows every material; `completed` and `in_progress` show a material iff its row has that status, so a material without a row shows only under `all` |
| TrainingCatalog.FilterStable | src/components/training/TrainingCatalog.tsx:90-99 | filtering the filtered list again changes nothing |
| TrainingCatalog.ActionFor | src/components/training/TrainingCatalog.tsx:152-153 | a completed material shows no button, one in progress the complete button, any other the start button |
| TrainingCatalog.StartRecord | src/components/training/TrainingCatalog.tsx:53-58 | the start upsert is `in_progress` for the user and material, with a start time and no completion or percentage |
| TrainingCatalog.CompleteRecord | src/components/training/TrainingCatalog.tsx:73-79 | the completion upsert is `completed` at 100% with a completion time and no start time |
| TrainingCatalog.ActionsAdvance | src/components/training/TrainingCatalog.tsx:199-218 | a row appended last decides the card: `in_progress` offers the complete button, `completed` none, any other status the start button |
| TrainingCatalog.FetchToasts | src/components/training/TrainingCatalog.tsx:41-44 | one error toast exactly when either query fails |
| TrainingCatalog.Catalog.constructor | src/components/training/TrainingCatalog.tsx:10-13 | no materials, no progress, loading, filter `all` |
| TrainingCatalog.Catalog.SetFilter | src/components/training/TrainingCatalog.tsx:117 | the filter changes and nothing else does |
| TrainingCatalog.Catalog.FetchMaterials | src/components/training/TrainingCatalog.tsx:19-47 | the materials and the progress map change only when both queries succeed (null as empty); otherwise one error toast; loading ends either way |
| TrainingCatalog.Catalog.StartMaterial | src/components/training/TrainingCatalog.tsx:49-67 | on success the start record is upserted, the catalogue fetched again (a failed refetch keeps materials and progress and toasts its error, a successful one replaces them by the fetched list and the progress map of its rows) and the start toasted; an upsert error only toasts and changes nothing else |
| TrainingCatalog.Catalog.CompleteMaterial | src/components/training/TrainingCatalog.tsx:69-88 | on success the completion record is upserted, the catalogue fetched again (a failed refetch keeps materials and progress and toasts its error, a successful one replaces them by the fetched list and the progress map of its rows) and the completion toasted; an upsert error only toasts and changes nothing else |
| Automation.Get | src/lib/automationEngine.ts:70 | reading a parameter gives its value, or `undefined` for a missing key |
| Automation.CheckCondition | src/lib/automationEngine.ts:43-64 | a missing metric never holds; each of the five operators is the plain comparison it names; any other operator never holds |
| Automation.AtThreshold | src/lib/automationEngine.ts:50-60 | at the threshold itself `>=`, `<=` and `==` hold and `>` and `<` do not |
| Automation.ComplementaryOperators | src/lib/automationEngine.ts:47-60 | for a present metric `>` is the negation of `<=` and `<` of `>=`; for a missing metric every operator is false |
| Automation.LogRow | src/lib/automationEngine.ts:127-139 | the audit row carries the device, the action `automation` and the action's type and parameters |
| Automation.Dispatch | src/lib/automationEngine.ts:68-125 | restart and scale invoke `device-ops` with the service or the parameters; notify inserts a notification for the owner, or nothing when no machine row exists; an unknown kind sends nothing; no dispatch writes an audit row |
| Automation.Execute | src/lib/automationEngine.ts:66-85 | a handler's effects are followed by the audit row; a throwing handler (only a known kind has one) writes nothing and aborts |
| Automation.Fired | src/lib/automationEngine.ts:36-40 | the rules whose condition holds, in stored order, each satisfying its condition |
| Automation.FiredIsFilter | src/lib/automationEngine.ts:36-40 | the rules evaluated from any position on are exactly the stored rules from there whose condition holds, in order and with their repetitions |
| Automation.Logs | src/lib/automationEngine.ts:131 | the audit rows among the effects are never more than the effects |
| Automation.LogRows | src/lib/automationEngine.ts:127-139 | one audit row per fired rule, built from that rule's action |
| Automation.LogsConcat | src/lib/automationEngine.ts:36-40 | the audit rows of consecutive effects are those of each part, in order |
| Automation.DispatchLogsNothing | src/lib/automationEngine.ts:68-78 | the handlers themselves write no audit row |
| Automation.ExecuteLogs | src/lib/automationEngine.ts:80 | a non-throwing execution writes exactly one audit row, for its action |
| Automation.OneLogPerFiredRule | src/lib/automationEngine.ts:35-41 | when no handler throws the evaluation completes and writes exactly one audit row per rule whose condition holds, in stored order |
| Automation.AbortsIffHandlerThrows | src/lib/automationEngine.ts:81-84 | the evaluation rethrows exactly when some rule whose condition holds has a handler that throws |
| Automation.StopsAtFirstThrow | src/lib/automationEngine.ts:36-40 | at the first throwing rule the evaluation ends with the effects of the rules before it; no later rule runs |
| Automation.OnlyConditionAndActionMatter | src/lib/automationEngine.ts:3-15 | only each rule's condition and action matter: ids, names, device and the enabled flag do not change the outcome |
| Automation.DisabledRuleStillRuns | src/lib/automationEngine.ts:36-40 | a disabled rule whose condition holds is still dispatched and logged |
| Automation.UnknownKindOnlyLogged | src/lib/automationEngine.ts:68-80 | an action of unknown kind dispatches nothing and is still logged |
| Automation.RulesOfType | src/lib/automationEngine.ts:22-25 | the loaded rules are exactly the rows of the requested device type, in table order; a null type never matches |
| Automation.RulesOfTypeConcat | src/lib/automationEngine.ts:22-25 | the rules loaded from a table split in two are those loaded from each part, in order, and a single row is loaded exactly when its type matches: together, the table's matching rows in table order with their repetitions |
| Automation.AutomationEngine.constructor | src/lib/automationEngine.ts:18 | the engine starts with no rules |
| Automation.AutomationEngine.LoadRules | src/lib/automationEngine.ts:20-33 | a query error is rethrown and the rules kept; otherwise the rules become the matching rows (none for null data) |
| Automation.AutomationEngine.EvaluateMetrics | src/lib/automationEngine.ts:35-41 | the loop's effects and abort flag are exactly those of the evaluation function over the loaded rules |
| AutomationRuleForm.OrString | src/components/automation/AutomationRuleForm.tsx:28-35 | `a \|\| b` on a string is `b` exactly when `a` is empty |
| AutomationRuleForm.OrNumber | src/components/automation/AutomationRuleForm.tsx:32 | `a \|\| b` on a number is `b` exactly when `a` is 0 |
| AutomationRuleForm.InitialForm | src/components/automation/AutomationRuleForm.tsx:27-38 | without a rule the form starts as an unnamed `cpu > 80` notify rule with no parameters |
| AutomationRuleForm.InitialFormKeepsTruthyFields | src/components/automation/AutomationRuleForm.tsx:27-38 | a rule with non-empty texts and a non-zero threshold is loaded unchanged |
| AutomationRuleForm.ZeroThresholdBecomesEighty | src/components/automation/AutomationRuleForm.tsx:32 | a stored threshold of 0 is shown (and saved back) as 80; an empty metric becomes `cpu` |
| AutomationRuleForm.DefaultRuleFiresAboveEighty | src/components/automation/AutomationRuleForm.tsx:29-33 | the rule a fresh form saves fires exactly when the CPU metric is present and above 80 |
| AutomationRuleForm.SetName | src/components/automation/AutomationRuleForm.tsx:96 | the name changes and nothing else does |
| AutomationRuleForm.SetMetric | src/components/automation/AutomationRuleForm.tsx:110-113 | the metric changes; operator, value, name and action are kept |
| AutomationRuleForm.SetOperator | src/components/automation/AutomationRuleForm.tsx:127-130 | the operator changes; metric, value, name and action are kept |
| AutomationRuleForm.SetValue | src/components/automation/AutomationRuleForm.tsx:146-149 | the threshold changes; metric, operator, name and action are kept |
| AutomationRuleForm.SetActionKind | src/components/automation/AutomationRuleForm.tsx:164-167 | choosing an action type sets it with empty parameters, keeping name and condition |
| AutomationRuleForm.SetParam | src/components/automation/AutomationRuleForm.tsx:184-232 | the service, CPU and memory inputs set one parameter and keep every other parameter and field |
| AutomationRuleForm.KindChangeDiscardsParams | src/components/automation/AutomationRuleForm.tsx:164-167 | switching the action type discards every parameter typed before |
| AutomationRuleForm.ParamEditsCommute | src/components/automation/AutomationRuleForm.tsx:184-232 | editing two different parameters gives the same form in either order |
| AutomationRuleForm.BuildRuleData | src/components/automation/AutomationRuleForm.tsx:44-50 | the saved record is enabled, keyed by the device id, with the form's name, condition and action |
| AutomationRuleForm.SubmitWrite | src/components/automation/AutomationRuleForm.tsx:52-59 | an existing rule is updated by its id, otherwise the record is inserted |
| AutomationRuleForm.SubmitToast | src/components/automation/AutomationRuleForm.tsx:61-71 | an error toasts "Failed to save rule"; otherwise "Rule updated successfully" or "Rule created successfully" |
| AutomationRuleForm.ApplyUpdate | src/components/automation/AutomationRuleForm.tsx:53-56 | an update replaces the written columns and keeps id and device type |
| AutomationRuleForm.InsertedRow | src/components/automation/AutomationRuleForm.tsx:57-59 | an inserted rule has a null device type |
| AutomationRuleForm.SaveReEnables | src/components/automation/AutomationRuleForm.tsx:49 | saving a disabled rule re-enables it |
| AutomationRuleForm.CreatedRuleNeverLoaded | src/lib/automationEngine.ts:22-25 | a rule created by the form is never among the rules the engine loads for any device type |
| AutomationRuleForm.ChoicesMatchEngine | src/components/automation/AutomationRuleForm.tsx:133-172 | the operator and action menus offer exactly the operators and kinds the engine handles |
| Toasts.SeverityToast | src/hooks/useAlerts.ts:25-35 | the toast text is `TYPE: message`; severity `high` asks for an error toast, `medium` for a warning, any other for an information toast |
| Toasts.SeverityToastShown | src/hooks/useAlerts.ts:26-35 | with `react-hot-toast`, which has `error` and `success` but no `warning` or `info`, only a `high` severity toast can be shown; a library with all four shows every severity |
| UseAlerts.MarkRead | src/hooks/useAlerts.ts:70-74 | the alerts with the given id become read, every other alert and every other field is kept, and the length is unchanged |
| UseAlerts.MarkReadIdempotent | src/hooks/useAlerts.ts:70-74 | marking an id twice is the same as marking it once, and a read alert stays read |
| UseAlerts.WithoutAlert | src/hooks/useAlerts.ts:88 | the result holds no alert with the given id and keeps every other alert |
| UseAlerts.WithoutAlertKeepsOrder | src/hooks/useAlerts.ts:88 | clearing distributes over concatenation, so the remaining alerts keep their order |
| UseAlerts.AlertsHook.constructor | src/hooks/useAlerts.ts:6-8 | the hook starts with no alerts, loading and no toasts |
| UseAlerts.AlertsHook.OnInsert | src/hooks/useAlerts.ts:20-35 | a realtime insert puts the new alert first and keeps the rest; its severity toast is shown when the library has that method, and otherwise the handler throws after the alert was added, showing no toast |
| UseAlerts.AlertsHook.FetchAlerts | src/hooks/useAlerts.ts:44-60 | on success the list is the first 50 rows, or empty for null data; on error it is kept; loading ends either way |
| UseAlerts.AlertsHook.MarkAsRead | src/hooks/useAlerts.ts:62-78 | the list is marked only if the update succeeded, and is unchanged otherwise |
| UseAlerts.AlertsHook.ClearAlert | src/hooks/useAlerts.ts:80-92 | the alert is removed from the list only if the delete succeeded |
| AlertsPanel.FilteredAlerts | src/components/alerts/AlertsPanel.tsx:15-19 | `all` keeps the list; `unread` keeps exactly the unread alerts; any other filter keeps exactly the alerts of that severity |
| AlertsPanel.FilteredAlertsKeepsOrder | src/components/alerts/AlertsPanel.tsx:15-19 | filtering distributes over concatenation, so the shown alerts keep the hook's order |
| AlertsPanel.MarkedAlertLeavesUnread | src/components/alerts/AlertsPanel.tsx:17 | after an alert is marked read it is no longer listed under `unread` |
| AlertsPanel.SeverityFiltersPartition | src/components/alerts/AlertsPanel.tsx:18 | when every severity is low, medium or high, the three severity filters together list each alert once |
| AlertsPanel.AlertIcon | src/components/alerts/AlertsPanel.tsx:21-30 | red warning iff a high warning, yellow iff another warning, blue iff info, grey bell iff any other type |
| AlertsPanel.AlertFields | src/components/alerts/AlertsPanel.tsx:36-42 | a line holds type, the quoted message, severity, formatted date and `Lido`/`Não lido` |
| AlertsPanel.AlertLines | src/components/alerts/AlertsPanel.tsx:36-42 | one comma-joined line per shown alert, in order |
| AlertsPanel.AlertsCsvLines | src/components/alerts/AlertsPanel.tsx:33-43 | the report read back line by line is the header and one line per alert, when no field holds a line break |
| AlertsPanel.HeaderFree | src/components/alerts/AlertsPanel.tsx:33-35 | the header is a single line |
| AlertsPanel.LineFree | src/components/alerts/AlertsPanel.tsx:36-42 | an alert without line breaks in its fields gives a single line |
| AlertsPanel.IsoDate | src/components/alerts/AlertsPanel.tsx:48 | the date part of a timestamp holds no `T`, and a timestamp without `T` is kept whole |
| AlertsPanel.IsoDateOf | src/components/alerts/AlertsPanel.tsx:48 | for a `toISOString` timestamp the date part is its first ten characters |
| AlertsPanel.ExportAlerts | src/components/alerts/AlertsPanel.tsx:32-52 | the report of the shown alerts is downloaded as `alertas_<date>.csv` and followed by the `Relatório exportado com sucesso!` toast; with no alert shown it is the header alone |
| AlertsPanel.AlertLineFields | src/components/alerts/AlertsPanel.tsx:36-42 | splitting a line at commas gives its five fields back when no field holds a comma |
| ActivityLog.FilteredLogs | src/components/activity/ActivityLog.tsx:31-37 | a log is shown iff its action matches the filter (or the filter is `all`) and it matches the case-insensitive search |
| ActivityLog.FilteredLogsKeepsOrder | src/components/activity/ActivityLog.tsx:31-37 | filtering distributes over concatenation, so the shown logs keep their order |
| ActivityLog.NoFilterShowsAll | src/components/activity/ActivityLog.tsx:31-37 | filter `all` with an empty search shows every log |
| ActivityLog.MessagelessHiddenBySearch | src/components/activity/ActivityLog.tsx:33 | with a non-empty search every shown log has a message |
| ActivityLog.SearchIgnoresQueryCase | src/components/activity/ActivityLog.tsx:33 | lower-casing the query does not change which logs match |
| ActivityLog.LowerIdempotent | src/components/activity/ActivityLog.tsx:33 | lower-casing twice is lower-casing once |
| ActivityLog.LogLines | src/components/activity/ActivityLog.tsx:44-48 | one comma-joined line of date, action and details per shown log, in order |
| ActivityLog.ExportCsv | src/components/activity/ActivityLog.tsx:39-58 | there is no report exactly when the logs are not loaded or none is shown; a report is downloaded as `device-logs-<device id>.csv` and followed by the `Logs exported successfully` toast |
| ActivityLog.ExportCsvLines | src/components/activity/ActivityLog.tsx:42-49 | a report read back line by line is the header and one line per shown log, when no field holds a line break |
| Monitoring.Alert | src/lib/monitoring.ts:96-106 | a captured alert carries its metric and value at level `warning` with the message `High <metric> detected` |
| Monitoring.MonitorMetricsOrdered | src/lib/monitoring.ts:45-94 | at most one alert per metric, in the order response time, error rate, CPU, memory, each a warning naming its metric |
| Monitoring.OwnCheckDecides | src/lib/monitoring.ts:60-93 | whether an alert for a metric is raised, and with which value, depends only on that metric's own check |
| Monitoring.ResponseTimeAlert | src/lib/monitoring.ts:60-66 | a response-time alert is raised iff the response time is present and above 2000, and it carries that time |
| Monitoring.ErrorRateAlert | src/lib/monitoring.ts:52-77 | an error-rate alert is raised iff there were requests and errors/requests is above 0.01; a missing count raises nothing; it carries the rate |
| Monitoring.UsageAlerts | src/lib/monitoring.ts:79-93 | CPU and memory alerts are raised iff the usage is present and strictly above 80 and 85, and carry the usage |
| Monitoring.QuietSnapshot | src/lib/monitoring.ts:45-94 | an empty snapshot raises no alert |
| ThresholdAlerts.FiresIgnoresOperator | src/components/alerts/ThresholdAlerts.tsx:56 | only the metric's value decides firing: changing the stored operator changes nothing, and a value equal to the threshold never fires |
| ThresholdAlerts.NewAlert | src/components/alerts/ThresholdAlerts.tsx:57-64 | the alert has the drawn id, the device, the threshold's type and severity, the creation time and the message `<metric> exceeded threshold: <value>%` |
| ThresholdAlerts.FiredAlerts | src/components/alerts/ThresholdAlerts.tsx:55-69 | one alert per firing threshold among the first `n` visited, all for this device and created now (the check stops where a visit throws, see `CheckThresholds`) |
| ThresholdAlerts.FiringCount | src/components/alerts/ThresholdAlerts.tsx:55-56 | no more thresholds fire than are visited |
| ThresholdAlerts.FiredAlertOf | src/components/alerts/ThresholdAlerts.tsx:55-66 | every firing threshold among the first `n` visited contributes its own alert |
| ThresholdAlerts.NothingFiresWithoutMetrics | src/components/alerts/ThresholdAlerts.tsx:56 | a metric row without any metric fires no threshold |
| ThresholdAlerts.FiredStep | src/components/alerts/ThresholdAlerts.tsx:55-69 | visiting one more threshold: a firing one adds its alert at the head of the list and its toast, when shown, at the end; any other threshold adds nothing |
| ThresholdAlerts.FirstThrow | src/components/alerts/ThresholdAlerts.tsx:55-84 | the position of the first threshold whose visit throws (it fires and the library has no method for its toast), or the length when none does: no visit before it throws |
| ThresholdAlerts.FullToastsNeverThrow | src/components/alerts/ThresholdAlerts.tsx:72-84 | with a library that has all four toast methods no visit throws, so every threshold is visited |
| ThresholdAlerts.HotToastStopsAtFirstNonHigh | src/components/alerts/ThresholdAlerts.tsx:55-84 | with `react-hot-toast` the check ends at the first firing threshold whose severity is not `high`; every threshold before it either does not fire or is `high` |
| ThresholdAlerts.MediumThresholdEndsCheck | src/components/alerts/ThresholdAlerts.tsx:55-84 | a `medium` cpu threshold before a `high` memory one, both exceeded: with `react-hot-toast` one alert is added, no toast shown and the memory threshold never visited; with all four methods both alerts are added and both toasted |
| ThresholdAlerts.WithoutAlert | src/components/alerts/ThresholdAlerts.tsx:86-88 | the result holds no alert with the id and keeps every other alert |
| ThresholdAlerts.WithoutAlertKeepsOrder | src/components/alerts/ThresholdAlerts.tsx:86-88 | clearing distributes over concatenation and clearing twice is clearing once |
| ThresholdAlerts.ThresholdAlertsPanel.constructor | src/components/alerts/ThresholdAlerts.tsx:20-21 | the panel starts without alerts or toasts |
| ThresholdAlerts.ThresholdAlertsPanel.CheckThresholds | src/components/alerts/ThresholdAlerts.tsx:54-84 | with the thresholds not loaded nothing changes; otherwise the thresholds are visited in order up to the first firing one whose toast method is missing: every fired alert up to and including that one is prepended newest first, the toasts of those before it are shown in visiting order, and the check throws exactly when there is such a threshold |
| ThresholdAlerts.ThresholdAlertsPanel.Visit | src/components/alerts/ThresholdAlerts.tsx:56-84 | a firing threshold prepends its alert and shows its severity toast, or throws when the library lacks that toast method; otherwise nothing changes |
| ThresholdAlerts.ThresholdAlertsPanel.CheckOne | src/components/alerts/ThresholdAlerts.tsx:55-68 | one step of the loop extends the prepended alerts by the visited threshold and the toasts by its toast unless the visit throws |
| ThresholdAlerts.ThresholdAlertsPanel.ClearAlert | src/components/alerts/ThresholdAlerts.tsx:86-88 | the list loses the alerts with the id; toasts are kept |
| DeviceMetrics.KeepLast | src/hooks/useDeviceMetrics.ts:25 | `slice(-n)` is the suffix of length `min(n, |s|)` |
| DeviceMetrics.AppendedWindow | src/hooks/useDeviceMetrics.ts:25 | after an insert the window holds at most 60 rows and ends with the new row; below 60 nothing is dropped, at 60 exactly the oldest row is dropped |
| DeviceMetrics.WindowNotTimeOrdered | src/hooks/useDeviceMetrics.ts:25-41 | rows fetched newest first followed by an inserted newer row leave the window in neither time order |
| DeviceMetrics.MetricsHook.constructor | src/hooks/useDeviceMetrics.ts:6-7 | the hook starts with an empty window, loading |
| DeviceMetrics.MetricsHook.OnInsert | src/hooks/useDeviceMetrics.ts:24-26 | the window becomes the last 60 of the old window plus the row, and stays within 60 rows |
| DeviceMetrics.MetricsHook.FetchMetrics | src/hooks/useDeviceMetrics.ts:35-51 | on success the window is the first 60 rows, or empty for null data; an error keeps it; loading ends either way |
| Devices.ApplyChange | src/hooks/useDevices.ts:24-37 | INSERT appends the row; UPDATE replaces every device with the row's id and keeps the rest and the length; DELETE keeps exactly the devices with another id; other events change nothing |
| Devices.InsertDoesNotDeduplicate | src/hooks/useDevices.ts:25-26 | inserting a device already in the list leaves it there twice |
| Devices.UpdateProperties | src/hooks/useDevices.ts:27-32 | an update for an unknown id changes nothing, and applying an update twice is applying it once |
| Devices.DeleteProperties | src/hooks/useDevices.ts:33-37 | a delete distributes over concatenation (keeping order) and deleting twice is deleting once |
| Devices.CreateDeviceRow | src/hooks/useDevices.ts:67-73 | the inserted row has the caller's fields and always the hook's user id |
| Devices.ConnectionRow | src/hooks/useDevices.ts:83-94 | the row is pending, for the device, with a code free of dashes; a canonical UUID gives 8 upper-case hexadecimal digits |
| Devices.DevicesHook.constructor | src/hooks/useDevices.ts:6-8 | the hook starts with no devices, loading |
| Devices.DevicesHook.OnChange | src/hooks/useDevices.ts:24-37 | the list becomes the old list with the event applied |
| Devices.DevicesHook.FetchDevices | src/hooks/useDevices.ts:50-65 | on success the list is the fetched rows, on error it is kept; loading ends either way |
| MachineControl.PermissionRowsOf | src/lib/machine-control.ts:43-47 | exactly the permission rows for the machine and the user filter |
| MachineControl.PermissionLookup | src/lib/machine-control.ts:43-48 | `.single()` gives the access level of a matching row, and no data unless exactly one row matches |
| MachineControl.AsWrittenRefusesEveryone | src/lib/machine-control.ts:47-52 | with UUID user ids, the gate as written (comparing with `[object Promise]`) refuses every restart |
| MachineControl.AsWrittenRefusesAdmin | src/lib/machine-control.ts:47-52 | an admin row for the signed-in user is still refused by the gate as written |
| MachineControl.RestartPermittedIff | src/lib/machine-control.ts:50-52 | with the user's own single permission row, the corrected gate admits exactly `operate` and `admin` |
| MachineControl.CorrectedAdmitsAdmin | src/lib/machine-control.ts:50-52 | an admin row for the signed-in user admits the restart under the corrected gate |
| MachineControl.Controller.constructor | src/lib/machine-control.ts:4 | the controller starts over the given machine statuses with no log rows |
| MachineControl.Controller.GetMachineStatus | src/lib/machine-control.ts:5-19 | the machine's status, or null when the query fails or there is no such machine, never an error |
| MachineControl.Controller.LogMachineAction | src/lib/machine-control.ts:91-112 | one audit row with the given details is appended, unless the insert fails, which is rethrown; statuses are kept |
| MachineControl.Controller.UpdateMachineStatus | src/lib/machine-control.ts:21-38 | an update error writes nothing and is rethrown; otherwise the status is written and then one `status_update` row with the status is logged |
| MachineControl.Controller.RestartMachine | src/lib/machine-control.ts:40-59 | refused with `Insufficient permissions` before any write unless permitted; otherwise the status becomes `maintenance` and then the `status_update` and `restart` rows are logged, in that order; the first failing write (status, status log or restart log) is rethrown and the writes before it stay |
| SupportAuth.AuthenticateSupport | src/lib/support-auth.ts:12-54 | a success needs the looked-up row and returns its id, username, permissions and MFA flag only; every failure is one of the three fixed errors |
| SupportAuth.SucceedsIff | src/lib/support-auth.ts:20-49 | sign-in succeeds iff the account exists, the password matches and, with MFA on, a non-empty token verifies against the account's secret |
| SupportAuth.CredentialsCheckedFirst | src/lib/support-auth.ts:20-27 | an unknown user and a wrong password both give `Invalid credentials`, whatever the token |
| SupportAuth.TokenIgnoredWithoutMfa | src/lib/support-auth.ts:29 | for an account without MFA the token makes no difference |
| SupportAuth.MfaErrors | src/lib/support-auth.ts:29-42 | with MFA on and the right password, a missing or empty token gives `MFA token required` and a failing token `Invalid MFA token` |
| Validation.LoginIssues | src/lib/validation.ts:3-6 | sign-in input is valid iff the e-mail is well formed and the password has at least 8 characters; each failure carries its fixed message |
| Validation.PasswordBoundary | src/lib/validation.ts:5 | an 8-character password passes and a 7-character one is rejected with the password message alone |
| Validation.ProfileIssues | src/lib/validation.ts:8-14 | a profile is valid iff the full name has at least 3 characters and the service type is absent or one of the three offered |
| Validation.ProfileIgnoresContactFields | src/lib/validation.ts:10-11 | phone and company name never change the verdict |
| Validation.DeviceIssues | src/lib/validation.ts:16-20 | a device is valid iff the name has at least 2 characters, the type is desktop or mobile and the OS is non-empty |
| Validation.MetricIssues | src/lib/validation.ts:22-26 | metrics are valid iff CPU, memory and disk usage each lie in [0, 100]; each out-of-range field is reported |
| SessionManagement.ActiveSessionQuery | src/hooks/useSessionManagement.ts:11-31 | the query fails iff there is an error whose code is not `PGRST116`, with that error's message; otherwise the answer is the row or none |
| SessionManagement.StepsApplied | src/hooks/useSessionManagement.ts:47-68 | all three steps take effect iff no step fails, and none does iff the session insert fails |
| SessionManagement.StartOrder | src/hooks/useSessionManagement.ts:37-68 | the session is activated only after its row and its pending 30-minute token were written, and the session row always comes first |
| SessionManagement.SessionHook.constructor | src/hooks/useSessionManagement.ts:7-9 | the hook starts not loading, with no writes or toasts |
| SessionManagement.SessionHook.StartSession | src/hooks/useSessionManagement.ts:33-80 | the writes up to the first failing step take effect; success returns the dashless upper-cased UUID and toasts success, any failure toasts `Failed to start session` and is raised; loading ends either way |
| SessionManagement.SessionHook.EndSession | src/hooks/useSessionManagement.ts:82-102 | nothing without an active session; otherwise the session is marked ended and success is toasted, or on error only the failure is toasted |
| UseSession.StepsApplied | src/hooks/useSession.ts:40-52 | both steps take effect iff neither fails, and none does iff the token insert fails |
| UseSession.SessionCarriesToken | src/hooks/useSession.ts:29-50 | a session is inserted only after a token, as active, carrying the same token the start returns; the token expires 30 minutes later |
| UseSession.SessionHook.constructor | src/hooks/useSession.ts:7-9 | the hook starts not loading, with no writes or toasts |
| UseSession.SessionHook.StartSession | src/hooks/useSession.ts:26-64 | the writes up to the first failing step take effect; success returns the token and toasts success, any failure toasts `Failed to start session` and is raised; loading ends either way |
| UseSession.SessionHook.EndSession | src/hooks/useSession.ts:66-86 | nothing without an active session; otherwise the session is marked ended and success is toasted, or on error only the failure is toasted |
| UseTwoFactorAuth.TwoFactorHook.constructor | src/hooks/useTwoFactorAuth.ts:5-8 | the hook starts not loading, without QR code or backup codes |
| UseTwoFactorAuth.TwoFactorHook.Enable2FA | src/hooks/useTwoFactorAuth.ts:10-29 | success stores the QR code and the backup codes (none given: empty) and toasts success; failure keeps both, toasts `Erro ao habilitar 2FA` and is raised; loading ends either way |
| UseTwoFactorAuth.TwoFactorHook.Verify2FACode | src/hooks/useTwoFactorAuth.ts:31-48 | success toasts the verified message, failure toasts `Código inválido` and is raised; QR code and backup codes never change |
| UseTwoFactorAuth.TwoFactorHook.Disable2FA | src/hooks/useTwoFactorAuth.ts:50-68 | success clears the QR code and backup codes and toasts success; failure keeps both, toasts the error and is raised |
| TwoFactorAuthModal.CopiedCodesRoundTrip | src/components/profile/TwoFactorAuthModal.tsx:35 | the copied text split at line breaks gives the backup codes back, when no code holds a line break |
| TwoFactorAuthModal.TwoFactorModal.constructor | src/components/profile/TwoFactorAuthModal.tsx:11-14 | the modal starts on the initial step with an empty code, nothing copied |
| TwoFactorAuthModal.TwoFactorModal.ClickEnable | src/components/profile/TwoFactorAuthModal.tsx:16-62 | when the button is enabled, the modal moves to the verify step exactly when enrolment succeeded, the hook holds the returned QR code and backup codes and shows the enabled toast; on failure the step, QR code and backup codes are kept and the failure toast is shown; loading is over either way; a disabled button changes nothing; the step never goes back |
| TwoFactorAuthModal.TwoFactorModal.ClickVerify | src/components/profile/TwoFactorAuthModal.tsx:25-99 | when the button is enabled, the modal moves to the backup step exactly when the code is accepted and stays on verify otherwise, the hook shows the verified toast or the invalid-code toast accordingly and loading is over; QR code and backup codes are kept; the step never goes back |
| TwoFactorAuthModal.TwoFactorModal.ClickCopy | src/components/profile/TwoFactorAuthModal.tsx:34-116 | with backup codes shown, the codes joined by line breaks go to the clipboard, the copied flag is set and a toast is shown; otherwise nothing changes |
| TwoFactorAuthModal.TwoFactorModal.TypeCode | src/components/profile/TwoFactorAuthModal.tsx:92 | typing sets the code and changes nothing else |
| Deepseek.RolePromptAsWritten | src/services/deepseek.ts:13-20 | a role named like an inherited object member yields that member, not a text; every other role yields the corrected prompt |
| Deepseek.RolePromptShape | src/services/deepseek.ts:13-20 | every prompt is one of the three templates followed by the message verbatim; admin and support get their own template, every other role the default one |
| Deepseek.InheritedRoleLosesMessage | src/services/deepseek.ts:19 | for the role `constructor` the lookup as written yields no prompt text, where the default template was meant |
| ChatWindow.RoleOrDefault | src/components/chat/ChatWindow.tsx:44 | the user's role when present and non-empty, `default` otherwise |
| ChatWindow.SendEffect | src/components/chat/ChatWindow.tsx:29-60 | a blank input or a running request changes nothing; otherwise the typed message is appended as the user's, stamped with the time read before the request, and the input cleared, then exactly one model message stamped with the time read after the answer on success, or none and an error toast on failure; loading is over either way |
| ChatWindow.PromptEndsWithMessage | src/components/chat/ChatWindow.tsx:44 | the prompt sent ends with the typed message verbatim |
| ChatWindow.SendClearsInput | src/components/chat/ChatWindow.tsx:30-40 | a send right after a send is ignored, because the input is empty |
| ChatWindow.ChatView.constructor | src/components/chat/ChatWindow.tsx:16-18 | the chat starts empty, with an empty input, not loading |
| ChatWindow.ChatView.SendMessage | src/components/chat/ChatWindow.tsx:29-60 | the new state and toasts are those of one send, with the user message stamped at the first clock reading and the reply at the second, and exactly one prompt is sent unless the send is ignored |
| ChatWindow.ChatView.KeyPress | src/components/chat/ChatWindow.tsx:62-67 | Enter without Shift performs a send; any other key changes nothing |
| ChatWindow.ChatView.Type | src/components/chat/ChatWindow.tsx:124 | typing sets the input and changes nothing else |
| AiDiagnostics.Features | src/lib/ai-diagnostics.ts:45-52 | the classifier row is CPU, memory and disk usage followed by the network usage, 0 when missing |
| AiDiagnostics.ArgMax | src/lib/ai-diagnostics.ts:59 | the first position of the largest probability: nothing is larger, and everything before it is smaller |
| AiDiagnostics.ArgMaxUnique | src/lib/ai-diagnostics.ts:59 | the first position of the maximum is the only index with both properties |
| AiDiagnostics.ChosenType | src/lib/ai-diagnostics.ts:59-62 | an error type is chosen iff the pattern at the most probable position exists and has a non-empty type, and it is that pattern's type |
| AiDiagnostics.IndexOf | src/lib/ai-diagnostics.ts:103 | the first occurrence of the separator at or after the start position, or none if there is none |
| AiDiagnostics.SeparatorShape | src/lib/ai-diagnostics.ts:103 | the separator begins with its only line break |
| AiDiagnostics.FirstSeparator | src/lib/ai-diagnostics.ts:103 | in a description, the separator and the rest, the first separator is the one right after the description when the description holds none |
| AiDiagnostics.NoStraddle | src/lib/ai-diagnostics.ts:103 | no separator starts before a line break and reaches past it |
| AiDiagnostics.NoLaterSeparator | src/lib/ai-diagnostics.ts:103 | after the first separator there is no other when the rest holds none |
| AiDiagnostics.ShiftedOccurrence | src/lib/ai-diagnostics.ts:103 | an occurrence in the text is an occurrence in its suffix at the shifted position |
| AiDiagnostics.ParseAnalysisRoundTrip | src/lib/ai-diagnostics.ts:102-108 | a description and a solution joined by the separator parse back trimmed, a blank solution reading `No solution provided` |
| AiDiagnostics.ParseWithoutSeparator | src/lib/ai-diagnostics.ts:103-107 | a text without the separator is all description, with `No solution provided` |
| AiDiagnostics.Recommendations | src/lib/ai-diagnostics.ts:111-138 | no recommendations without metrics, without text or after a failure; each recommendation is one non-empty line |
| AiDiagnostics.RecommendationsRoundTrip | src/lib/ai-diagnostics.ts:133 | non-empty lines joined by line breaks come back as the same list |
| AiDiagnostics.BlankLinesDropped | src/lib/ai-diagnostics.ts:133 | a blank line between two recommendations is dropped |
| AiDiagnostics.Diagnostics.constructor | src/lib/ai-diagnostics.ts:11-22 | the service starts with no model, no patterns and nothing stored |
| AiDiagnostics.Diagnostics.InitializeModel | src/lib/ai-diagnostics.ts:24-40 | a model that fails to load stops the set-up; otherwise the patterns read, when any came back, replace the list |
| AiDiagnostics.Diagnostics.AnalyzeMachineMetrics | src/lib/ai-diagnostics.ts:42-85 | fails without a model; gives null and stores nothing without an error type; otherwise stores and returns the diagnosis with the chosen type, the parsed analysis and the highest probability as confidence |
| FileTransfer.UploadPath | src/hooks/useFileTransfer.ts:16-17 | the path joins the device id, the folder when one is given, and `<transfer id>-<name>` with slashes |
| FileTransfer.UploadPathSegments | src/hooks/useFileTransfer.ts:16-17 | read back along slashes, the path gives the device id, the folder if given, and the stored name, when none holds a slash |
| FileTransfer.Percentage | src/hooks/useFileTransfer.ts:29 | the percentage lies in [0, 100] when the loaded bytes lie within the total, and is 100 when all are loaded |
| FileTransfer.Failure | src/hooks/useFileTransfer.ts:63-104 | a failed transfer has progress 0, status error, and the error's message or the fallback text for a non-Error value |
| FileTransfer.LastProgress | src/hooks/useFileTransfer.ts:28-37 | after progress events the entry is uploading without error, within [0, 100] for a well-formed last event |
| FileTransfer.FileTransferHook.constructor | src/hooks/useFileTransfer.ts:11-12 | the hook starts with no transfers over the given storage and table |
| FileTransfer.FileTransferHook.SetTransfer | src/hooks/useFileTransfer.ts:19-22 | one entry is rewritten and every other entry is kept |
| FileTransfer.FileTransferHook.OnUploadProgress | src/hooks/useFileTransfer.ts:28-37 | the entry becomes uploading at the event's percentage |
| FileTransfer.FileTransferHook.FollowProgress | src/hooks/useFileTransfer.ts:28-37 | after a run of events the entry is the one the last event set, or unchanged without events |
| FileTransfer.FileTransferHook.UploadFile | src/hooks/useFileTransfer.ts:14-73 | completed iff both the upload and the insert succeed, which add the object and the row and return id and path; an upload error writes nothing, an insert error leaves the object; each failure sets the error entry and is rethrown |
| FileTransfer.FileTransferHook.DownloadFile | src/hooks/useFileTransfer.ts:75-107 | the entry becomes completed, or the error entry when the download fails, which is rethrown; it is never `downloading`; storage and table are unchanged |
| FileTransfer.FileTransferHook.DeleteFile | src/hooks/useFileTransfer.ts:117-135 | a storage error changes nothing; otherwise the object is removed, and the rows with that path are deleted unless the database reports an error; errors are rethrown |
| FileTransfer.DeleteKeepsOthers | src/hooks/useFileTransfer.ts:125-128 | after a delete no row has the path, and a table without that path is unchanged |
| FileManager.GetFileIcon | src/components/files/FileManager.tsx:60-66 | image, video and audio prefixes are tested first, in that order; then `zip` or `rar` anywhere gives the archive icon; any other type gets the generic icon |
| FileManager.IconPriority | src/components/files/FileManager.tsx:60-66 | a zip image shows as an image, and zip and rar archives show as archives |
| FileManager.NotMedia | src/components/files/FileManager.tsx:61-63 | a type whose second letter is `p` has none of the media prefixes |
| FileManager.RemoveAt | src/components/files/FileManager.tsx:111 | the element at the index is dropped and the others are kept in order; an out-of-range index drops nothing |
| FileManager.UploadedToast | src/components/files/FileManager.tsx:28 | a success toast naming the uploaded file |
| FileManager.FirstFailure | src/components/files/FileManager.tsx:26-33 | every upload before the position succeeds, and the upload at it fails if there is one |
| FileManager.UploadedRows | src/components/files/FileManager.tsx:26-27 | one `files` row per successful upload, with its transfer id and name |
| FileManager.UploadedPrefix | src/components/files/FileManager.tsx:26-29 | one more successful upload adds its row and its toast at the end |
| FileManager.FileManagerView.constructor | src/components/files/FileManager.tsx:11-16 | the view starts at the root with nothing selected or shared |
| FileManager.FileManagerView.HandleFileSelect | src/components/files/FileManager.tsx:19-22 | the picked files replace the selection |
| FileManager.FileManagerView.RemoveSelected | src/components/files/FileManager.tsx:111 | the selected file at the index is dropped |
| FileManager.FileManagerView.HandleUpload | src/components/files/FileManager.tsx:24-34 | the files up to the first failure are uploaded in order and each toasted, stored, given a row and a finished transfer entry; a failure adds one error toast, records its error in its transfer entry (its object stays in storage when only the row insert failed) and keeps the selection, which is cleared only when all succeed |
| FileManager.FileManagerView.UploadOne | src/components/files/FileManager.tsx:26-28 | one upload through the transfer hook: a success adds its object, its row, its finished entry and its toast; a failure adds the error toast and the failing entry, and its object only when the row insert failed |
| FileManager.FileManagerView.HandleShare | src/components/files/FileManager.tsx:36-58 | nothing happens without a file and an e-mail; otherwise the link is copied and toasted and the share state reset, or only an error toast |
| SearchContainer.ComparatorCases | src/components/search/SearchContainer.tsx:35-53 | the distance comparator calls a pair equal without a location or when either lacks a non-zero coordinate; the rating comparator puts the higher rating first and is antisymmetric |
| SearchContainer.ZeroCoordinateMissing | src/components/search/SearchContainer.tsx:36-99 | a provider at latitude 0 counts as having no coordinates |
| SearchContainer.InsertBySorted | src/components/search/SearchContainer.tsx:33 | inserting into a sorted list keeps it sorted |
| SearchContainer.SortBySorted | src/components/search/SearchContainer.tsx:33 | the sort orders by the key and is a permutation of its input |
| SearchContainer.SortByEqualKeys | src/components/search/SearchContainer.tsx:33 | when every key is equal the order is kept |
| SearchContainer.SortResults | src/components/search/SearchContainer.tsx:32-60 | every sort is a permutation of the results |
| SearchContainer.RatingSortDescending | src/components/search/SearchContainer.tsx:52-53 | by rating, the highest rating comes first |
| SearchContainer.NameSortCollated | src/components/search/SearchContainer.tsx:54-55 | by name, every pair is in collation order, a missing name collating as empty |
| SearchContainer.DistanceSortNearestFirst | src/components/search/SearchContainer.tsx:35-51 | with a location and coordinates for everyone, nearest first |
| SearchContainer.DistanceSortWithoutLocation | src/components/search/SearchContainer.tsx:36-38 | without a location the distance sort keeps the order |
| SearchContainer.InReach | src/components/search/SearchContainer.tsx:94-108 | all rows are kept without a location or a positive reach; otherwise exactly those with coordinates within the reach |
| SearchContainer.DroppedRowShortens | src/components/search/SearchContainer.tsx:97-108 | a row the filter drops makes the kept batch shorter than the page |
| SearchContainer.Kept | src/components/search/SearchContainer.tsx:94 | null data keeps nothing; otherwise the rows within reach |
| SearchContainer.KeptBatch | src/components/search/SearchContainer.tsx:97-121 | with a location every kept row has coordinates, so a batch sorts nearest first; a full page with a row out of reach keeps fewer than twelve, which ends the paging |
| SearchContainer.Merged | src/components/search/SearchContainer.tsx:111-119 | a new search shows a permutation of the kept rows; a continued one a permutation of the current and kept rows |
| SearchContainer.Request | src/components/search/SearchContainer.tsx:67-88 | rows `from` to `from + 11`, starting at 0 for a new search and at `page * 12` otherwise, with the name, type and rating conditions exactly when given |
| SearchContainer.RequestRanges | src/components/search/SearchContainer.tsx:67-68 | the first page is rows 0 to 11, the third rows 24 to 35 |
| SearchContainer.Search.constructor | src/components/search/SearchContainer.tsx:17-29 | no results, type any, rating 0, reach 25, sorted by distance, more to load, page 0 |
| SearchContainer.Search.LoadResults | src/components/search/SearchContainer.tsx:62-128 | nothing while loading or, continuing, when there is no more; otherwise one page request; an error only toasts; success merges the kept rows, advances the page, and there is more iff twelve rows were kept; loading ends |
| SearchContainer.Search.ApplyPage | src/components/search/SearchContainer.tsx:111-121 | the results become the merged list, the page 1 or the next one, and there is more iff the page was full |
| SearchContainer.Search.SetSortBy | src/components/search/SearchContainer.tsx:168-173 | the option changes, and a non-empty list is re-sorted by it |
| SearchContainer.Search.SelectProvider | src/components/search/SearchContainer.tsx:139-141 | the provider becomes the selected one and nothing else changes |
| RealityDistortionEngine.StabilityAfter | src/lib/RealityDistortionEngine.ts:66-78 | integrity never drops below 0 and the paradox probability never exceeds 1 |
| RealityDistortionEngine.NewReality | src/lib/RealityDistortionEngine.ts:45-64 | each coordinate moves by direction times intensity, entanglement stays at most 1, coherence at least 0, and the metrics are those computed from the state before the move |
| RealityDistortionEngine.MetricsFromOldState | src/lib/RealityDistortionEngine.ts:62-78 | two states with the same metrics, entanglement and coherence get the same new metrics, whatever their coordinates and energy |
| RealityDistortionEngine.ZeroIntensityKeepsState | src/lib/RealityDistortionEngine.ts:45-78 | a distortion of intensity 0 leaves a state within bounds unchanged |
| RealityDistortionEngine.StressNeverHelps | src/lib/RealityDistortionEngine.ts:70-76 | with non-negative intensity and entanglement, integrity never rises and the paradox probability never falls |
| RealityDistortionEngine.InitialStable | src/lib/RealityDistortionEngine.ts:10-86 | the initial state is within bounds and stable |
| RealityDistortionEngine.Engine.constructor | src/lib/RealityDistortionEngine.ts:6-8 | the engine starts from the initial state, which is stable |
| RealityDistortionEngine.Engine.DistortReality | src/lib/RealityDistortionEngine.ts:26-43 | the new state replaces the current one and is returned exactly when it is stable; otherwise the call fails and nothing changes, so stability and bounds are preserved |
| QuantumThemeProvider.DefaultIsPresent | src/components/theme/QuantumThemeProvider.tsx:4-13 | the default theme is cyberpunk, in the present, valid, and equal to a warp of itself to the present |
| QuantumThemeProvider.WarpEffect | src/components/theme/QuantumThemeProvider.tsx:30-36 | a warp moves to the layer with energy 1.2 for the future, 0.5 for the past and 0.7 for the present, keeps base and colors, and keeps a valid theme valid |
| QuantumThemeProvider.WithEnergyEffect | src/components/theme/QuantumThemeProvider.tsx:38-43 | setting the energy keeps base, colors and layer, stores a level within [0, 1.5] as given and any other as the nearer bound |
| QuantumThemeProvider.LastWriteWins | src/components/theme/QuantumThemeProvider.tsx:30-43 | a warp overrides an energy set before it, setting the same level twice is setting it once, and setting the energy keeps the layer |
| QuantumThemeProvider.EnergyIdentifiesLayer | src/components/theme/QuantumThemeProvider.tsx:34 | right after a warp the energy tells which layer was chosen |
| QuantumThemeProvider.ThemeProvider.constructor | src/components/theme/QuantumThemeProvider.tsx:28 | the provider starts from the default theme, which is valid |
| QuantumThemeProvider.ThemeProvider.WarpTheme | src/components/theme/QuantumThemeProvider.tsx:30-36 | the theme becomes its warp to the layer; base and colors are kept, and validity is preserved |
| QuantumThemeProvider.ThemeProvider.SetEnergyLevel | src/components/theme/QuantumThemeProvider.tsx:38-43 | the theme gets the clamped energy, within [0, 1.5]; base and colors are kept, and validity is preserved |
| QuantumProcessor.Variance | src/utils/quantumProcessor.ts:23-28 | the variance of a non-empty signature is never negative |
| QuantumProcessor.SquaredDeviationsZero | src/utils/quantumProcessor.ts:25-28 | the summed squared deviations are never negative, zero when every value equals the mean and positive as soon as one differs |
| QuantumProcessor.CoherenceBounds | src/utils/quantumProcessor.ts:22-31 | coherence `1 / (1 + variance)` lies in (0, 1] and is 1 exactly when all values of the signature are equal |
| QuantumProcessor.MaxOf | src/utils/quantumProcessor.ts:36 | the maximum is one of the patterns and no pattern exceeds it |
| QuantumProcessor.MinOf | src/utils/quantumProcessor.ts:37 | the minimum is one of the patterns and no pattern is below it |
| QuantumProcessor.ResonanceRange | src/utils/quantumProcessor.ts:33-39 | no patterns give 0.5, equal patterns give 0, and positive patterns give a resonance in [0, 1) |
| QuantumProcessor.SpreadRatio | src/utils/quantumProcessor.ts:38 | for positive extremes `lo <= hi` the spread over the sum lies in [0, 1) |
| QuantumProcessor.LayerThresholds | src/utils/quantumProcessor.ts:41-45 | past exactly below 0.3, future exactly above 0.7, present in between with both bounds included; the layer never moves back as stability grows |
| QuantumProcessor.EnergyLevelRange | src/utils/quantumProcessor.ts:47-58 | the energy level lies in [0, 1.5]; with the neutral bias 0.5 it is the signature's mean whenever that mean lies in the range |
| QuantumProcessor.ProcessPatternsEffect | src/utils/quantumProcessor.ts:4-19 | the base is holographic exactly when coherence exceeds 0.7, the entanglement is the resonance, the layer is that of `1 - abs(dissonance)` whatever the dissonance's sign, and the energy lies in [0, 1.5] |
| QuantumProcessor.SteadySignatureIsHolographic | src/utils/quantumProcessor.ts:9-16 | a constant signature yields a holographic base; no dissonance yields the future layer and a dissonance beyond 0.7 either way the past |

## Left out

- Rendering, styling, icons as components, routing and all React effects except the state updates listed above.
- The network, storage, auth and database calls are not modelled. Each one becomes an outcome given as a parameter, and each query's filters become a function over a table given as a sequence of rows.
- The intermediate `loading = true` states of `startSession`, `loadResults` and `handleSendMessage` are not modelled: each method states the state after it returns.
- `setTimeout` is not modelled, so neither is the machine's delayed return to `active` after a restart; clocks and dates (`new Date()`, `toLocaleString`) become parameters.
- Locale formatting, `NaN`, `Infinity`, UTF-16 code-unit lengths and `Number()` parsing are not modelled. Numbers are exact reals and lengths count characters.
- `calculateDistance` and `localeCompare` in the search are oracles given as parameters; `localeCompare` is a rank difference.
- SearchContainer.SortBy: stability is not proved in general, only that a list whose keys are all equal keeps its order.
- SearchContainer.SortResults: with a location and some provider lacking coordinates the comparator is inconsistent (an unlocated provider ties with every other, located ones are ordered by distance), so the order `Array.prototype.sort` returns depends on the engine's algorithm (V8's TimSort can reorder the located ones, `[far, near, unlocated]` becoming `[near, far, unlocated]`); the model keeps the input order there and promises only a permutation.
- The IntersectionObserver, the search debounce and the `getLocation` effect are not modelled; `loadMore` is a method the view calls.
- FileManager.FileManagerView.HandleShare: modelled as if `supabase` were imported in FileManager.tsx. As written the call would throw inside the `try`, but no control ever sets `selectedFileToShare`, so the guard returns first.
- `getFileUrl` in useFileTransfer is a plain storage call and is not modelled.
- Upload progress when the event's total is 0 is not modelled (the program divides by zero).
- The `FileReader` data URL of an image preview is an opaque string given as a parameter.
- The profile forms upload to the `profile-pictures` bucket and the profile page to `profile-photos`; storage contents are not modelled, only the outcome of each upload.
- The `updateProfile` upsert of `{id, ...updates}` in useProfile is modelled as replacing the record stored under that id; the database's merge of columns is not modelled.
- AiDiagnostics: the TensorFlow model and the OpenAI completion are oracles; the prompt texts sent to them are not modelled, only the parsing of what comes back.
- Deepseek: the HTTP call in `fetchAIResponse` is not modelled.
- ChatWindow: scrolling to the last message is not modelled.
- The CSV exports: the `Blob`, the object URL and the link click that start the browser download are not modelled; each export gives the file name, the text and the toast it shows.
- QuantumProcessor: an empty signature and patterns whose maximum and minimum add to 0 (NaN or Infinity in the program) are excluded by preconditions.
- QuantumProcessor: `NeuralState` is imported from `types/quantum.ts` but not declared there; the model gives it the two fields `processPatterns` reads.
- Monitoring: the metric names are a datatype with four values instead of free strings.
- Monitoring: Sentry initialisation and `captureError`, `setUserContext`, `startTransaction`, `setTag`, `addBreadcrumb` forward to the Sentry SDK and are not modelled.
- ThresholdAlerts: the threshold's `operator` column is ignored by the program, and the model ignores it too.
- UseDevices: `updateDeviceStatus` is a single database write and is not modelled; the fetched rows are a sequence, so `fetchDevices` setting the list to `null` (no error and no data) is not modelled.
- MachineControl: `updateMachineMetrics` is a single insert and is not modelled.
- SupportAuth: `generateMFASecret` and `validateMFAToken` call `otplib`; token validity is an oracle, and bcrypt's comparison is a boolean parameter.
- Automation.RulesOfType: the rules table is given a nullable `device_type` column, which `loadRules` filters on; `AutomationRule` in `src/types/database.ts` has no such column, so against that schema the query more likely answers with an error and no rule is loaded. `CreatedRuleNeverLoaded` (no rule the form creates is ever loaded) holds under either reading.

## Findings

| source | as written | input that shows it | evidently intended | confidence | as-written member | corrected member |
|---|---|---|---|---|---|---|
| src/lib/machine-control.ts:47-52 | the permission row is looked up with `user_id` equal to `supabase.auth.getUser()`, a Promise, whose text is `[object Promise]` | any user, including one whose row for the machine says `admin`: no row matches, so the restart is refused | look the row up with the signed-in user's id, so `operate` and `admin` may restart | not executed | MachineControl.RestartPermittedAsWritten, MachineControl.AsWrittenRefusesEveryone, MachineControl.AsWrittenRefusesAdmin | MachineControl.RestartPermitted, MachineControl.RestartPermittedIff, MachineControl.CorrectedAdmitsAdmin |
| src/components/profile/ProfilePage.tsx:27-46 | `handlePhotoUpload` calls `supabase.storage`, but the file never imports `supabase`, so the call throws a ReferenceError and the error toast is shown | any image file chosen while signed in: the photo is never saved | upload to `profile-photos` under `<user id>.<ext>` and store the public URL in the profile | not executed | ProfilePage.PhotoUploadAsWritten, ProfilePage.PhotoNeverSavedAsWritten | ProfilePage.PhotoUpload |
| src/services/deepseek.ts:13-20 | `prompts[role] \|\| prompts.default` also finds the members every object inherits | role `constructor`: the lookup yields the `Object` function, which is truthy, so the user's message is lost | use a role's own template, else the default one | not executed | Deepseek.RolePromptAsWritten, Deepseek.InheritedRoleLosesMessage | Deepseek.RolePrompt, Deepseek.RolePromptShape |
| src/components/alerts/ThresholdAlerts.tsx:72-84 | `showAlertNotification` calls `toast.warning` and `toast.info`, which `react-hot-toast` does not have, so a `medium` or other non-`high` alert throws a TypeError inside `forEach` after its alert was added; the same switch in `src/hooks/useAlerts.ts:26-35` throws in the realtime handler | thresholds `[cpu > 80 medium, memory > 80 high]` with cpu 90 and memory 95: the cpu alert is added with no toast and the memory threshold is never checked | show a warning or information toast (`toast` with an icon, say) for every firing threshold and every inserted alert | not executed | ThresholdAlerts.MediumThresholdEndsCheck, ThresholdAlerts.HotToastStopsAtFirstNonHigh | ThresholdAlerts.FullToastsNeverThrow, Toasts.SeverityToastShown |

/** The automation rule evaluator: an engine that holds the automation rules
    of one device type, compares a metric snapshot against each rule's
    condition, dispatches the rule's action (restart a service, scale
    resources, notify the machine owner) and writes one audit row to
    `machine_logs` per dispatch. Database and edge-function calls are
    represented by the rows and requests they would carry. */
module Automation {
  import opened Common

  /** A JSON value stored in a rule's action parameters. `Undefined` is what
      reading a missing key gives. */
  datatype Value = Undefined | Num(n: real) | Str(s: string) | Bool(b: bool)

  type Params = map<string, Value>

  /** `params[key]`, which is `undefined` for a missing key. */
  function Get(params: Params, key: string): (v: Value)
    ensures key in params ==> v == params[key]
    ensures key !in params ==> v == Undefined
  {
    if key in params then params[key] else Undefined
  }

  datatype Condition = Condition(metric: string, operator: string, value: real)

  datatype Action = Action(kind: string, params: Params)

  /** A row of `automation_rules`. `deviceType` is `None` when the column is
      null; `enabled` and `deviceId` are stored but never consulted by the
      engine. */
  datatype Rule = Rule(
    id: string,
    deviceType: Option<string>,
    deviceId: string,
    name: string,
    enabled: bool,
    condition: Condition,
    action: Action)

  /** A metric snapshot: metric name to current value. */
  type Metrics = map<string, real>

  const Operators: seq<string> := [">", "<", "==", ">=", "<="]
  const ActionKinds: seq<string> := ["restart_service", "scale_resources", "notify"]

  predicate IsKnownKind(kind: string)
  {
    kind == "restart_service" || kind == "scale_resources" || kind == "notify"
  }

  /** Whether a condition holds for a snapshot: false when the metric is
      missing, the plain comparison named by the operator otherwise, and
      false for any operator outside the five. */
  function CheckCondition(metrics: Metrics, c: Condition): (holds: bool)
    ensures c.metric !in metrics ==> !holds
    ensures c.operator !in Operators ==> !holds
    ensures c.metric in metrics ==>
      var v := metrics[c.metric];
      (c.operator == ">" ==> (holds <==> v > c.value)) &&
      (c.operator == "<" ==> (holds <==> v < c.value)) &&
      (c.operator == "==" ==> (holds <==> v == c.value)) &&
      (c.operator == ">=" ==> (holds <==> v >= c.value)) &&
      (c.operator == "<=" ==> (holds <==> v <= c.value))
  {
    if c.metric !in metrics then false
    else
      var v := metrics[c.metric];
      match c.operator
      case ">" => v > c.value
      case "<" => v < c.value
      case "==" => v == c.value
      case ">=" => v >= c.value
      case "<=" => v <= c.value
      case _ => false
  }

  /** At the threshold itself the inclusive operators and equality hold and
      the strict ones do not. */
  lemma AtThreshold(metrics: Metrics, metric: string, threshold: real)
    requires metric in metrics && metrics[metric] == threshold
    ensures CheckCondition(metrics, Condition(metric, ">=", threshold))
    ensures CheckCondition(metrics, Condition(metric, "<=", threshold))
    ensures CheckCondition(metrics, Condition(metric, "==", threshold))
    ensures !CheckCondition(metrics, Condition(metric, ">", threshold))
    ensures !CheckCondition(metrics, Condition(metric, "<", threshold))
  {
  }

  /** For a present metric `>` is the negation of `<=`, and `<` the negation
      of `>=`; for a missing metric both members of each pair are false. */
  lemma ComplementaryOperators(metrics: Metrics, metric: string, threshold: real)
    ensures metric in metrics ==>
      (CheckCondition(metrics, Condition(metric, ">", threshold)) <==>
       !CheckCondition(metrics, Condition(metric, "<=", threshold)))
    ensures metric in metrics ==>
      (CheckCondition(metrics, Condition(metric, "<", threshold)) <==>
       !CheckCondition(metrics, Condition(metric, ">=", threshold)))
    ensures metric !in metrics ==>
      forall op :: !CheckCondition(metrics, Condition(metric, op, threshold))
  {
  }

  /** The body of an edge-function call to `device-ops`. */
  datatype DeviceOpsBody =
    | Restart(deviceId: string, service: Value)
    | Scale(deviceId: string, resources: Params)

  /** A row inserted into `notifications`. */
  datatype Notification = Notification(userId: string, kind: string, message: Value, deviceId: string)

  /** A row inserted into `machine_logs` by the engine. */
  datatype MachineLog = MachineLog(deviceId: string, action: string, detailsType: string, detailsParams: Params)

  /** An externally visible effect of evaluating the rules. */
  datatype Effect =
    | InvokeDeviceOps(body: DeviceOpsBody)
    | InsertNotification(notification: Notification)
    | InsertLog(log: MachineLog)

  /** The outcome of an evaluation: the effects in the order they happen, and
      whether the evaluation ended by rethrowing a handler's error. */
  datatype Run = Run(effects: seq<Effect>, aborted: bool)

  /** The audit row written after a dispatch. */
  function LogRow(deviceId: string, action: Action): (row: MachineLog)
    ensures row.deviceId == deviceId && row.action == "automation"
    ensures row.detailsType == action.kind && row.detailsParams == action.params
  {
    MachineLog(deviceId, "automation", action.kind, action.params)
  }

  /** What the handler for an action sends. `owner` is the result of looking
      up the device's `owner_id`: `None` when no machine row was found, in
      which case the notify handler returns without inserting. An unknown
      kind has no handler. */
  function Dispatch(deviceId: string, action: Action, owner: Option<string>): (effects: seq<Effect>)
    ensures action.kind == "restart_service" ==>
      effects == [InvokeDeviceOps(Restart(deviceId, Get(action.params, "service")))]
    ensures action.kind == "scale_resources" ==>
      effects == [InvokeDeviceOps(Scale(deviceId, action.params))]
    ensures action.kind == "notify" && owner.Some? ==>
      effects == [InsertNotification(Notification(owner.value, "automation", Get(action.params, "message"), deviceId))]
    ensures !IsKnownKind(action.kind) || (action.kind == "notify" && owner.None?) ==> effects == []
    ensures forall i :: 0 <= i < |effects| ==> !effects[i].InsertLog?
  {
    match action.kind
    case "restart_service" => [InvokeDeviceOps(Restart(deviceId, Get(action.params, "service")))]
    case "scale_resources" => [InvokeDeviceOps(Scale(deviceId, action.params))]
    case "notify" =>
      if owner.None? then []
      else [InsertNotification(Notification(owner.value, "automation", Get(action.params, "message"), deviceId))]
    case _ => []
  }

  /** `executeAction`: the handler's effects followed by the audit row, or,
      when the handler throws, nothing and an aborted run. */
  function Execute(deviceId: string, action: Action, owner: Option<string>, throws: bool): (r: Run)
    ensures r.aborted <==> throws && IsKnownKind(action.kind)
    ensures r.aborted ==> r.effects == []
    ensures !r.aborted ==> r.effects == Dispatch(deviceId, action, owner) + [InsertLog(LogRow(deviceId, action))]
  {
    if throws && IsKnownKind(action.kind) then Run([], true)
    else Run(Dispatch(deviceId, action, owner) + [InsertLog(LogRow(deviceId, action))], false)
  }

  /** `evaluateMetrics` from rule `from` on: rules in stored order, each rule
      whose condition holds executed once, and the first throwing handler
      ends the evaluation. `failing` holds the indices of the rules whose
      handler throws. */
  function Evaluate(rules: seq<Rule>, from: nat, deviceId: string, metrics: Metrics,
                    owner: Option<string>, failing: set<nat>): (r: Run)
    decreases |rules| - from
  {
    if from >= |rules| then Run([], false)
    else if !CheckCondition(metrics, rules[from].condition) then
      Evaluate(rules, from + 1, deviceId, metrics, owner, failing)
    else
      var step := Execute(deviceId, rules[from].action, owner, from in failing);
      if step.aborted then step
      else
        var rest := Evaluate(rules, from + 1, deviceId, metrics, owner, failing);
        Run(step.effects + rest.effects, rest.aborted)
  }

  /** Rules from index `from` on whose condition holds, in stored order. */
  function Fired(rules: seq<Rule>, from: nat, metrics: Metrics): (fired: seq<Rule>)
    ensures |fired| <= |rules| - from || from >= |rules|
    ensures forall i :: 0 <= i < |fired| ==> CheckCondition(metrics, fired[i].condition)
    decreases |rules| - from
  {
    if from >= |rules| then []
    else if CheckCondition(metrics, rules[from].condition) then
      [rules[from]] + Fired(rules, from + 1, metrics)
    else Fired(rules, from + 1, metrics)
  }

  function Holds(metrics: Metrics): Rule -> bool
  {
    (r: Rule) => CheckCondition(metrics, r.condition)
  }

  /** The fired rules are exactly the rules from `from` on whose condition
      holds, each once and in stored order: they are what filtering the
      remaining rules by their condition keeps. */
  lemma {:induction false} FiredIsFilter(rules: seq<Rule>, from: nat, metrics: Metrics)
    requires from <= |rules|
    ensures Fired(rules, from, metrics) == Filter(rules[from..], Holds(metrics))
    decreases |rules| - from
  {
    if from < |rules| {
      FiredIsFilter(rules, from + 1, metrics);
      assert rules[from..][0] == rules[from];
      assert rules[from..][1..] == rules[from + 1..];
    }
  }

  /** The audit rows among a sequence of effects. */
  function Logs(effects: seq<Effect>): (logs: seq<MachineLog>)
    ensures |logs| <= |effects|
  {
    if effects == [] then []
    else if effects[0].InsertLog? then [effects[0].log] + Logs(effects[1..])
    else Logs(effects[1..])
  }

  function LogRows(deviceId: string, fired: seq<Rule>): (rows: seq<MachineLog>)
    ensures |rows| == |fired|
    ensures forall i :: 0 <= i < |fired| ==> rows[i] == LogRow(deviceId, fired[i].action)
  {
    if fired == [] then [] else [LogRow(deviceId, fired[0].action)] + LogRows(deviceId, fired[1..])
  }

  lemma {:induction false} LogsConcat(a: seq<Effect>, b: seq<Effect>)
    ensures Logs(a + b) == Logs(a) + Logs(b)
  {
    if a == [] {
      assert a + b == b;
    } else {
      assert (a + b)[0] == a[0];
      assert (a + b)[1..] == a[1..] + b;
      LogsConcat(a[1..], b);
    }
  }

  lemma {:induction false} DispatchLogsNothing(deviceId: string, action: Action, owner: Option<string>)
    ensures Logs(Dispatch(deviceId, action, owner)) == []
  {
    var d := Dispatch(deviceId, action, owner);
    if d != [] {
      assert Logs(d) == Logs(d[1..]);
      assert d[1..] == [];
    }
  }

  lemma ExecuteLogs(deviceId: string, action: Action, owner: Option<string>)
    ensures Logs(Execute(deviceId, action, owner, false).effects) == [LogRow(deviceId, action)]
  {
    var log: seq<Effect> := [InsertLog(LogRow(deviceId, action))];
    LogsConcat(Dispatch(deviceId, action, owner), log);
    DispatchLogsNothing(deviceId, action, owner);
    assert Logs(log) == [LogRow(deviceId, action)] + Logs(log[1..]);
  }

  /** When no handler throws, the evaluation completes and writes exactly one
      audit row per rule whose condition holds, in stored order. */
  lemma {:induction false} OneLogPerFiredRule(rules: seq<Rule>, from: nat, deviceId: string,
                                              metrics: Metrics, owner: Option<string>)
    ensures !Evaluate(rules, from, deviceId, metrics, owner, {}).aborted
    ensures Logs(Evaluate(rules, from, deviceId, metrics, owner, {}).effects)
         == LogRows(deviceId, Fired(rules, from, metrics))
    decreases |rules| - from
  {
    if from < |rules| {
      OneLogPerFiredRule(rules, from + 1, deviceId, metrics, owner);
      if CheckCondition(metrics, rules[from].condition) {
        var step := Execute(deviceId, rules[from].action, owner, false);
        var rest := Evaluate(rules, from + 1, deviceId, metrics, owner, {});
        LogsConcat(step.effects, rest.effects);
        ExecuteLogs(deviceId, rules[from].action, owner);
        var fired := Fired(rules, from, metrics);
        assert fired[1..] == Fired(rules, from + 1, metrics);
      }
    }
  }

  /** Whether some rule from `from` on fires and has a throwing handler. */
  predicate SomeHandlerThrows(rules: seq<Rule>, from: nat, metrics: Metrics, failing: set<nat>)
  {
    exists k :: from <= k < |rules| && k in failing
      && CheckCondition(metrics, rules[k].condition) && IsKnownKind(rules[k].action.kind)
  }

  /** The evaluation rethrows exactly when some firing rule's handler throws. */
  lemma {:induction false} AbortsIffHandlerThrows(rules: seq<Rule>, from: nat, deviceId: string,
                                                  metrics: Metrics, owner: Option<string>, failing: set<nat>)
    ensures Evaluate(rules, from, deviceId, metrics, owner, failing).aborted
        <==> SomeHandlerThrows(rules, from, metrics, failing)
    decreases |rules| - from
  {
    if from < |rules| {
      AbortsIffHandlerThrows(rules, from + 1, deviceId, metrics, owner, failing);
      if SomeHandlerThrows(rules, from + 1, metrics, failing) {
        var k :| from + 1 <= k < |rules| && k in failing
          && CheckCondition(metrics, rules[k].condition) && IsKnownKind(rules[k].action.kind);
        assert from <= k;
      }
    }
  }

  /** A throwing handler at the first such rule `k` ends the evaluation: the
      effects are those of the rules before `k`, and no rule after `k` is
      evaluated. */
  lemma {:induction false} StopsAtFirstThrow(rules: seq<Rule>, from: nat, k: nat, deviceId: string,
                                             metrics: Metrics, owner: Option<string>, failing: set<nat>)
    requires from <= k < |rules| && k in failing
    requires CheckCondition(metrics, rules[k].condition) && IsKnownKind(rules[k].action.kind)
    requires !SomeHandlerThrows(rules[..k], from, metrics, failing)
    ensures Evaluate(rules, from, deviceId, metrics, owner, failing)
         == Run(Evaluate(rules[..k], from, deviceId, metrics, owner, failing).effects, true)
    decreases k - from
  {
    if from < k {
      assert rules[..k][from] == rules[from];
      StopsAtFirstThrow(rules, from + 1, k, deviceId, metrics, owner, failing);
      if CheckCondition(metrics, rules[from].condition) && from in failing {
        assert !IsKnownKind(rules[..k][from].action.kind);
      }
    }
  }

  /** Only each rule's condition and action matter: `enabled`, `deviceId`,
      `name`, `id` and `deviceType` do not change the outcome, so disabled
      rules and rules written for other devices are evaluated too. */
  lemma {:induction false} OnlyConditionAndActionMatter(rules: seq<Rule>, other: seq<Rule>, from: nat,
                                                       deviceId: string, metrics: Metrics,
                                                       owner: Option<string>, failing: set<nat>)
    requires |rules| == |other|
    requires forall i :: 0 <= i < |rules| ==>
      rules[i].condition == other[i].condition && rules[i].action == other[i].action
    ensures Evaluate(rules, from, deviceId, metrics, owner, failing)
         == Evaluate(other, from, deviceId, metrics, owner, failing)
    decreases |rules| - from
  {
    if from < |rules| {
      OnlyConditionAndActionMatter(rules, other, from + 1, deviceId, metrics, owner, failing);
    }
  }

  /** A disabled rule whose condition holds is still dispatched and logged. */
  lemma DisabledRuleStillRuns(r: Rule, deviceId: string, metrics: Metrics, owner: Option<string>)
    requires !r.enabled && CheckCondition(metrics, r.condition)
    ensures Logs(Evaluate([r], 0, deviceId, metrics, owner, {}).effects) == [LogRow(deviceId, r.action)]
  {
    OneLogPerFiredRule([r], 0, deviceId, metrics, owner);
    assert Fired([r], 0, metrics) == [r];
  }

  /** An action of unknown kind dispatches nothing and is still logged. */
  lemma UnknownKindOnlyLogged(deviceId: string, action: Action, owner: Option<string>, throws: bool)
    requires !IsKnownKind(action.kind)
    ensures Execute(deviceId, action, owner, throws) == Run([InsertLog(LogRow(deviceId, action))], false)
  {
  }

  function OfType(deviceType: string): Rule -> bool
  {
    (r: Rule) => r.deviceType == Some(deviceType)
  }

  /** The query behind `loadRules`: the rows whose `device_type` equals the
      requested type, in table order. A null column never matches. */
  function RulesOfType(table: seq<Rule>, deviceType: string): (rows: seq<Rule>)
    ensures |rows| <= |table|
    ensures forall i :: 0 <= i < |rows| ==> rows[i] in table && rows[i].deviceType == Some(deviceType)
    ensures forall i :: 0 <= i < |table| && table[i].deviceType == Some(deviceType) ==> table[i] in rows
  {
    Filter(table, OfType(deviceType))
  }

  /** The query keeps table order and repetitions: the rows of a
      concatenation are the rows of each part, one after the other, and a
      single row is kept exactly when it has the type. */
  lemma RulesOfTypeConcat(a: seq<Rule>, b: seq<Rule>, deviceType: string)
    ensures RulesOfType(a + b, deviceType) == RulesOfType(a, deviceType) + RulesOfType(b, deviceType)
    ensures |a| == 1 ==> RulesOfType(a, deviceType) == (if a[0].deviceType == Some(deviceType) then a else [])
  {
    FilterConcat(a, b, OfType(deviceType));
  }

  class AutomationEngine {
    var rules: seq<Rule>

    constructor ()
      ensures rules == []
    {
      rules := [];
    }

    /** `loadRules`: on success `rules` becomes the matching rows (`data` null
        gives the empty list); on a query error `rules` is unchanged and the
        error is rethrown. `table` is the `automation_rules` table and
        `queryError` the error the query reports, if any. */
    method LoadRules(deviceType: string, table: seq<Rule>, queryError: Option<string>, dataIsNull: bool)
      returns (outcome: Outcome)
      modifies this
      ensures queryError.Some? ==> outcome == Failed(queryError.value) && rules == old(rules)
      ensures queryError.None? ==> outcome == Done
      ensures queryError.None? && dataIsNull ==> rules == []
      ensures queryError.None? && !dataIsNull ==> rules == RulesOfType(table, deviceType)
    {
      if queryError.Some? {
        return Failed(queryError.value);
      }
      rules := if dataIsNull then [] else RulesOfType(table, deviceType);
      outcome := Done;
    }

    /** `evaluateMetrics`: walks the rules in order and executes the action
        of each rule whose condition holds, stopping at the first handler
        that throws. Reads the rules without changing them. */
    method EvaluateMetrics(deviceId: string, metrics: Metrics, owner: Option<string>, failing: set<nat>)
      returns (effects: seq<Effect>, aborted: bool)
      ensures Run(effects, aborted) == Evaluate(rules, 0, deviceId, metrics, owner, failing)
    {
      effects, aborted := [], false;
      var i := 0;
      while i < |rules|
        invariant 0 <= i <= |rules|
        invariant Evaluate(rules, 0, deviceId, metrics, owner, failing)
               == (var rest := Evaluate(rules, i, deviceId, metrics, owner, failing);
                   Run(effects + rest.effects, rest.aborted))
        decreases |rules| - i
      {
        if CheckCondition(metrics, rules[i].condition) {
          var step := Execute(deviceId, rules[i].action, owner, i in failing);
          if step.aborted {
            assert effects + [] == effects;
            aborted := true;
            return;
          }
          ghost var rest := Evaluate(rules, i + 1, deviceId, metrics, owner, failing);
          assert effects + (step.effects + rest.effects) == effects + step.effects + rest.effects;
          effects := effects + step.effects;
        }
        i := i + 1;
      }
      assert effects + [] == effects;
    }
  }
}

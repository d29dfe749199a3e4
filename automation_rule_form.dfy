/** The form that creates or edits an automation rule: its initial state
    (defaults through JavaScript's `||`), the field handlers that rebuild the
    form state from the previous one, and the record written on submit. */
module AutomationRuleForm {
  import opened Common
  import opened Automation

  /** The rule being edited, as the form receives it. */
  datatype ExistingRule = ExistingRule(id: string, name: string, condition: Condition, action: Action)

  datatype FormData = FormData(name: string, condition: Condition, action: Action)

  const MetricChoices: seq<string> := ["cpu", "memory", "disk", "network"]
  const OperatorChoices: seq<string> := [">", "<", "==", ">=", "<="]
  const ActionKindChoices: seq<string> := ["notify", "restart_service", "scale_resources"]

  const DefaultForm: FormData := FormData("", Condition("cpu", ">", 80.0), Action("notify", map[]))

  /** `a || b` on a string: `b` when `a` is empty. */
  function OrString(a: string, b: string): (r: string)
    ensures a != "" ==> r == a
    ensures a == "" ==> r == b
  {
    if a == "" then b else a
  }

  /** `a || b` on a number: `b` when `a` is 0. */
  function OrNumber(a: real, b: real): (r: real)
    ensures a != 0.0 ==> r == a
    ensures a == 0.0 ==> r == b
  {
    if a == 0.0 then b else a
  }

  /** The initial form state. Every field of an existing rule is taken
      through `||`, so empty strings and a zero threshold fall back to the
      defaults; the params object is always taken as it is. */
  function InitialForm(existing: Option<ExistingRule>): (f: FormData)
    ensures existing.None? ==> f == DefaultForm
  {
    match existing
    case None => DefaultForm
    case Some(e) =>
      FormData(
        OrString(e.name, ""),
        Condition(OrString(e.condition.metric, "cpu"), OrString(e.condition.operator, ">"),
                  OrNumber(e.condition.value, 80.0)),
        Action(OrString(e.action.kind, "notify"), e.action.params))
  }

  /** An existing rule with non-empty strings and a non-zero threshold is
      loaded into the form unchanged. */
  lemma InitialFormKeepsTruthyFields(e: ExistingRule)
    requires e.condition.metric != "" && e.condition.operator != "" && e.action.kind != ""
    requires e.condition.value != 0.0
    ensures InitialForm(Some(e)) == FormData(e.name, e.condition, e.action)
  {
  }

  /** A threshold of 0 cannot be edited as such: the form shows 80, and so
      does the record saved from it unless the user retypes the value. */
  lemma ZeroThresholdBecomesEighty(e: ExistingRule)
    requires e.condition.value == 0.0
    ensures InitialForm(Some(e)).condition.value == 80.0
    ensures e.condition.metric == "" ==> InitialForm(Some(e)).condition.metric == "cpu"
    ensures InitialForm(Some(e)).name == e.name
  {
  }

  /** The rule a fresh form would save fires exactly when CPU is above 80. */
  lemma DefaultRuleFiresAboveEighty(metrics: Metrics)
    ensures CheckCondition(metrics, DefaultForm.condition)
        <==> "cpu" in metrics && metrics["cpu"] > 80.0
  {
  }

  function SetName(f: FormData, name: string): (g: FormData)
    ensures g.name == name && g.condition == f.condition && g.action == f.action
  {
    f.(name := name)
  }

  function SetMetric(f: FormData, metric: string): (g: FormData)
    ensures g.condition.metric == metric
    ensures g.condition.operator == f.condition.operator && g.condition.value == f.condition.value
    ensures g.name == f.name && g.action == f.action
  {
    f.(condition := f.condition.(metric := metric))
  }

  function SetOperator(f: FormData, operator: string): (g: FormData)
    ensures g.condition.operator == operator
    ensures g.condition.metric == f.condition.metric && g.condition.value == f.condition.value
    ensures g.name == f.name && g.action == f.action
  {
    f.(condition := f.condition.(operator := operator))
  }

  /** The threshold input, after `Number(...)` of the typed text. */
  function SetValue(f: FormData, value: real): (g: FormData)
    ensures g.condition.value == value
    ensures g.condition.metric == f.condition.metric && g.condition.operator == f.condition.operator
    ensures g.name == f.name && g.action == f.action
  {
    f.(condition := f.condition.(value := value))
  }

  /** Choosing an action type always starts from empty params. */
  function SetActionKind(f: FormData, kind: string): (g: FormData)
    ensures g.action.kind == kind && g.action.params == map[]
    ensures g.name == f.name && g.condition == f.condition
  {
    f.(action := Action(kind, map[]))
  }

  /** The service (a string), CPU-limit and memory-limit (numbers) inputs:
      one key of params is set, every other key and field is kept. */
  function SetParam(f: FormData, key: string, v: Value): (g: FormData)
    ensures key in g.action.params && g.action.params[key] == v
    ensures forall k :: k in f.action.params && k != key ==> k in g.action.params && g.action.params[k] == f.action.params[k]
    ensures forall k :: k in g.action.params ==> k == key || k in f.action.params
    ensures g.action.kind == f.action.kind && g.name == f.name && g.condition == f.condition
  {
    f.(action := f.action.(params := f.action.params[key := v]))
  }

  /** Switching the action type discards every parameter typed before. */
  lemma KindChangeDiscardsParams(f: FormData, key: string, v: Value, kind: string)
    ensures SetActionKind(SetParam(f, key, v), kind) == SetActionKind(f, kind)
  {
  }

  /** Editing two different parameters gives the same form in either order. */
  lemma ParamEditsCommute(f: FormData, k1: string, v1: Value, k2: string, v2: Value)
    requires k1 != k2
    ensures SetParam(SetParam(f, k1, v1), k2, v2) == SetParam(SetParam(f, k2, v2), k1, v1)
  {
    assert f.action.params[k1 := v1][k2 := v2] == f.action.params[k2 := v2][k1 := v1];
  }

  /** The record written on submit. */
  datatype RuleData = RuleData(deviceId: string, name: string, condition: Condition, action: Action, enabled: bool)

  /** The write performed on submit: an update of the existing rule by id,
      or an insert. */
  datatype Write = Update(id: string, data: RuleData) | Insert(data: RuleData)

  function BuildRuleData(f: FormData, deviceId: string): (d: RuleData)
    ensures d.enabled && d.deviceId == deviceId
    ensures d.name == f.name && d.condition == f.condition && d.action == f.action
  {
    RuleData(deviceId, f.name, f.condition, f.action, true)
  }

  function SubmitWrite(f: FormData, deviceId: string, existing: Option<ExistingRule>): (w: Write)
    ensures existing.Some? <==> w.Update?
    ensures existing.Some? ==> w.id == existing.value.id
    ensures w.data == BuildRuleData(f, deviceId)
  {
    match existing
    case Some(e) => Update(e.id, BuildRuleData(f, deviceId))
    case None => Insert(BuildRuleData(f, deviceId))
  }

  /** The toast shown once the write returns. */
  function SubmitToast(existing: Option<ExistingRule>, writeError: Option<string>): (message: string)
    ensures writeError.Some? ==> message == "Failed to save rule"
    ensures writeError.None? && existing.Some? ==> message == "Rule updated successfully"
    ensures writeError.None? && existing.None? ==> message == "Rule created successfully"
  {
    if writeError.Some? then "Failed to save rule"
    else if existing.Some? then "Rule updated successfully"
    else "Rule created successfully"
  }

  /** The stored row after an update: the written columns replaced, the rest
      (id and device type) kept. */
  function ApplyUpdate(row: Rule, d: RuleData): (updated: Rule)
    ensures updated.id == row.id && updated.deviceType == row.deviceType
    ensures updated.enabled == d.enabled && updated.deviceId == d.deviceId
    ensures updated.condition == d.condition && updated.action == d.action && updated.name == d.name
  {
    row.(deviceId := d.deviceId, name := d.name, enabled := d.enabled, condition := d.condition, action := d.action)
  }

  /** The stored row after an insert. The form writes no `device_type`, so the
      column is null. */
  function InsertedRow(id: string, d: RuleData): (row: Rule)
    ensures row.deviceType.None? && row.enabled == d.enabled && row.deviceId == d.deviceId
    ensures row.condition == d.condition && row.action == d.action
  {
    Rule(id, None, d.deviceId, d.name, d.enabled, d.condition, d.action)
  }

  /** Saving an edited rule always re-enables it, even when it was disabled. */
  lemma SaveReEnables(row: Rule, f: FormData, deviceId: string)
    requires !row.enabled
    ensures ApplyUpdate(row, BuildRuleData(f, deviceId)).enabled
  {
  }

  /** A rule created through the form is keyed by device id, while the engine
      loads rules by device type: the new row is never among the loaded
      rules, whatever type is requested. */
  lemma {:induction false} CreatedRuleNeverLoaded(table: seq<Rule>, id: string, f: FormData,
                                                  deviceId: string, deviceType: string)
    ensures RulesOfType(table + [InsertedRow(id, BuildRuleData(f, deviceId))], deviceType)
         == RulesOfType(table, deviceType)
  {
    var row := InsertedRow(id, BuildRuleData(f, deviceId));
    RulesOfTypeConcat(table, [row], deviceType);
    assert RulesOfType([row], deviceType) == RulesOfType([row][1..], deviceType);
    assert RulesOfType(table, deviceType) + [] == RulesOfType(table, deviceType);
  }

  /** The form's operator and action menus offer exactly what the engine
      understands. */
  lemma ChoicesMatchEngine()
    ensures forall op :: op in OperatorChoices <==> op in Operators
    ensures forall k :: k in ActionKindChoices <==> IsKnownKind(k)
  {
  }
}

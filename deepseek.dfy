/** The role-specific prompt sent to the chat model: a template chosen by
    the user's role, with the message appended verbatim. */
module Deepseek {
  import opened Common

  const AdminTemplate: string := "Como especialista em gestão de TI, responda profissionalmente: "
  const SupportTemplate: string := "Como técnico de suporte, explique detalhadamente: "
  const DefaultTemplate: string := "Responda de forma clara e didática: "

  /** The names every plain JavaScript object inherits from
      `Object.prototype`; looking one of them up in the template object
      finds the inherited member, which is truthy. */
  const InheritedKeys: set<string> :=
    {"constructor", "__proto__", "toString", "toLocaleString", "valueOf", "hasOwnProperty", "isPrototypeOf",
     "propertyIsEnumerable", "__defineGetter__", "__defineSetter__", "__lookupGetter__", "__lookupSetter__"}

  /** What `prompts[role] || prompts.default` evaluates to: a prompt text,
      or an inherited member of the object, which is not a text at all. */
  datatype Lookup = Text(prompt: string) | Inherited(name: string)

  /** `getRoleSpecificPrompt` as written: the role indexes the template
      object directly, so a role named like an inherited member yields
      that member instead of the default template. */
  function RolePromptAsWritten(role: string, message: string): (r: Lookup)
    ensures role in InheritedKeys ==> r == Inherited(role)
    ensures role !in InheritedKeys ==> r == Text(RolePrompt(role, message))
  {
    if role == "admin" then Text(AdminTemplate + message)
    else if role == "support" then Text(SupportTemplate + message)
    else if role == "default" then Text(DefaultTemplate + message)
    else if role in InheritedKeys then Inherited(role)
    else Text(DefaultTemplate + message)
  }

  /** `getRoleSpecificPrompt` with only the template object's own keys
      looked up: the admin and support templates for those roles, the
      default template for every other role. */
  function RolePrompt(role: string, message: string): (prompt: string)
  {
    if role == "admin" then AdminTemplate + message
    else if role == "support" then SupportTemplate + message
    else DefaultTemplate + message
  }

  /** Every prompt is a template followed by the message verbatim; the
      admin and support roles get their own template and any other role
      the same text as `default`. */
  lemma RolePromptShape(role: string, message: string)
    ensures role == "admin" ==> RolePrompt(role, message) == AdminTemplate + message
    ensures role == "support" ==> RolePrompt(role, message) == SupportTemplate + message
    ensures role != "admin" && role != "support" ==> RolePrompt(role, message) == RolePrompt("default", message)
    ensures exists t :: t in {AdminTemplate, SupportTemplate, DefaultTemplate} && RolePrompt(role, message) == t + message
    ensures var p := RolePrompt(role, message); |p| >= |message| && p[|p| - |message|..] == message
  {
    var p := RolePrompt(role, message);
    var t := if role == "admin" then AdminTemplate else if role == "support" then SupportTemplate else DefaultTemplate;
    assert p == t + message;
    assert p[|p| - |message|..] == message;
  }

  /** As written, a user whose role is `constructor` gets no prompt text
      (the user's message is lost), where the default template was meant. */
  lemma InheritedRoleLosesMessage(message: string)
    ensures RolePromptAsWritten("constructor", message) == Inherited("constructor")
    ensures RolePrompt("constructor", message) == DefaultTemplate + message
  {
  }
}

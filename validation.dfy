/** The input schemas of the dashboard: sign-in, profile, device and metric
    inputs, each as the list of problems found (empty when the input is
    valid). The e-mail format check is a predicate given by the caller. */
module Validation {
  import opened Common

  /** A problem with one field: a message the schema sets, or the schema
      library's own message. */
  datatype Issue = Custom(field: string, message: string) | Default(field: string)

  const InvalidEmail: string := "Email inválido"
  const ShortPassword: string := "Senha deve ter no mínimo 8 caracteres"
  const ShortFullName: string := "Nome deve ter no mínimo 3 caracteres"
  const ShortDeviceName: string := "Nome deve ter no mínimo 2 caracteres"
  const MissingOs: string := "Sistema operacional é obrigatório"

  /** `loginSchema`: a well-formed e-mail and a password of at least 8
      characters. */
  function LoginIssues(email: string, password: string, isEmail: string -> bool): (issues: seq<Issue>)
    ensures issues == [] <==> isEmail(email) && |password| >= 8
    ensures Custom("email", InvalidEmail) in issues <==> !isEmail(email)
    ensures Custom("password", ShortPassword) in issues <==> |password| < 8
    ensures |issues| <= 2
  {
    (if isEmail(email) then [] else [Custom("email", InvalidEmail)])
    + (if |password| >= 8 then [] else [Custom("password", ShortPassword)])
  }

  /** A password of exactly 8 characters passes; 7 does not. */
  lemma PasswordBoundary(email: string, isEmail: string -> bool)
    requires isEmail(email)
    ensures LoginIssues(email, "12345678", isEmail) == []
    ensures LoginIssues(email, "1234567", isEmail) == [Custom("password", ShortPassword)]
  {
  }

  const ServiceTypes: seq<string> := ["technical", "maintenance", "consulting"]

  datatype ProfileInput = ProfileInput(fullName: string, phone: Option<string>, companyName: Option<string>,
                                       isServiceProvider: bool, serviceType: Option<string>)

  /** `profileSchema`: a full name of at least 3 characters and, when given,
      a service type from the three offered. Phone and company are free. */
  function ProfileIssues(p: ProfileInput): (issues: seq<Issue>)
    ensures issues == [] <==> |p.fullName| >= 3 && (p.serviceType.None? || p.serviceType.value in ServiceTypes)
    ensures Custom("fullName", ShortFullName) in issues <==> |p.fullName| < 3
  {
    (if |p.fullName| >= 3 then [] else [Custom("fullName", ShortFullName)])
    + (if p.serviceType.None? || p.serviceType.value in ServiceTypes then [] else [Default("serviceType")])
  }

  /** Phone and company name never make a profile invalid. */
  lemma ProfileIgnoresContactFields(p: ProfileInput, phone: Option<string>, company: Option<string>)
    ensures ProfileIssues(p.(phone := phone, companyName := company)) == ProfileIssues(p)
  {
  }

  datatype DeviceInput = DeviceInput(name: string, deviceType: string, os: string)

  /** `deviceSchema`: a name of at least 2 characters, type desktop or
      mobile, and a non-empty operating system. */
  function DeviceIssues(d: DeviceInput): (issues: seq<Issue>)
    ensures issues == [] <==> |d.name| >= 2 && d.deviceType in ["desktop", "mobile"] && d.os != ""
    ensures Custom("os", MissingOs) in issues <==> d.os == ""
    ensures Custom("name", ShortDeviceName) in issues <==> |d.name| < 2
  {
    (if |d.name| >= 2 then [] else [Custom("name", ShortDeviceName)])
    + (if d.deviceType in ["desktop", "mobile"] then [] else [Default("type")])
    + (if |d.os| >= 1 then [] else [Custom("os", MissingOs)])
  }

  datatype MetricInput = MetricInput(cpuUsage: real, memoryUsage: real, diskUsage: real)

  predicate InPercentRange(x: real)
  {
    0.0 <= x <= 100.0
  }

  /** `metricSchema`: each usage lies in [0, 100], bounds included. */
  function MetricIssues(m: MetricInput): (issues: seq<Issue>)
    ensures issues == [] <==> InPercentRange(m.cpuUsage) && InPercentRange(m.memoryUsage) && InPercentRange(m.diskUsage)
    ensures Default("cpuUsage") in issues <==> !InPercentRange(m.cpuUsage)
    ensures Default("memoryUsage") in issues <==> !InPercentRange(m.memoryUsage)
    ensures Default("diskUsage") in issues <==> !InPercentRange(m.diskUsage)
  {
    (if InPercentRange(m.cpuUsage) then [] else [Default("cpuUsage")])
    + (if InPercentRange(m.memoryUsage) then [] else [Default("memoryUsage")])
    + (if InPercentRange(m.diskUsage) then [] else [Default("diskUsage")])
  }
}

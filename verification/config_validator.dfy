/** The development configuration validator (`netlify/functions/dev-config.js`):
    a stateless handler from (HTTP method, environment, capture time) to
    (status code, headers, body). Outside production it classifies a fixed
    table of required and optional variable names as set or unset, flags
    template placeholders in the required ones, counts what is missing and
    derives a verdict.
 */
module ConfigValidator {
  import opened Env

  /** The backend credential set; a missing one makes the configuration unhealthy. */
  const RequiredVars: seq<string> := [
    "FIREBASE_API_KEY",
    "FIREBASE_AUTH_DOMAIN",
    "FIREBASE_PROJECT_ID",
    "FIREBASE_STORAGE_BUCKET",
    "FIREBASE_MESSAGING_SENDER_ID",
    "FIREBASE_APP_ID"
  ]

  /** Service keys tracked for visibility only. */
  const OptionalVars: seq<string> := [
    "OPENAI_API_KEY",
    "GEMINI_API_KEY",
    "GOOGLE_ANALYTICS_ID",
    "SENTRY_DSN",
    "NETLIFY_SITE_ID"
  ]

  const Headers: seq<(string, string)> := [
    ("Access-Control-Allow-Origin", "*"),
    ("Access-Control-Allow-Methods", "GET, POST, OPTIONS"),
    ("Access-Control-Allow-Headers", "Content-Type, Authorization"),
    ("Content-Type", "application/json"),
    ("Cache-Control", "no-cache")
  ]

  const ProductionError := "Config validation not available in production"
  const HealthyMessage := "All required configuration variables are set"
  const MissingSuffix := " required variables are missing"

  datatype RequiredCheck = RequiredCheck(configured: bool, hasValue: bool, placeholder: bool)

  datatype OptionalCheck = OptionalCheck(configured: bool, hasValue: bool)

  datatype FlutterSettings = FlutterSettings(
    buildMode: string,
    webRenderer: string,
    debug: bool,
    sourceMaps: bool)

  datatype NetlifySettings = NetlifySettings(
    siteId: bool,
    isDev: bool,
    branch: string,
    buildId: string)

  /** The four subsections of `validation`; the two check tables keep the
      insertion order of the JavaScript object they model. */
  datatype Validation = Validation(
    required: seq<(string, RequiredCheck)>,
    optional: seq<(string, OptionalCheck)>,
    flutter: FlutterSettings,
    netlify: NetlifySettings)

  datatype Summary = Summary(requiredMissing: nat, optionalMissing: nat, totalConfigured: nat)

  datatype ConfigReport = ConfigReport(
    timestamp: string,
    environment: string,
    validation: Validation,
    summary: Summary,
    status: string,
    message: string)

  datatype Body =
    | EmptyBody
    | ErrorBody(error: string)
    | ReportBody(report: ConfigReport)

  datatype Response = Response(statusCode: int, headers: seq<(string, string)>, body: Body)

  /** Reading `object[name]` of an object built by inserting `entries` in order:
      the entry under that name, or undefined (the tables never repeat a name). */
  function Lookup<T>(entries: seq<(string, T)>, name: string): (v: Option<T>)
    ensures v.None? <==> forall i :: 0 <= i < |entries| ==> entries[i].0 != name
  {
    if entries == [] then None
    else if entries[0].0 == name then Some(entries[0].1)
    else Lookup(entries[1..], name)
  }

  /** The gate: `process.env.NODE_ENV === 'production'`. */
  predicate IsProduction(env: Environment) {
    Equals(env, "NODE_ENV", "production")
  }

  /** The value carries one of the markers of an unreplaced template value. */
  predicate HasPlaceholderMarker(value: string) {
    Contains(value, "your_") || Contains(value, "REPLACE_ME")
  }

  /** Number of `names` that are unset or empty in `env`. */
  function CountUnset(env: Environment, names: seq<string>): (n: nat)
    ensures n <= |names|
    ensures n == 0 <==> forall i :: 0 <= i < |names| ==> IsSet(env, names[i])
    ensures n == |names| <==> forall i :: 0 <= i < |names| ==> !IsSet(env, names[i])
  {
    if names == [] then 0
    else (if IsSet(env, names[0]) then 0 else 1) + CountUnset(env, names[1..])
  }

  /** The record stored under a required name. */
  function CheckRequired(env: Environment, name: string): (c: RequiredCheck)
    ensures c.configured <==> IsSet(env, name)
    ensures c.hasValue == c.configured
    ensures !c.configured ==> c.placeholder
  {
    var isSet := IsSet(env, name);
    RequiredCheck(
      isSet,
      isSet && |env[name]| > 0,
      !isSet || HasPlaceholderMarker(env[name]))
  }

  /** The record stored under an optional name. */
  function CheckOptional(env: Environment, name: string): (c: OptionalCheck)
    ensures c.configured <==> IsSet(env, name)
    ensures c.hasValue == c.configured
  {
    var isSet := IsSet(env, name);
    OptionalCheck(isSet, isSet && |env[name]| > 0)
  }

  /** The `forEach` over the required names: one entry per name, in order,
      and each name bumps either `requiredMissing` or `totalConfigured`. */
  function CheckRequiredVars(env: Environment, names: seq<string>, acc: Summary)
    : (r: (seq<(string, RequiredCheck)>, Summary))
    ensures |r.0| == |names|
    ensures forall i :: 0 <= i < |names| ==> r.0[i] == (names[i], CheckRequired(env, names[i]))
    ensures r.1.requiredMissing == acc.requiredMissing + CountUnset(env, names)
    ensures r.1.totalConfigured == acc.totalConfigured + (|names| - CountUnset(env, names))
    ensures r.1.optionalMissing == acc.optionalMissing
  {
    if names == [] then ([], acc)
    else
      var check := CheckRequired(env, names[0]);
      var acc' :=
        if !check.configured then acc.(requiredMissing := acc.requiredMissing + 1)
        else acc.(totalConfigured := acc.totalConfigured + 1);
      var rest := CheckRequiredVars(env, names[1..], acc');
      ([(names[0], check)] + rest.0, rest.1)
  }

  /** The `forEach` over the optional names: one entry per name, in order,
      and each name bumps either `optionalMissing` or `totalConfigured`. */
  function CheckOptionalVars(env: Environment, names: seq<string>, acc: Summary)
    : (r: (seq<(string, OptionalCheck)>, Summary))
    ensures |r.0| == |names|
    ensures forall i :: 0 <= i < |names| ==> r.0[i] == (names[i], CheckOptional(env, names[i]))
    ensures r.1.optionalMissing == acc.optionalMissing + CountUnset(env, names)
    ensures r.1.totalConfigured == acc.totalConfigured + (|names| - CountUnset(env, names))
    ensures r.1.requiredMissing == acc.requiredMissing
  {
    if names == [] then ([], acc)
    else
      var check := CheckOptional(env, names[0]);
      var acc' :=
        if !check.configured then acc.(optionalMissing := acc.optionalMissing + 1)
        else acc.(totalConfigured := acc.totalConfigured + 1);
      var rest := CheckOptionalVars(env, names[1..], acc');
      ([(names[0], check)] + rest.0, rest.1)
  }

  /** The `flutter` subsection: strings fall back to "not-set", flags need the exact text "true". */
  function Flutter(env: Environment): (f: FlutterSettings)
    ensures IsSet(env, "FLUTTER_BUILD_MODE") ==> f.buildMode == env["FLUTTER_BUILD_MODE"]
    ensures !IsSet(env, "FLUTTER_BUILD_MODE") ==> f.buildMode == "not-set"
    ensures IsSet(env, "FLUTTER_WEB_USE_SKIA") ==> f.webRenderer == env["FLUTTER_WEB_USE_SKIA"]
    ensures !IsSet(env, "FLUTTER_WEB_USE_SKIA") ==> f.webRenderer == "not-set"
    ensures f.debug <==> "FLUTTER_WEB_DEBUG" in env && env["FLUTTER_WEB_DEBUG"] == "true"
    ensures f.sourceMaps <==>
              "FLUTTER_WEB_BUILD_WITH_SOURCEMAPS" in env && env["FLUTTER_WEB_BUILD_WITH_SOURCEMAPS"] == "true"
  {
    FlutterSettings(
      OrDefault(env, "FLUTTER_BUILD_MODE", "not-set"),
      OrDefault(env, "FLUTTER_WEB_USE_SKIA", "not-set"),
      IsTrue(env, "FLUTTER_WEB_DEBUG"),
      IsTrue(env, "FLUTTER_WEB_BUILD_WITH_SOURCEMAPS"))
  }

  /** The `netlify` subsection. */
  function Netlify(env: Environment): (n: NetlifySettings)
    ensures n.siteId <==> IsSet(env, "NETLIFY_SITE_ID")
    ensures n.isDev <==> "NETLIFY_DEV" in env && env["NETLIFY_DEV"] == "true"
    ensures IsSet(env, "NETLIFY_BRANCH") ==> n.branch == env["NETLIFY_BRANCH"]
    ensures !IsSet(env, "NETLIFY_BRANCH") ==> n.branch == "not-set"
    ensures IsSet(env, "BUILD_ID") ==> n.buildId == env["BUILD_ID"]
    ensures !IsSet(env, "BUILD_ID") ==> n.buildId == "not-set"
  {
    NetlifySettings(
      IsSet(env, "NETLIFY_SITE_ID"),
      IsTrue(env, "NETLIFY_DEV"),
      OrDefault(env, "NETLIFY_BRANCH", "not-set"),
      OrDefault(env, "BUILD_ID", "not-set"))
  }

  /** The human-readable verdict line. */
  function Message(requiredMissing: nat): string {
    if requiredMissing == 0 then HealthyMessage
    else NatToString(requiredMissing) + MissingSuffix
  }

  /** The report assembled outside production. */
  function Validate(env: Environment, now: string): (report: ConfigReport)
    ensures report.timestamp == now
    ensures report.environment == OrDefault(env, "NODE_ENV", "unknown")
    ensures report.validation.flutter == Flutter(env)
    ensures report.validation.netlify == Netlify(env)
    ensures report.message == Message(report.summary.requiredMissing)
    ensures |report.validation.required| == |RequiredVars|
    ensures forall i :: 0 <= i < |RequiredVars| ==>
              report.validation.required[i] == (RequiredVars[i], CheckRequired(env, RequiredVars[i]))
    ensures |report.validation.optional| == |OptionalVars|
    ensures forall i :: 0 <= i < |OptionalVars| ==>
              report.validation.optional[i] == (OptionalVars[i], CheckOptional(env, OptionalVars[i]))
    ensures report.summary.requiredMissing == CountUnset(env, RequiredVars)
    ensures report.summary.optionalMissing == CountUnset(env, OptionalVars)
    ensures report.summary.requiredMissing + report.summary.optionalMissing + report.summary.totalConfigured
            == |RequiredVars| + |OptionalVars|
    ensures report.status == "healthy" <==> report.summary.requiredMissing == 0
    ensures report.status != "healthy" ==> report.status == "configuration-issues"
  {
    var (required, afterRequired) := CheckRequiredVars(env, RequiredVars, Summary(0, 0, 0));
    var (optional, summary) := CheckOptionalVars(env, OptionalVars, afterRequired);
    var healthy := summary.requiredMissing == 0;
    ConfigReport(
      now,
      OrDefault(env, "NODE_ENV", "unknown"),
      Validation(required, optional, Flutter(env), Netlify(env)),
      summary,
      if healthy then "healthy" else "configuration-issues",
      Message(summary.requiredMissing))
  }

  /** The handler. */
  function Handle(httpMethod: string, env: Environment, now: string): (r: Response)
    ensures r.headers == Headers
    ensures r.statusCode in {200, 400, 403}
    ensures httpMethod == "OPTIONS" ==> r.statusCode == 200 && r.body == EmptyBody
    ensures httpMethod != "OPTIONS" && IsProduction(env) ==>
              r.statusCode == 403 && r.body == ErrorBody(ProductionError)
    ensures httpMethod != "OPTIONS" && !IsProduction(env) ==>
              r.body == ReportBody(Validate(env, now))
              && r.body.report.summary.requiredMissing == CountUnset(env, RequiredVars)
    ensures r.body.ReportBody? ==>
              (r.statusCode == 200 <==> r.body.report.summary.requiredMissing == 0)
              && (r.statusCode == 200 <==> r.body.report.status == "healthy")
              && (r.statusCode != 200 ==> r.statusCode == 400)
  {
    if httpMethod == "OPTIONS" then
      Response(200, Headers, EmptyBody)
    else if IsProduction(env) then
      Response(403, Headers, ErrorBody(ProductionError))
    else
      var report := Validate(env, now);
      var isHealthy := report.summary.requiredMissing == 0;
      Response(if isHealthy then 200 else 400, Headers, ReportBody(report))
  }
}

/** The development health reporter (`netlify/functions/dev-health.js`): a
    stateless handler from (HTTP method, environment, invocation context,
    capture time) to (status code, headers, body). It answers a CORS preflight,
    otherwise assembles a fixed-shape snapshot of sentinel-defaulted values and
    exact-"true" flags, and turns a fault during assembly into a 500 response.
 */
module HealthReporter {
  import opened Env

  const Headers: seq<(string, string)> := [
    ("Access-Control-Allow-Origin", "*"),
    ("Access-Control-Allow-Methods", "GET, POST, OPTIONS"),
    ("Access-Control-Allow-Headers", "Content-Type, Authorization"),
    ("Content-Type", "application/json"),
    ("Cache-Control", "no-cache, no-store, must-revalidate")
  ]

  const PreflightMessage := "CORS preflight success"

  /** The fixed label reported in place of any environment name. */
  const EnvironmentLabel := "development"

  /** The fault raised by reading `clientContext` of an undefined context
      object (V8's wording of the TypeError; a null context would say "null"
      instead of "undefined"). */
  const MissingContextFault := "Cannot read properties of undefined (reading 'clientContext')"

  /** The platform's per-call metadata; `clientContext` stands for whatever the
      platform supplies there, None when it is undefined or null. */
  datatype InvocationContext = InvocationContext(clientContext: Option<string>)

  datatype Deployment = Deployment(netlifyContext: string, region: string, buildId: string)

  datatype ConfigSnapshot = ConfigSnapshot(nodeEnv: string, flutterBuildMode: string, firebaseProjectId: string)

  datatype Features = Features(debugMode: bool, sourceMaps: bool, devTools: bool)

  datatype HealthReport = HealthReport(
    status: string,
    environment: string,
    timestamp: string,
    deployment: Deployment,
    config: ConfigSnapshot,
    features: Features)

  datatype ErrorReport = ErrorReport(status: string, environment: string, timestamp: string, error: string)

  datatype Body =
    | PreflightBody(message: string)
    | HealthyBody(report: HealthReport)
    | ErrorBody(failure: ErrorReport)

  datatype Response = Response(statusCode: int, headers: seq<(string, string)>, body: Body)

  /** The outcome of the guarded block: a report, or the description of the
      fault that interrupted it. */
  datatype Assembly = Assembled(report: HealthReport) | Faulted(description: string)

  function DeploymentBlock(env: Environment, context: InvocationContext): (d: Deployment)
    ensures Truthy(context.clientContext) ==> d.netlifyContext == context.clientContext.value
    ensures !Truthy(context.clientContext) ==> d.netlifyContext == "unknown"
    ensures IsSet(env, "AWS_REGION") ==> d.region == env["AWS_REGION"]
    ensures !IsSet(env, "AWS_REGION") ==> d.region == "unknown"
    ensures IsSet(env, "BUILD_ID") ==> d.buildId == env["BUILD_ID"]
    ensures !IsSet(env, "BUILD_ID") ==> d.buildId == "local"
  {
    Deployment(
      OrElse(context.clientContext, "unknown"),
      OrDefault(env, "AWS_REGION", "unknown"),
      OrDefault(env, "BUILD_ID", "local"))
  }

  function ConfigBlock(env: Environment): (c: ConfigSnapshot)
    ensures IsSet(env, "NODE_ENV") ==> c.nodeEnv == env["NODE_ENV"]
    ensures !IsSet(env, "NODE_ENV") ==> c.nodeEnv == "unknown"
    ensures IsSet(env, "FLUTTER_BUILD_MODE") ==> c.flutterBuildMode == env["FLUTTER_BUILD_MODE"]
    ensures !IsSet(env, "FLUTTER_BUILD_MODE") ==> c.flutterBuildMode == "unknown"
    ensures IsSet(env, "FIREBASE_PROJECT_ID") ==> c.firebaseProjectId == env["FIREBASE_PROJECT_ID"]
    ensures !IsSet(env, "FIREBASE_PROJECT_ID") ==> c.firebaseProjectId == "not-configured"
  {
    ConfigSnapshot(
      OrDefault(env, "NODE_ENV", "unknown"),
      OrDefault(env, "FLUTTER_BUILD_MODE", "unknown"),
      OrDefault(env, "FIREBASE_PROJECT_ID", "not-configured"))
  }

  function FeaturesBlock(env: Environment): (f: Features)
    ensures f.debugMode <==> "FLUTTER_WEB_DEBUG" in env && env["FLUTTER_WEB_DEBUG"] == "true"
    ensures f.sourceMaps <==>
              "FLUTTER_WEB_BUILD_WITH_SOURCEMAPS" in env && env["FLUTTER_WEB_BUILD_WITH_SOURCEMAPS"] == "true"
    ensures f.devTools <==> "ENABLE_DEV_TOOLS" in env && env["ENABLE_DEV_TOOLS"] == "true"
  {
    Features(
      IsTrue(env, "FLUTTER_WEB_DEBUG"),
      IsTrue(env, "FLUTTER_WEB_BUILD_WITH_SOURCEMAPS"),
      IsTrue(env, "ENABLE_DEV_TOOLS"))
  }

  /** The body of the `try` block. Reading `context.clientContext` is its only
      step that can fault, and it does so exactly when there is no context. */
  function Assemble(env: Environment, context: Option<InvocationContext>, now: string): (a: Assembly)
    ensures a.Faulted? <==> context.None?
    ensures a.Assembled? ==>
              && a.report.status == "healthy"
              && a.report.environment == EnvironmentLabel
              && a.report.timestamp == now
              && a.report.deployment == DeploymentBlock(env, context.value)
              && a.report.config == ConfigBlock(env)
              && a.report.features == FeaturesBlock(env)
  {
    match context
    case None => Faulted(MissingContextFault)
    case Some(ctx) =>
      Assembled(HealthReport(
        "healthy",
        EnvironmentLabel,
        now,
        DeploymentBlock(env, ctx),
        ConfigBlock(env),
        FeaturesBlock(env)))
  }

  /** The handler. */
  function Handle(httpMethod: string, env: Environment, context: Option<InvocationContext>, now: string)
    : (r: Response)
    ensures r.headers == Headers
    ensures r.statusCode == 200 || r.statusCode == 500
    ensures httpMethod == "OPTIONS" ==> r.statusCode == 200 && r.body == PreflightBody(PreflightMessage)
    ensures r.statusCode == 500 <==> httpMethod != "OPTIONS" && context.None?
    ensures r.statusCode == 500 ==>
              r.body.ErrorBody? && r.body.failure.status == "error"
              && r.body.failure.environment == EnvironmentLabel && r.body.failure.timestamp == now
    ensures httpMethod != "OPTIONS" && context.Some? ==>
              r.body == HealthyBody(Assemble(env, context, now).report)
    ensures httpMethod != "OPTIONS" && r.statusCode == 200 ==>
              r.body.HealthyBody? && r.body.report.status == "healthy"
              && r.body.report.environment == EnvironmentLabel
  {
    if httpMethod == "OPTIONS" then
      Response(200, Headers, PreflightBody(PreflightMessage))
    else
      match Assemble(env, context, now)
      case Assembled(report) => Response(200, Headers, HealthyBody(report))
      case Faulted(description) =>
        Response(500, Headers, ErrorBody(ErrorReport("error", EnvironmentLabel, now, description)))
  }
}

/** Properties of the health reporter that relate whole responses: what the
    sentinels are when nothing is configured, that the environment name never
    gates or relabels the report, and what the response depends on.
 */
module HealthProperties {
  import opened Env
  import opened HealthReporter

  /** Every variable the reporter reads. */
  const ReadVars: seq<string> := [
    "AWS_REGION",
    "BUILD_ID",
    "NODE_ENV",
    "FLUTTER_BUILD_MODE",
    "FIREBASE_PROJECT_ID",
    "FLUTTER_WEB_DEBUG",
    "FLUTTER_WEB_BUILD_WITH_SOURCEMAPS",
    "ENABLE_DEV_TOOLS"
  ]

  /** With no variable set and no client context, every field holds its sentinel. */
  lemma SentinelsWhenNothingSet(httpMethod: string, env: Environment, now: string)
    requires httpMethod != "OPTIONS"
    requires forall i :: 0 <= i < |ReadVars| ==> !IsSet(env, ReadVars[i])
    ensures Handle(httpMethod, env, Some(InvocationContext(None)), now)
            == Response(200, Headers, HealthyBody(HealthReport(
                 "healthy",
                 "development",
                 now,
                 Deployment("unknown", "unknown", "local"),
                 ConfigSnapshot("unknown", "unknown", "not-configured"),
                 Features(false, false, false))))
  {
    assert !IsSet(env, ReadVars[0]) && !IsSet(env, ReadVars[1]) && !IsSet(env, ReadVars[2]);
    assert !IsSet(env, ReadVars[3]) && !IsSet(env, ReadVars[4]);
    assert !IsSet(env, ReadVars[5]) && !IsSet(env, ReadVars[6]) && !IsSet(env, ReadVars[7]);
  }

  /** There is no production gate: whatever `NODE_ENV` holds, the status code
      is unchanged and a successful report is still labelled "development"
      and "healthy"; only the echoed `nodeEnv` field follows the variable,
      and every other field of the report is as it was. */
  lemma NodeEnvNeverGates(httpMethod: string, env: Environment, context: Option<InvocationContext>, now: string, value: string)
    ensures var r := Handle(httpMethod, env["NODE_ENV" := value], context, now);
            var r0 := Handle(httpMethod, env, context, now);
            && r.statusCode == r0.statusCode
            && (r.body.HealthyBody? ==>
                  && r.body.report.environment == "development"
                  && r.body.report.status == "healthy"
                  && (value != "" ==> r.body.report.config.nodeEnv == value)
                  && (value == "" ==> r.body.report.config.nodeEnv == "unknown")
                  && r0.body.HealthyBody?
                  && r.body.report.(config := r0.body.report.config) == r0.body.report
                  && r.body.report.config.(nodeEnv := r0.body.report.config.nodeEnv) == r0.body.report.config)
            && (!r.body.HealthyBody? ==> r == r0)
  {
  }

  /** The response depends on the environment only through how the variables
      the reporter reads are set: any other variable may change freely, and an
      empty value is the same as none. */
  lemma ResponseDependsOnlyOnReadVars(
    httpMethod: string, env1: Environment, env2: Environment, context: Option<InvocationContext>, now: string)
    requires AgreeOn(env1, env2, ReadVars)
    ensures Handle(httpMethod, env1, context, now) == Handle(httpMethod, env2, context, now)
  {
    assert SameReading(env1, env2, ReadVars[0]) && SameReading(env1, env2, ReadVars[1]);
    assert SameReading(env1, env2, ReadVars[2]) && SameReading(env1, env2, ReadVars[3]);
    assert SameReading(env1, env2, ReadVars[4]) && SameReading(env1, env2, ReadVars[5]);
    assert SameReading(env1, env2, ReadVars[6]) && SameReading(env1, env2, ReadVars[7]);
    SameReadingSameResults(env1, env2, "FLUTTER_WEB_DEBUG", "", "true");
    SameReadingSameResults(env1, env2, "FLUTTER_WEB_BUILD_WITH_SOURCEMAPS", "", "true");
    SameReadingSameResults(env1, env2, "ENABLE_DEV_TOOLS", "", "true");
    assert FeaturesBlock(env1) == FeaturesBlock(env2);
    assert ConfigBlock(env1) == ConfigBlock(env2);
  }

  /** Setting a variable to the empty text has the same effect as removing it. */
  lemma EmptyValueActsAsUnset(
    httpMethod: string, env: Environment, context: Option<InvocationContext>, now: string, name: string)
    ensures Handle(httpMethod, env[name := ""], context, now) == Handle(httpMethod, env - {name}, context, now)
  {
    var env1 := env[name := ""];
    var env2 := env - {name};
    forall other
      ensures SameReading(env1, env2, other)
    {
      if other == name {
        EmptyReadsAsUnset(env, name);
      }
    }
    ResponseDependsOnlyOnReadVars(httpMethod, env1, env2, context, now);
  }

  /** Two calls with the same method, environment and context give the same
      response except for the capture time. */
  lemma OnlyTimestampVaries(
    httpMethod: string, env: Environment, context: Option<InvocationContext>, now1: string, now2: string)
    ensures var r1 := Handle(httpMethod, env, context, now1);
            var r2 := Handle(httpMethod, env, context, now2);
            && r1.statusCode == r2.statusCode
            && (r1.body.HealthyBody? ==> r2.body == HealthyBody(r1.body.report.(timestamp := now2)))
            && (r1.body.ErrorBody? ==> r2.body == ErrorBody(r1.body.failure.(timestamp := now2)))
            && (r1.body.PreflightBody? ==> r1 == r2)
  {
  }
}

/** Properties of the configuration validator that relate its report to the
    environment as a whole: where each entry can be found, what the verdict
    depends on, what it does not depend on, and how the message encodes the
    count.
 */
module ConfigProperties {
  import opened Env
  import opened ConfigValidator

  /** The variables the validator reads besides the two check tables. */
  const SettingVars: seq<string> := [
      "NODE_ENV",
      "FLUTTER_BUILD_MODE",
      "FLUTTER_WEB_USE_SKIA",
      "FLUTTER_WEB_DEBUG",
      "FLUTTER_WEB_BUILD_WITH_SOURCEMAPS",
      "NETLIFY_DEV",
      "NETLIFY_BRANCH",
      "BUILD_ID"
    ]

  lemma TablesAreDistinct()
    ensures Distinct(RequiredVars)
    ensures Distinct(OptionalVars)
  {
  }

  /** A required name is none of the other names the validator reads. */
  lemma RequiredNameIsNoOtherName(k: nat)
    requires k < |RequiredVars|
    ensures forall j :: 0 <= j < |OptionalVars| ==> RequiredVars[k] != OptionalVars[j]
    ensures forall j :: 0 <= j < |SettingVars| ==> RequiredVars[k] != SettingVars[j]
  {
    var name := RequiredVars[k];
    assert name[0] == 'F' && name[1] == 'I';
    forall j | 0 <= j < |OptionalVars|
      ensures name != OptionalVars[j]
    {
      assert OptionalVars[j][0] != 'F';
    }
    forall j | 0 <= j < |SettingVars|
      ensures name != SettingVars[j]
    {
      assert SettingVars[j][1] != 'I';
    }
  }

  /** A name list in which no name repeats. */
  predicate Distinct(names: seq<string>) {
    forall i, j :: 0 <= i < j < |names| ==> names[i] != names[j]
  }

  /** Reading a property of the object built from entries whose names are
      distinct finds the entry inserted under that name. */
  lemma {:induction false} LookupFindsEntry<T>(entries: seq<(string, T)>, i: nat)
    requires i < |entries|
    requires forall j :: 0 <= j < i ==> entries[j].0 != entries[i].0
    ensures Lookup(entries, entries[i].0) == Some(entries[i].1)
    decreases i
  {
    if i > 0 {
      assert entries[0].0 != entries[i].0;
      var tail := entries[1..];
      assert tail[i - 1] == entries[i];
      forall j | 0 <= j < i - 1
        ensures tail[j].0 != tail[i - 1].0
      {
        assert tail[j] == entries[j + 1];
      }
      LookupFindsEntry(tail, i - 1);
    }
  }

  /** `validation.required[name]` is the check of `name` against the environment
      for each of the six required names, and every entry is self-consistent:
      `hasValue` equals `configured`, and `placeholder` holds exactly when the
      variable is unset or one of the markers occurs somewhere in its value. */
  lemma RequiredEntriesDescribeEnvironment(env: Environment, now: string, i: nat)
    requires i < |RequiredVars|
    ensures var report := Validate(env, now);
            var name := RequiredVars[i];
            var c := CheckRequired(env, name);
            && Lookup(report.validation.required, name) == Some(c)
            && (c.configured <==> IsSet(env, name))
            && c.hasValue == c.configured
            && (c.placeholder <==>
                  !IsSet(env, name)
                  || (exists k :: OccursAt(env[name], "your_", k))
                  || (exists k :: OccursAt(env[name], "REPLACE_ME", k)))
  {
    var report := Validate(env, now);
    var name := RequiredVars[i];
    TablesAreDistinct();
    forall j | 0 <= j < i
      ensures report.validation.required[j].0 != report.validation.required[i].0
    {
    }
    LookupFindsEntry(report.validation.required, i);
    if IsSet(env, name) {
      ContainsIffOccurs(env[name], "your_");
      ContainsIffOccurs(env[name], "REPLACE_ME");
    }
  }

  /** `validation.optional[name]` is the check of `name` for each of the five
      optional names, with `hasValue` equal to `configured`. */
  lemma OptionalEntriesDescribeEnvironment(env: Environment, now: string, i: nat)
    requires i < |OptionalVars|
    ensures var report := Validate(env, now);
            var name := OptionalVars[i];
            var c := CheckOptional(env, name);
            && Lookup(report.validation.optional, name) == Some(c)
            && (c.configured <==> IsSet(env, name))
            && c.hasValue == c.configured
  {
    var report := Validate(env, now);
    TablesAreDistinct();
    forall j | 0 <= j < i
      ensures report.validation.optional[j].0 != report.validation.optional[i].0
    {
    }
    LookupFindsEntry(report.validation.optional, i);
  }

  /** The site-id flag of the `netlify` block agrees with the optional entry
      for the same variable. */
  lemma SiteIdAgreesWithOptionalEntry(env: Environment, now: string)
    ensures var report := Validate(env, now);
            var entry := Lookup(report.validation.optional, "NETLIFY_SITE_ID");
            entry.Some? && report.validation.netlify.siteId == entry.value.configured
  {
    OptionalEntriesDescribeEnvironment(env, now, 4);
  }

  /** Counts are bounded by the table sizes and every listed name lands in
      exactly one bucket. */
  lemma SummaryPartition(env: Environment, now: string)
    ensures var s := Validate(env, now).summary;
            && s.requiredMissing <= 6
            && s.optionalMissing <= 5
            && s.requiredMissing + s.optionalMissing + s.totalConfigured == 11
  {
  }

  /** Outside the preflight and the production gate, the status is 200 exactly
      when every required variable is set, and 400 exactly when one is not. */
  lemma VerdictIffAllRequiredSet(httpMethod: string, env: Environment, now: string)
    requires httpMethod != "OPTIONS" && !IsProduction(env)
    ensures var r := Handle(httpMethod, env, now);
            && (r.statusCode == 200 <==> forall name :: name in RequiredVars ==> IsSet(env, name))
            && (r.statusCode == 400 <==> exists name :: name in RequiredVars && !IsSet(env, name))
            && r.body.report.status == (if r.statusCode == 200 then "healthy" else "configuration-issues")
  {
    var n := CountUnset(env, RequiredVars);
    if forall name :: name in RequiredVars ==> IsSet(env, name) {
      assert forall i :: 0 <= i < |RequiredVars| ==> IsSet(env, RequiredVars[i]) by {
        forall i | 0 <= i < |RequiredVars| ensures IsSet(env, RequiredVars[i]) {
          assert RequiredVars[i] in RequiredVars;
        }
      }
    } else {
      var name :| name in RequiredVars && !IsSet(env, name);
      var i :| 0 <= i < |RequiredVars| && RequiredVars[i] == name;
      assert n != 0;
    }
  }

  /** Unset counts depend only on which names are set, not on their values. */
  lemma {:induction false} CountUnsetDependsOnlyOnSetness(env1: Environment, env2: Environment, names: seq<string>)
    requires forall i :: 0 <= i < |names| ==> (IsSet(env1, names[i]) <==> IsSet(env2, names[i]))
    ensures CountUnset(env1, names) == CountUnset(env2, names)
  {
    if names != [] {
      CountUnsetDependsOnlyOnSetness(env1, env2, names[1..]);
    }
  }

  /** Two environments that agree on which listed names are set get the same
      summary, status and message, whatever the values are. */
  lemma SetnessDeterminesVerdict(env1: Environment, env2: Environment, now1: string, now2: string)
    requires forall name :: name in RequiredVars ==> (IsSet(env1, name) <==> IsSet(env2, name))
    requires forall name :: name in OptionalVars ==> (IsSet(env1, name) <==> IsSet(env2, name))
    ensures Validate(env1, now1).summary == Validate(env2, now2).summary
    ensures Validate(env1, now1).status == Validate(env2, now2).status
    ensures Validate(env1, now1).message == Validate(env2, now2).message
  {
    forall i | 0 <= i < |RequiredVars|
      ensures IsSet(env1, RequiredVars[i]) <==> IsSet(env2, RequiredVars[i])
    {
      assert RequiredVars[i] in RequiredVars;
    }
    forall i | 0 <= i < |OptionalVars|
      ensures IsSet(env1, OptionalVars[i]) <==> IsSet(env2, OptionalVars[i])
    {
      assert OptionalVars[i] in OptionalVars;
    }
    CountUnsetDependsOnlyOnSetness(env1, env2, RequiredVars);
    CountUnsetDependsOnlyOnSetness(env1, env2, OptionalVars);
  }

  /** Giving the required variable `RequiredVars[k]` a new value leaves every
      other required entry alone. */
  lemma NewValueLeavesOtherRequiredEntries(env: Environment, now: string, k: nat, value: string)
    requires k < |RequiredVars|
    ensures var before := Validate(env, now);
            var after := Validate(env[RequiredVars[k] := value], now);
            forall i :: 0 <= i < |RequiredVars| && i != k ==>
              after.validation.required[i] == before.validation.required[i]
  {
    var env' := env[RequiredVars[k] := value];
    TablesAreDistinct();
    forall i | 0 <= i < |RequiredVars| && i != k
      ensures CheckRequired(env', RequiredVars[i]) == CheckRequired(env, RequiredVars[i])
    {
      assert RequiredVars[i] != RequiredVars[k];
      assert Get(env', RequiredVars[i]) == Get(env, RequiredVars[i]);
    }
  }

  /** Giving the required variable `RequiredVars[k]` a new value leaves the
      optional table alone. */
  lemma NewValueLeavesOptionalEntries(env: Environment, now: string, k: nat, value: string)
    requires k < |RequiredVars|
    ensures Validate(env[RequiredVars[k] := value], now).validation.optional
            == Validate(env, now).validation.optional
  {
    var env' := env[RequiredVars[k] := value];
    RequiredNameIsNoOtherName(k);
    forall i | 0 <= i < |OptionalVars|
      ensures CheckOptional(env', OptionalVars[i]) == CheckOptional(env, OptionalVars[i])
    {
      assert Get(env', OptionalVars[i]) == Get(env, OptionalVars[i]);
    }
  }

  /** Giving the required variable `RequiredVars[k]` a new value leaves the
      environment name and both settings blocks alone. */
  lemma NewValueLeavesSettings(env: Environment, now: string, k: nat, value: string)
    requires k < |RequiredVars|
    ensures var before := Validate(env, now);
            var after := Validate(env[RequiredVars[k] := value], now);
            && after.environment == before.environment
            && after.validation.flutter == before.validation.flutter
            && after.validation.netlify == before.validation.netlify
  {
    var name := RequiredVars[k];
    var env' := env[name := value];
    RequiredNameIsNoOtherName(k);
    assert name != SettingVars[0];
    assert Get(env', "NODE_ENV") == Get(env, "NODE_ENV");
    assert name != SettingVars[1] && name != SettingVars[2];
    assert name != SettingVars[3] && name != SettingVars[4];
    FlutterFrame(env, env');
    assert name != OptionalVars[4] && name != SettingVars[5];
    assert name != SettingVars[6] && name != SettingVars[7];
    NetlifyFrame(env, env');
  }

  /** Giving a set required variable another non-empty value keeps every
      listed name set or unset as it was. */
  lemma NewValueKeepsSetness(env: Environment, k: nat, value: string)
    requires k < |RequiredVars|
    requires IsSet(env, RequiredVars[k]) && value != ""
    ensures var env' := env[RequiredVars[k] := value];
            && (forall name :: name in RequiredVars ==> (IsSet(env, name) <==> IsSet(env', name)))
            && (forall name :: name in OptionalVars ==> (IsSet(env, name) <==> IsSet(env', name)))
  {
  }

  /** Replacing the value of a set required variable by any non-empty text
      (a placeholder such as "your_api_key" included) changes at most that
      entry's placeholder flag: every other entry, both settings blocks, the
      environment name, the counts, the status, the message and the status
      code stay as they were. */
  lemma PlaceholderDoesNotChangeVerdict(httpMethod: string, env: Environment, now: string, name: string, value: string)
    requires name in RequiredVars
    requires IsSet(env, name) && value != ""
    ensures var env' := env[name := value];
            var before := Validate(env, now);
            var after := Validate(env', now);
            && CheckRequired(env', name) == RequiredCheck(true, true, HasPlaceholderMarker(value))
            && (forall i :: 0 <= i < |RequiredVars| && RequiredVars[i] != name ==>
                  after.validation.required[i] == before.validation.required[i])
            && (forall i :: 0 <= i < |RequiredVars| && RequiredVars[i] == name ==>
                  after.validation.required[i].1.configured == before.validation.required[i].1.configured
                  && after.validation.required[i].1.hasValue == before.validation.required[i].1.hasValue)
            && after.validation.optional == before.validation.optional
            && after.validation.flutter == before.validation.flutter
            && after.validation.netlify == before.validation.netlify
            && after.environment == before.environment
            && after.summary == before.summary
            && after.status == before.status
            && after.message == before.message
            && Handle(httpMethod, env', now).statusCode == Handle(httpMethod, env, now).statusCode
  {
    var env' := env[name := value];
    var k :| 0 <= k < |RequiredVars| && RequiredVars[k] == name;
    NewValueLeavesOtherRequiredEntries(env, now, k, value);
    NewValueLeavesOptionalEntries(env, now, k, value);
    NewValueLeavesSettings(env, now, k, value);
    NewValueKeepsSetness(env, k, value);
    SetnessDeterminesVerdict(env, env', now, now);
    assert Get(env', "NODE_ENV") == Get(env, "NODE_ENV") by {
      RequiredNameIsNoOtherName(k);
      assert name != SettingVars[0];
    }
  }

  /** A required value that is exactly "your_api_key" is configured, has a
      value, and is still flagged as a placeholder. */
  lemma PlaceholderExample(env: Environment)
    ensures CheckRequired(env["FIREBASE_API_KEY" := "your_api_key"], "FIREBASE_API_KEY")
            == RequiredCheck(true, true, true)
  {
    assert StartsWith("your_api_key", "your_");
  }

  /** Only the first required variable unset: status 400, one missing, and its
      entry reports it as not configured. */
  lemma MissingApiKeyExample(httpMethod: string, env: Environment, now: string)
    requires httpMethod != "OPTIONS" && !IsProduction(env)
    requires !IsSet(env, "FIREBASE_API_KEY")
    requires forall i :: 1 <= i < |RequiredVars| ==> IsSet(env, RequiredVars[i])
    ensures var r := Handle(httpMethod, env, now);
            && r.statusCode == 400
            && r.body.report.summary.requiredMissing == 1
            && Lookup(r.body.report.validation.required, "FIREBASE_API_KEY").value.configured == false
  {
    assert CountUnset(env, RequiredVars[1..]) == 0;
    RequiredEntriesDescribeEnvironment(env, now, 0);
  }

  /** The message states the missing count: its leading numeral reads back as
      `requiredMissing` when some are missing, and it is the fixed all-set
      sentence otherwise. */
  lemma MessageReportsCount(env: Environment, now: string)
    ensures var report := Validate(env, now);
            var n := report.summary.requiredMissing;
            && (n == 0 ==> report.message == HealthyMessage)
            && (n > 0 ==> ParseDigits(LeadingDigits(report.message)) == n
                          && report.message == LeadingDigits(report.message) + MissingSuffix)
  {
    var n := Validate(env, now).summary.requiredMissing;
    if n > 0 {
      LeadingDigitsOfNumeral(NatToString(n), MissingSuffix);
      ParseNatToString(n);
    }
  }

  /** The check loop over required names gives equal results in environments
      that read those names the same. */
  lemma RequiredLoopFrame(env1: Environment, env2: Environment, names: seq<string>, acc: Summary)
    requires AgreeOn(env1, env2, names)
    ensures CheckRequiredVars(env1, names, acc) == CheckRequiredVars(env2, names, acc)
  {
    var r1 := CheckRequiredVars(env1, names, acc);
    var r2 := CheckRequiredVars(env2, names, acc);
    CountUnsetDependsOnlyOnSetness(env1, env2, names);
    forall i | 0 <= i < |names|
      ensures r1.0[i] == r2.0[i]
    {
      assert SameReading(env1, env2, names[i]);
    }
  }

  /** The check loop over optional names gives equal results in environments
      that read those names the same. */
  lemma OptionalLoopFrame(env1: Environment, env2: Environment, names: seq<string>, acc: Summary)
    requires AgreeOn(env1, env2, names)
    ensures CheckOptionalVars(env1, names, acc) == CheckOptionalVars(env2, names, acc)
  {
    var r1 := CheckOptionalVars(env1, names, acc);
    var r2 := CheckOptionalVars(env2, names, acc);
    CountUnsetDependsOnlyOnSetness(env1, env2, names);
    forall i | 0 <= i < |names|
      ensures r1.0[i] == r2.0[i]
    {
      assert SameReading(env1, env2, names[i]);
    }
  }

  /** The `flutter` block depends only on how its four variables read. */
  lemma FlutterFrame(env1: Environment, env2: Environment)
    requires SameReading(env1, env2, "FLUTTER_BUILD_MODE")
    requires SameReading(env1, env2, "FLUTTER_WEB_USE_SKIA")
    requires SameReading(env1, env2, "FLUTTER_WEB_DEBUG")
    requires SameReading(env1, env2, "FLUTTER_WEB_BUILD_WITH_SOURCEMAPS")
    ensures Flutter(env1) == Flutter(env2)
  {
    SameReadingSameResults(env1, env2, "FLUTTER_BUILD_MODE", "not-set", "true");
    SameReadingSameResults(env1, env2, "FLUTTER_WEB_USE_SKIA", "not-set", "true");
    SameReadingSameResults(env1, env2, "FLUTTER_WEB_DEBUG", "not-set", "true");
    SameReadingSameResults(env1, env2, "FLUTTER_WEB_BUILD_WITH_SOURCEMAPS", "not-set", "true");
  }

  /** The `netlify` block depends only on how its four variables read. */
  lemma NetlifyFrame(env1: Environment, env2: Environment)
    requires SameReading(env1, env2, "NETLIFY_SITE_ID")
    requires SameReading(env1, env2, "NETLIFY_DEV")
    requires SameReading(env1, env2, "NETLIFY_BRANCH")
    requires SameReading(env1, env2, "BUILD_ID")
    ensures Netlify(env1) == Netlify(env2)
  {
    SameReadingSameResults(env1, env2, "NETLIFY_DEV", "not-set", "true");
    SameReadingSameResults(env1, env2, "NETLIFY_BRANCH", "not-set", "true");
    SameReadingSameResults(env1, env2, "BUILD_ID", "not-set", "true");
  }

  /** The report depends on the environment only through how the variables
      the validator reads are set. */
  lemma ReportFrame(env1: Environment, env2: Environment, now: string)
    requires AgreeOn(env1, env2, RequiredVars)
    requires AgreeOn(env1, env2, OptionalVars)
    requires AgreeOn(env1, env2, SettingVars)
    ensures Validate(env1, now) == Validate(env2, now)
  {
    RequiredLoopFrame(env1, env2, RequiredVars, Summary(0, 0, 0));
    var afterRequired := CheckRequiredVars(env1, RequiredVars, Summary(0, 0, 0)).1;
    OptionalLoopFrame(env1, env2, OptionalVars, afterRequired);
    assert SameReading(env1, env2, SettingVars[0]);
    SameReadingSameResults(env1, env2, "NODE_ENV", "unknown", "production");
    assert SameReading(env1, env2, SettingVars[1]) && SameReading(env1, env2, SettingVars[2]);
    assert SameReading(env1, env2, SettingVars[3]) && SameReading(env1, env2, SettingVars[4]);
    FlutterFrame(env1, env2);
    assert SameReading(env1, env2, OptionalVars[4]) && SameReading(env1, env2, SettingVars[5]);
    assert SameReading(env1, env2, SettingVars[6]) && SameReading(env1, env2, SettingVars[7]);
    NetlifyFrame(env1, env2);
  }

  /** The response depends on the environment only through how the variables
      the validator reads are set: any other variable may change freely, and
      an empty value is the same as none. */
  lemma ResponseDependsOnlyOnReadVars(httpMethod: string, env1: Environment, env2: Environment, now: string)
    requires AgreeOn(env1, env2, RequiredVars)
    requires AgreeOn(env1, env2, OptionalVars)
    requires AgreeOn(env1, env2, SettingVars)
    ensures Handle(httpMethod, env1, now) == Handle(httpMethod, env2, now)
  {
    ReportFrame(env1, env2, now);
    assert SameReading(env1, env2, SettingVars[0]);
    SameReadingSameResults(env1, env2, "NODE_ENV", "unknown", "production");
  }

  /** Setting a variable to the empty text has the same effect as removing it. */
  lemma EmptyValueActsAsUnset(httpMethod: string, env: Environment, now: string, name: string)
    ensures Handle(httpMethod, env[name := ""], now) == Handle(httpMethod, env - {name}, now)
  {
    var env1 := env[name := ""];
    var env2 := env - {name};
    forall other
      ensures SameReading(env1, env2, other)
    {
      if other == name {
        EmptyReadsAsUnset(env, name);
      }
    }
    ResponseDependsOnlyOnReadVars(httpMethod, env1, env2, now);
  }

  /** Two calls with the same method and environment give the same response
      except for the capture time inside a report. */
  lemma OnlyTimestampVaries(httpMethod: string, env: Environment, now1: string, now2: string)
    ensures var r1 := Handle(httpMethod, env, now1);
            var r2 := Handle(httpMethod, env, now2);
            && r1.statusCode == r2.statusCode
            && (r1.body.ReportBody? <==> r2.body.ReportBody?)
            && (r1.body.ReportBody? ==> r1.body.report.(timestamp := now2) == r2.body.report)
            && (!r1.body.ReportBody? ==> r1 == r2)
  {
  }
}

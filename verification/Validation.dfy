/** The gate on desired states: packages/config-engine/src/validate.ts and validate-all.ts,
    packages/dependency-engine/src/index.ts and packages/policy-engine/src/index.ts. A state is
    whatever JSON value a request carries, or nothing. */
module Validation {
  import opened Prelude
  import opened Json

  // ---- Issues ----

  datatype Key = Name(name: string) | Index(i: nat)

  datatype Code =
    | InvalidShape | InvalidFeatureFlag | InvalidObservabilityFlag | InvalidLimit
    | MissingCapability | InvalidProvider | RequiredDisabled | MissingFallback | InvalidFallback
    | LockedDatabase | CoreCapabilityDisabled | LockedLogging | RagDependency
    | BullmqRequiresRedis | RedisLockRequiresRedis | RedisIdempotencyRequiresRedis
    | LockedPolicy

  /** A path is kept as its segments. */
  datatype Issue = Issue(path: seq<Key>, code: Code)

  ghost predicate Distinct<T>(s: seq<T>) {
    forall i, j :: 0 <= i < j < |s| ==> s[i] != s[j]
  }

  // ---- Reading untyped values ----

  /** `v?.key`. */
  function At(v: Option<Json>, key: string): Option<Json> {
    if v.Some? then Get(v.value, key) else None
  }

  predicate Nullish(v: Option<Json>) {
    v == None || v == Some(Null)
  }

  function Indices(n: nat): set<Key> {
    set i: nat | i < n :: Index(i)
  }

  /** Object.entries of a truthy value. */
  function Entries(v: Json): map<Key, Json> {
    match v
    case Obj(fields) => map key <- (set k <- fields.Keys :: Name(k)) :: fields[key.name]
    case Arr(items) => map key <- Indices(|items|) :: items[key.i]
    case Str(s) => map key <- Indices(|s|) :: Str([s[key.i]])
    case _ => map[]
  }

  datatype Selection = Selection(enabled: bool, provider: string, fallback: Option<Json>, required: Option<Json>)

  function Select(v: Option<Json>): Option<Selection> {
    match (At(v, "enabled"), At(v, "provider"))
    case (Some(Bool(enabled)), Some(Str(provider))) =>
      if provider == "" then None
      else Some(Selection(enabled, provider, At(v, "fallback"), At(v, "required")))
    case _ => None
  }

  /** The number as a real. */
  function Value(n: Number): real
    requires !n.Infinite?
  {
    match n
    case Whole(w) => w as real
    case Fraction(m, halvings) => m as real / Halvings(halvings)
  }

  function Halvings(n: nat): (r: real)
    ensures r >= 1.0
  {
    if n == 0 then 1.0 else 2.0 * Halvings(n - 1)
  }

  /** A limit is valid exactly if it is a finite number that is not negative. */
  lemma ValidLimitExactly(v: Json)
    ensures ValidLimit(v) <==> v.Num? && !v.n.Infinite? && Value(v.n) >= 0.0
  {
    if v.Num? && v.n.Fraction? {
      QuotientSign(v.n.m as real, Halvings(v.n.halvings));
    }
  }

  lemma QuotientSign(a: real, b: real)
    requires b >= 1.0
    ensures a / b >= 0.0 <==> a >= 0.0
  {
    if a < 0.0 { assert a / b * b == a; }
  }

  // ---- Tables ----

  const CAPABILITIES := {
    "database", "cache", "distributed_lock", "idempotency", "queue", "event_bus", "object_storage",
    "vector_store", "search", "ai"
  }

  function Providers(name: string): set<string> {
    if name == "database" then {"postgres"}
    else if name == "vector_store" then {"pgvector", "disabled"}
    else Fallbacks(name)
  }

  predicate HasFallbacks(name: string) {
    name in CAPABILITIES && name != "database" && name != "vector_store"
  }

  function Fallbacks(name: string): set<string> {
    if name == "cache" then {"redis", "memory", "none"}
    else if name == "distributed_lock" then {"redis", "postgres"}
    else if name == "idempotency" then {"redis", "postgres"}
    else if name == "queue" then {"sqs", "bullmq", "rabbitmq", "sync"}
    else if name == "event_bus" then {"kafka", "sns-sqs", "outbox"}
    else if name == "object_storage" then {"s3", "minio", "filesystem"}
    else if name == "search" then {"opensearch", "postgres"}
    else if name == "ai" then {"local-ai", "bedrock", "external", "disabled"}
    else {}
  }

  // ---- What is reported ----

  predicate IsBool(v: Option<Json>) {
    v.Some? && v.value.Bool?
  }

  predicate FlagReported(features: Json, issue: Issue) {
    && |issue.path| == 2 && issue == Issue([Name("features"), issue.path[1]], InvalidFeatureFlag)
    && issue.path[1] in Entries(features) && !Entries(features)[issue.path[1]].Bool?
  }

  function ObservabilityIssue(flag: string): Issue {
    Issue(CapabilityPath("observability") + [Name(flag)], InvalidObservabilityFlag)
  }

  predicate ObservabilityReported(observability: Option<Json>, issue: Issue) {
    && Truthy(observability) && |issue.path| == 3 && issue.path[2].Name?
    && issue == ObservabilityIssue(issue.path[2].name)
    && issue.path[2].name in ["metrics", "tracing", "logging"]
    && !IsBool(At(observability, issue.path[2].name))
  }

  predicate ValidLimit(v: Json) {
    v.Num? && ((v.n.Whole? && v.n.n >= 0) || (v.n.Fraction? && v.n.m >= 0))
  }

  predicate LimitReported(limits: Option<Json>, issue: Issue) {
    && Truthy(limits) && |issue.path| == 2 && issue == Issue([Name("limits"), issue.path[1]], InvalidLimit)
    && issue.path[1] in Entries(limits.value) && !ValidLimit(Entries(limits.value)[issue.path[1]])
  }

  function CapabilityPath(name: string): seq<Key> {
    [Name("platform"), Name(name)]
  }

  predicate CapabilityIssue(name: string, selected: Option<Selection>, issue: Issue) {
    match selected
    case None => issue == Issue(CapabilityPath(name), MissingCapability)
    case Some(s) =>
      || (issue == Issue(CapabilityPath(name) + [Name("provider")], InvalidProvider) && s.provider !in Providers(name))
      || (issue == Issue(CapabilityPath(name) + [Name("enabled")], RequiredDisabled)
          && Truthy(s.required) && !s.enabled)
      || (issue == Issue(CapabilityPath(name) + [Name("fallback")], MissingFallback)
          && s.enabled && HasFallbacks(name) && !Truthy(s.fallback))
      || (issue == Issue(CapabilityPath(name) + [Name("fallback")], InvalidFallback)
          && Truthy(s.fallback) && HasFallbacks(name)
          && !(s.fallback.value.Str? && s.fallback.value.s in Fallbacks(name)))
  }

  predicate CapabilityReported(platform: Json, issue: Issue) {
    && |issue.path| >= 2 && issue.path[1].Name? && issue.path[1].name in CAPABILITIES
    && CapabilityIssue(issue.path[1].name, Select(Get(platform, issue.path[1].name)), issue)
  }

  predicate Enabled(platform: Json, name: string) {
    var s := Select(Get(platform, name));
    s.Some? && s.value.enabled
  }

  predicate EnabledWith(platform: Json, name: string, provider: string) {
    Enabled(platform, name) && Select(Get(platform, name)).value.provider == provider
  }

  const RULE_CODES := {
    LockedDatabase, CoreCapabilityDisabled, LockedLogging, RagDependency, BullmqRequiresRedis,
    RedisLockRequiresRedis, RedisIdempotencyRequiresRedis
  }

  predicate NeedsRedis(platform: Json, name: string, provider: string) {
    EnabledWith(platform, name, provider) ==> EnabledWith(platform, "cache", "redis")
  }

  predicate RagReady(platform: Json, features: Json) {
    Truthy(Get(features, "rag"))
    ==> Enabled(platform, "ai") && Enabled(platform, "vector_store") && Enabled(platform, "object_storage")
  }

  function RuleIssue(code: Code): Issue {
    var path := match code
      case LockedDatabase => CapabilityPath("database")
      case CoreCapabilityDisabled => CapabilityPath("object_storage") + [Name("enabled")]
      case LockedLogging => CapabilityPath("observability") + [Name("logging")]
      case RagDependency => [Name("features"), Name("rag")]
      case BullmqRequiresRedis => CapabilityPath("queue") + [Name("provider")]
      case RedisLockRequiresRedis => CapabilityPath("distributed_lock") + [Name("provider")]
      case RedisIdempotencyRequiresRedis => CapabilityPath("idempotency") + [Name("provider")]
      case _ => [];
    Issue(path, code)
  }

  predicate RuleBroken(platform: Json, features: Json, code: Code) {
    match code
    case LockedDatabase => !EnabledWith(platform, "database", "postgres")
    case CoreCapabilityDisabled => !Enabled(platform, "object_storage")
    case LockedLogging => !Truthy(At(Get(platform, "observability"), "logging"))
    case RagDependency => !RagReady(platform, features)
    case BullmqRequiresRedis => !NeedsRedis(platform, "queue", "bullmq")
    case RedisLockRequiresRedis => !NeedsRedis(platform, "distributed_lock", "redis")
    case RedisIdempotencyRequiresRedis => !NeedsRedis(platform, "idempotency", "redis")
    case _ => false
  }

  predicate RuleReported(platform: Json, features: Json, issue: Issue) {
    issue == RuleIssue(issue.code) && RuleBroken(platform, features, issue.code)
  }

  predicate HasShape(state: Option<Json>) {
    Truthy(At(state, "platform")) && Truthy(At(state, "features"))
  }

  predicate Reported(state: Option<Json>, issue: Issue) {
    if !HasShape(state) then issue == Issue([], InvalidShape)
    else
      var platform, features := At(state, "platform").value, At(state, "features").value;
      || FlagReported(features, issue)
      || ObservabilityReported(Get(platform, "observability"), issue)
      || LimitReported(At(state, "limits"), issue)
      || CapabilityReported(platform, issue)
      || RuleReported(platform, features, issue)
  }

  /** The validator has nothing to report. */
  ghost predicate Clean(state: Option<Json>) {
    forall issue :: !Reported(state, issue)
  }

  // ---- The validator ----

  lemma DistinctConcat<T>(s: seq<T>, t: seq<T>)
    requires Distinct(s) && Distinct(t)
    requires forall x :: x in s ==> x !in t
    ensures Distinct(s + t)
  {
    forall i, j | 0 <= i < j < |s + t| ensures (s + t)[i] != (s + t)[j] {
      if i < |s| <= j {
        assert (s + t)[i] in s && (s + t)[j] in t;
      }
    }
  }

  /** The flags of a truthy value. */
  method CheckFeatures(features: Json) returns (issues: seq<Issue>)
    ensures Distinct(issues)
    ensures forall issue :: issue in issues <==> FlagReported(features, issue)
  {
    issues := [];
    var entries := Entries(features);
    var todo := entries.Keys;
    while todo != {}
      invariant todo <= entries.Keys && Distinct(issues)
      invariant forall issue :: issue in issues <==> FlagReported(features, issue) && issue.path[1] !in todo
    {
      var name :| name in todo;
      if !entries[name].Bool? {
        issues := issues + [Issue([Name("features"), name], InvalidFeatureFlag)];
      }
      todo := todo - {name};
    }
  }

  method CheckObservability(observability: Option<Json>) returns (issues: seq<Issue>)
    ensures Distinct(issues)
    ensures forall issue :: issue in issues <==> ObservabilityReported(observability, issue)
  {
    issues := [];
    if Truthy(observability) {
      var flags := ["metrics", "tracing", "logging"];
      for i := 0 to |flags|
        invariant Distinct(issues)
        invariant forall issue :: issue in issues <==>
          ObservabilityReported(observability, issue) && issue.path[2].name in flags[..i]
      {
        if !IsBool(At(observability, flags[i])) {
          issues := issues + [ObservabilityIssue(flags[i])];
        }
      }
    }
  }

  method CheckLimits(limits: Option<Json>) returns (issues: seq<Issue>)
    ensures Distinct(issues)
    ensures forall issue :: issue in issues <==> LimitReported(limits, issue)
  {
    issues := [];
    if Truthy(limits) {
      var entries := Entries(limits.value);
      var todo := entries.Keys;
      while todo != {}
        invariant todo <= entries.Keys && Distinct(issues)
        invariant forall issue :: issue in issues <==> LimitReported(limits, issue) && issue.path[1] !in todo
      {
        var name :| name in todo;
        if !ValidLimit(entries[name]) {
          issues := issues + [Issue([Name("limits"), name], InvalidLimit)];
        }
        todo := todo - {name};
      }
    }
  }

  method CheckCapability(name: string, selected: Option<Selection>) returns (issues: seq<Issue>)
    ensures Distinct(issues)
    ensures forall issue :: issue in issues <==> CapabilityIssue(name, selected, issue)
  {
    issues := [];
    if selected.None? {
      return [Issue(CapabilityPath(name), MissingCapability)];
    }
    var s := selected.value;
    if s.provider !in Providers(name) {
      issues := issues + [Issue(CapabilityPath(name) + [Name("provider")], InvalidProvider)];
    }
    if Truthy(s.required) && !s.enabled {
      issues := issues + [Issue(CapabilityPath(name) + [Name("enabled")], RequiredDisabled)];
    }
    if s.enabled && HasFallbacks(name) && !Truthy(s.fallback) {
      issues := issues + [Issue(CapabilityPath(name) + [Name("fallback")], MissingFallback)];
    }
    if Truthy(s.fallback) && HasFallbacks(name)
       && !(s.fallback.value.Str? && s.fallback.value.s in Fallbacks(name))
    {
      issues := issues + [Issue(CapabilityPath(name) + [Name("fallback")], InvalidFallback)];
    }
  }

  lemma IssueNamesItsCapability(name: string, selected: Option<Selection>, issue: Issue)
    ensures CapabilityIssue(name, selected, issue) ==> |issue.path| >= 2 && issue.path[1] == Name(name)
  {
  }

  method CheckCapabilities(platform: Json) returns (issues: seq<Issue>)
    ensures Distinct(issues)
    ensures forall issue :: issue in issues <==> CapabilityReported(platform, issue)
  {
    issues := [];
    var todo := CAPABILITIES;
    while todo != {}
      invariant todo <= CAPABILITIES && Distinct(issues)
      invariant forall issue :: issue in issues <==>
        CapabilityReported(platform, issue) && issue.path[1].name !in todo
    {
      var name :| name in todo;
      var selected := Select(Get(platform, name));
      var more := CheckCapability(name, selected);
      hide CapabilityIssue;
      forall issue { IssueNamesItsCapability(name, selected, issue); }
      DistinctConcat(issues, more);
      issues := issues + more;
      todo := todo - {name};
    }
  }

  /** The issues are those of the rules checked so far. */
  ghost predicate RulesChecked(platform: Json, features: Json, done: set<Code>, issues: seq<Issue>) {
    && Distinct(issues)
    && forall issue :: issue in issues <==> RuleReported(platform, features, issue) && issue.code in done
  }

  lemma RuleChecked(platform: Json, features: Json, done: set<Code>, issues: seq<Issue>, code: Code)
    requires RulesChecked(platform, features, done, issues) && code !in done
    ensures RulesChecked(platform, features, done + {code},
              if RuleBroken(platform, features, code) then issues + [RuleIssue(code)] else issues)
  {
    hide RuleBroken;
    assert RuleIssue(code).code == code;
    DistinctConcat(issues, [RuleIssue(code)]);
  }

  method CheckRules(platform: Json, features: Json) returns (issues: seq<Issue>)
    ensures Distinct(issues)
    ensures forall issue :: issue in issues <==> RuleReported(platform, features, issue)
  {
    RuleCases(platform, features);
    hide Enabled, EnabledWith, Truthy, RulesChecked, RuleIssue, RuleBroken, Get, At;
    issues := [];
    assert RulesChecked(platform, features, {}, issues) by { NoRuleChecked(platform, features); }
    ghost var done: set<Code> := {};
    RuleChecked(platform, features, done, issues, LockedDatabase);
    if !EnabledWith(platform, "database", "postgres") {
      issues := issues + [RuleIssue(LockedDatabase)];
    }
    done := done + {LockedDatabase};
    RuleChecked(platform, features, done, issues, CoreCapabilityDisabled);
    if !Enabled(platform, "object_storage") {
      issues := issues + [RuleIssue(CoreCapabilityDisabled)];
    }
    done := done + {CoreCapabilityDisabled};
    RuleChecked(platform, features, done, issues, LockedLogging);
    if !Truthy(At(Get(platform, "observability"), "logging")) {
      issues := issues + [RuleIssue(LockedLogging)];
    }
    done := done + {LockedLogging};
    RuleChecked(platform, features, done, issues, RagDependency);
    if Truthy(Get(features, "rag")) &&
       (!Enabled(platform, "ai") || !Enabled(platform, "vector_store") || !Enabled(platform, "object_storage"))
    {
      issues := issues + [RuleIssue(RagDependency)];
    }
    done := done + {RagDependency};
    RuleChecked(platform, features, done, issues, BullmqRequiresRedis);
    var redis := EnabledWith(platform, "cache", "redis");
    if EnabledWith(platform, "queue", "bullmq") && !redis {
      issues := issues + [RuleIssue(BullmqRequiresRedis)];
    }
    done := done + {BullmqRequiresRedis};
    RuleChecked(platform, features, done, issues, RedisLockRequiresRedis);
    if EnabledWith(platform, "distributed_lock", "redis") && !redis {
      issues := issues + [RuleIssue(RedisLockRequiresRedis)];
    }
    done := done + {RedisLockRequiresRedis};
    RuleChecked(platform, features, done, issues, RedisIdempotencyRequiresRedis);
    if EnabledWith(platform, "idempotency", "redis") && !redis {
      issues := issues + [RuleIssue(RedisIdempotencyRequiresRedis)];
    }
    AllRulesChecked(platform, features, done + {RedisIdempotencyRequiresRedis}, issues);
  }

  lemma RuleCases(platform: Json, features: Json)
    ensures RuleBroken(platform, features, LockedDatabase) == !EnabledWith(platform, "database", "postgres")
    ensures RuleBroken(platform, features, CoreCapabilityDisabled) == !Enabled(platform, "object_storage")
    ensures RuleBroken(platform, features, LockedLogging) == !Truthy(At(Get(platform, "observability"), "logging"))
    ensures RuleBroken(platform, features, RagDependency) == !RagReady(platform, features)
    ensures RuleBroken(platform, features, BullmqRequiresRedis) == !NeedsRedis(platform, "queue", "bullmq")
    ensures RuleBroken(platform, features, RedisLockRequiresRedis) == !NeedsRedis(platform, "distributed_lock", "redis")
    ensures RuleBroken(platform, features, RedisIdempotencyRequiresRedis)
            == !NeedsRedis(platform, "idempotency", "redis")
    ensures forall code :: RuleBroken(platform, features, code) ==> code in RULE_CODES
  {
    hide Enabled, EnabledWith, Truthy, Get, At;
  }

  lemma NoRuleChecked(platform: Json, features: Json)
    ensures RulesChecked(platform, features, {}, [])
  {
  }

  lemma AllRulesChecked(platform: Json, features: Json, done: set<Code>, issues: seq<Issue>)
    requires RulesChecked(platform, features, done, issues) && done == RULE_CODES
    ensures Distinct(issues)
    ensures forall issue :: issue in issues <==> RuleReported(platform, features, issue)
  {
    RuleCases(platform, features);
    hide RuleBroken;
  }

  predicate CapabilityCode(code: Code) {
    code in {MissingCapability, InvalidProvider, RequiredDisabled, MissingFallback, InvalidFallback}
  }

  lemma CapabilityIssuesHaveItsCodes(platform: Json, issue: Issue)
    ensures CapabilityReported(platform, issue) ==> CapabilityCode(issue.code)
  {
  }

  /** Every issue the rules call for is reported, each once, and nothing else. */
  method ValidateDesiredState(state: Option<Json>) returns (issues: seq<Issue>)
    ensures Distinct(issues)
    ensures forall issue :: issue in issues <==> Reported(state, issue)
  {
    if !HasShape(state) { return [Issue([], InvalidShape)]; }
    var platform, features := At(state, "platform").value, At(state, "features").value;
    var flags := CheckFeatures(features);
    var observability := CheckObservability(Get(platform, "observability"));
    var limits := CheckLimits(At(state, "limits"));
    var capabilities := CheckCapabilities(platform);
    var rules := CheckRules(platform, features);
    forall issue { CapabilityIssuesHaveItsCodes(platform, issue); }
    hide CapabilityReported, Entries, Truthy;
    DistinctConcat(flags, observability);
    DistinctConcat(flags + observability, limits);
    DistinctConcat(flags + observability + limits, capabilities);
    DistinctConcat(flags + observability + limits + capabilities, rules);
    issues := flags + observability + limits + capabilities + rules;
  }

  // ---- The dependency engine ----

  datatype Rule = Rule(
    capability: string, whenProvider: Option<string>, requirements: seq<string>, migrations: seq<string>)

  const RULES: seq<Rule> := [
    Rule("queue", Some("bullmq"), ["redis"], ["sqs", "rabbitmq", "sync"]),
    Rule("distributed_lock", Some("redis"), ["redis"], ["postgres"]),
    Rule("distributed_lock", Some("postgres"), ["postgres"], []),
    Rule("idempotency", Some("redis"), ["redis"], ["postgres"]),
    Rule("idempotency", Some("postgres"), ["postgres"], []),
    Rule("event_bus", Some("outbox"), ["postgres"], ["sns-sqs", "kafka"]),
    Rule("search", Some("postgres"), ["postgres"], ["opensearch"]),
    Rule("vector_store", Some("pgvector"), ["postgres"], ["disable-rag"]),
    Rule("rag", None, ["ai", "vector_store", "object_storage"], ["disable-rag"])
  ]

  /** Reading a property of undefined or null throws. */
  datatype Thrown = TypeError

  /** `v.key`. */
  function Read(v: Option<Json>, key: string): Result<Option<Json>, Thrown> {
    if Nullish(v) then Err(TypeError) else Ok(At(v, key))
  }

  predicate Uses(selection: Option<Json>, provider: string) {
    Truthy(At(selection, "enabled")) && At(selection, "provider") == Some(Str(provider))
  }

  function UsesOf(platform: Option<Json>, name: string, provider: string): Result<bool, Thrown> {
    var selection := At(platform, name);
    if Nullish(platform) || Nullish(selection) then Err(TypeError) else Ok(Uses(selection, provider))
  }

  function Active(state: Option<Json>, dependency: string): Result<bool, Thrown> {
    if dependency == "postgres" then UsesOf(At(state, "platform"), "database", "postgres")
    else if dependency == "redis" then UsesOf(At(state, "platform"), "cache", "redis")
    else if dependency == "rag" then
      match Read(At(state, "features"), "rag") case Err(e) => Err(e) case Ok(v) => Ok(Truthy(v))
    else
      match Read(At(state, "platform"), dependency) case Err(e) => Err(e) case Ok(v) => Ok(Truthy(At(v, "enabled")))
  }

  function RuleSelected(state: Option<Json>, rule: Rule): Result<bool, Thrown> {
    if rule.capability == "rag" then
      match Read(At(state, "features"), "rag") case Err(e) => Err(e) case Ok(v) => Ok(Truthy(v))
    else
      match Read(At(state, "platform"), rule.capability)
      case Err(e) => Err(e)
      case Ok(selection) =>
        if !Truthy(At(selection, "enabled")) then Ok(false)
        else Ok(rule.whenProvider.None? || At(selection, "provider") == Some(Str(rule.whenProvider.value)))
  }

  datatype DependencyIssue = DependencyIssue(capability: string, dependency: string, migrations: seq<string>)

  predicate RequirementsMet(state: Option<Json>, requirements: seq<string>) {
    forall j :: 0 <= j < |requirements| ==> Active(state, requirements[j]) == Ok(true)
  }

  /** Neither the rule nor what it requires throws, and what a selected rule requires is active. */
  predicate RuleMet(state: Option<Json>, rule: Rule) {
    match RuleSelected(state, rule)
    case Err(_) => false
    case Ok(selected) => selected ==> RequirementsMet(state, rule.requirements)
  }

  predicate DependenciesMet(state: Option<Json>) {
    forall i :: 0 <= i < |RULES| ==> RuleMet(state, RULES[i])
  }

  predicate RuleThrows(state: Option<Json>, rule: Rule) {
    match RuleSelected(state, rule)
    case Err(_) => true
    case Ok(selected) => selected && exists d :: d in rule.requirements && Active(state, d).Err?
  }

  predicate Unmet(state: Option<Json>, rule: Rule, issue: DependencyIssue) {
    && RuleSelected(state, rule) == Ok(true)
    && issue.capability == rule.capability && issue.migrations == rule.migrations
    && issue.dependency in rule.requirements && Active(state, issue.dependency) == Ok(false)
  }

  predicate UnmetBy(state: Option<Json>, rules: seq<Rule>, issue: DependencyIssue) {
    exists i :: 0 <= i < |rules| && Unmet(state, rules[i], issue)
  }

  method ResolveRule(state: Option<Json>, rule: Rule) returns (r: Result<seq<DependencyIssue>, Thrown>)
    ensures r.Err? <==> RuleThrows(state, rule)
    ensures r.Ok? ==> forall issue :: issue in r.value <==> Unmet(state, rule, issue)
  {
    hide RuleSelected, Active;
    var selected := RuleSelected(state, rule);
    if selected.Err? { return Err(selected.error); }
    var issues := [];
    if selected.value {
      for j := 0 to |rule.requirements|
        invariant forall d :: d in rule.requirements[..j] ==> Active(state, d).Ok?
        invariant forall issue :: issue in issues <==>
          Unmet(state, rule, issue) && issue.dependency in rule.requirements[..j]
      {
        var d := rule.requirements[j];
        assert rule.requirements[..j + 1] == rule.requirements[..j] + [d];
        var active := Active(state, d);
        if active.Err? { return Err(active.error); }
        if !active.value { issues := issues + [DependencyIssue(rule.capability, d, rule.migrations)]; }
      }
      assert rule.requirements[..|rule.requirements|] == rule.requirements;
    }
    r := Ok(issues);
  }

  method ResolveRules(state: Option<Json>, rules: seq<Rule>) returns (r: Result<seq<DependencyIssue>, Thrown>)
    ensures r.Err? <==> exists i :: 0 <= i < |rules| && RuleThrows(state, rules[i])
    ensures r.Ok? ==> forall issue :: issue in r.value <==> UnmetBy(state, rules, issue)
  {
    hide Unmet, RuleThrows, UnmetBy;
    var issues := [];
    assert forall issue :: !UnmetBy(state, rules[..0], issue) by { NoRuleUnmet(state); }
    for i := 0 to |rules|
      invariant forall k :: 0 <= k < i ==> !RuleThrows(state, rules[k])
      invariant forall issue :: issue in issues <==> UnmetBy(state, rules[..i], issue)
    {
      var more := ResolveRule(state, rules[i]);
      if more.Err? { return more; }
      forall issue { UnmetByNext(state, rules, i, issue); }
      issues := issues + more.value;
    }
    assert rules[..|rules|] == rules;
    r := Ok(issues);
  }

  lemma NoRuleUnmet(state: Option<Json>)
    ensures forall issue :: !UnmetBy(state, [], issue)
  {
  }

  /** Throws exactly when a rule does, and otherwise finds every unmet requirement; a state
      that the validator accepts neither makes it throw nor has any. */
  method ResolveDependencyIssues(state: Option<Json>) returns (r: Result<seq<DependencyIssue>, Thrown>)
    ensures r.Err? <==> exists i :: 0 <= i < |RULES| && RuleThrows(state, RULES[i])
    ensures r.Ok? ==> forall issue :: issue in r.value <==> UnmetBy(state, RULES, issue)
    ensures Clean(state) ==> r == Ok([])
  {
    r := ResolveRules(state, RULES);
    if Clean(state) { CleanMeetsDependencies(state); }
    hide Unmet, RuleThrows, Clean, RULES, RuleMet;
    if DependenciesMet(state) {
      forall i | 0 <= i < |RULES| { MetMeansNoIssue(state, RULES[i]); }
      assert r.Ok? && r.value != [] ==> r.value[0] in r.value;
    }
  }

  lemma UnmetByNext(state: Option<Json>, rules: seq<Rule>, i: nat, issue: DependencyIssue)
    requires i < |rules|
    ensures UnmetBy(state, rules[..i + 1], issue)
            <==> UnmetBy(state, rules[..i], issue) || Unmet(state, rules[i], issue)
  {
    hide Unmet;
    var next := rules[..i + 1];
    assert forall k | 0 <= k < i :: next[k] == rules[..i][k];
    assert next[i] == rules[i];
    if UnmetBy(state, rules[..i], issue) {
      var k :| 0 <= k < i && Unmet(state, rules[..i][k], issue);
      assert Unmet(state, next[k], issue);
    }
    if UnmetBy(state, next, issue) {
      var k :| 0 <= k < i + 1 && Unmet(state, next[k], issue);
      assert k < i ==> Unmet(state, rules[..i][k], issue);
    }
  }

  lemma MetMeansNoIssue(state: Option<Json>, rule: Rule)
    requires RuleMet(state, rule)
    ensures !RuleThrows(state, rule) && forall issue :: !Unmet(state, rule, issue)
  {
    hide RuleSelected, Active;
  }

  // ---- Locked capabilities ----

  datatype Environment = Development | Testing | Staging | Production

  datatype PolicyError = NotAnObject | Disabled(violations: seq<string>)

  /** The two properties that the policy reads can be read. */
  predicate PolicyReadable(state: Option<Json>) {
    var platform := At(state, "platform");
    !Nullish(platform) && !Nullish(At(platform, "database")) && !Nullish(At(platform, "observability"))
  }

  predicate PrimaryDatastoreOn(state: Option<Json>) {
    Truthy(At(At(At(state, "platform"), "database"), "enabled"))
  }

  predicate LoggingOn(state: Option<Json>) {
    Truthy(At(At(At(state, "platform"), "observability"), "logging"))
  }

  predicate LockedMet(state: Option<Json>, environment: Environment) {
    environment == Production ==> PolicyReadable(state) && PrimaryDatastoreOn(state) && LoggingOn(state)
  }

  method AssertLockedState(state: Option<Json>, environment: Environment) returns (r: Result<(), PolicyError>)
    ensures r.Ok? <==> LockedMet(state, environment)
    ensures r == Err(NotAnObject) <==> environment == Production && !PolicyReadable(state)
    ensures r.Err? && r.error.Disabled? ==>
      && ("primary_persistent_datastore" in r.error.violations <==> !PrimaryDatastoreOn(state))
      && ("structured_logging" in r.error.violations <==> !LoggingOn(state))
  {
    hide Truthy;
    if environment != Production { return Ok(()); }
    if !PolicyReadable(state) { return Err(NotAnObject); }
    var violations: seq<string> := [];
    if !PrimaryDatastoreOn(state) { violations := violations + ["primary_persistent_datastore"]; }
    if !LoggingOn(state) { violations := violations + ["structured_logging"]; }
    if violations != [] { return Err(Disabled(violations)); }
    r := Ok(());
  }

  // ---- The two checkers agree ----

  /** Codes of the issues that concern what capabilities need of each other or policy locks. */
  predicate DependencyCode(code: Code) {
    code in {
      LockedDatabase, LockedLogging, RagDependency, BullmqRequiresRedis, RedisLockRequiresRedis,
      RedisIdempotencyRequiresRedis
    }
  }

  /** Whatever the validator reports is about dependencies or locks: shapes, providers and
      fallbacks are in order, object storage is on and so is every required capability. */
  ghost predicate WellShaped(state: Option<Json>) {
    forall issue :: Reported(state, issue) ==> DependencyCode(issue.code)
  }

  lemma WellShapedSelects(state: Option<Json>, name: string)
    requires WellShaped(state) && name in CAPABILITIES
    ensures HasShape(state)
    ensures var selected := Select(Get(At(state, "platform").value, name));
      selected.Some? && selected.value.provider in Providers(name)
  {
    assert !HasShape(state) ==> Reported(state, Issue([], InvalidShape));
    if HasShape(state) {
      var platform := At(state, "platform").value;
      var missing := Issue(CapabilityPath(name), MissingCapability);
      var invalid := Issue(CapabilityPath(name) + [Name("provider")], InvalidProvider);
      assert missing.path[1] == Name(name) && invalid.path[1] == Name(name);
      hide FlagReported, ObservabilityReported, LimitReported, RuleReported;
      assert CapabilityReported(platform, missing) ==> Reported(state, missing);
      assert CapabilityReported(platform, invalid) ==> Reported(state, invalid);
    }
  }

  lemma WellShapedStores(state: Option<Json>)
    requires WellShaped(state) && HasShape(state)
    ensures Enabled(At(state, "platform").value, "object_storage")
  {
    var platform := At(state, "platform").value;
    var off := RuleIssue(CoreCapabilityDisabled);
    hide FlagReported, ObservabilityReported, LimitReported, CapabilityReported, Enabled;
    assert RuleReported(platform, At(state, "features").value, off) ==> Reported(state, off);
  }

  lemma CleanBreaksNoRule(state: Option<Json>)
    requires WellShaped(state) && HasShape(state)
    ensures Clean(state) <==>
      (forall code :: !RuleBroken(At(state, "platform").value, At(state, "features").value, code))
  {
    var platform, features := At(state, "platform").value, At(state, "features").value;
    hide FlagReported, ObservabilityReported, LimitReported, CapabilityReported, RuleBroken, HasShape;
    if Clean(state) {
      forall code ensures !RuleBroken(platform, features, code) {
        assert RuleReported(platform, features, RuleIssue(code)) ==> Reported(state, RuleIssue(code));
      }
    } else {
      var issue :| Reported(state, issue);
      OnlyRulesReport(state, issue);
    }
  }

  /** Only the rules report issues with the codes of dependencies and locks. */
  lemma OnlyRulesReport(state: Option<Json>, issue: Issue)
    requires HasShape(state) && Reported(state, issue) && DependencyCode(issue.code)
    ensures RuleReported(At(state, "platform").value, At(state, "features").value, issue)
  {
    CapabilityIssuesHaveItsCodes(At(state, "platform").value, issue);
  }

  /** On a well-formed selection the validator and the engine read the same thing. */
  lemma SameReading(platform: Json, name: string, provider: string)
    requires Select(Get(platform, name)).Some?
    ensures !Nullish(Get(platform, name))
    ensures Truthy(At(Get(platform, name), "enabled")) == Enabled(platform, name)
    ensures Uses(Get(platform, name), provider) == EnabledWith(platform, name, provider)
  {
  }

  lemma ProviderRuleMet(state: Option<Json>, rule: Rule)
    requires WellShaped(state) && HasShape(state)
    requires rule.capability in CAPABILITIES && rule.whenProvider.Some?
    requires rule.requirements in {["redis"], ["postgres"]}
    ensures var platform := At(state, "platform").value;
      RuleMet(state, rule) <==>
      (EnabledWith(platform, rule.capability, rule.whenProvider.value) ==>
        if rule.requirements == ["redis"] then EnabledWith(platform, "cache", "redis")
        else EnabledWith(platform, "database", "postgres"))
  {
    var platform := At(state, "platform").value;
    WellShapedSelects(state, rule.capability);
    WellShapedSelects(state, "cache");
    WellShapedSelects(state, "database");
    SameReading(platform, rule.capability, rule.whenProvider.value);
    SameReading(platform, "cache", "redis");
    SameReading(platform, "database", "postgres");
    assert !Nullish(Some(platform)) && At(state, "platform") == Some(platform);
    hide WellShaped, Select, EnabledWith, Enabled, Truthy;
    assert RuleSelected(state, rule) == Ok(EnabledWith(platform, rule.capability, rule.whenProvider.value)) by {
      assert rule.capability != "rag";
      assert Read(Some(platform), rule.capability) == Ok(Get(platform, rule.capability));
    }
    assert Active(state, "redis") == Ok(EnabledWith(platform, "cache", "redis"));
    assert Active(state, "postgres") == Ok(EnabledWith(platform, "database", "postgres"));
    assert rule.requirements == ["redis"] ==> rule.requirements[0] == "redis";
    assert rule.requirements == ["postgres"] ==> rule.requirements[0] == "postgres";
  }

  lemma RagRuleMet(state: Option<Json>, rule: Rule)
    requires WellShaped(state) && HasShape(state)
    requires rule.capability == "rag" && rule.requirements == ["ai", "vector_store", "object_storage"]
    ensures var platform := At(state, "platform").value;
      RuleMet(state, rule) <==>
      (Truthy(Get(At(state, "features").value, "rag")) ==>
        Enabled(platform, "ai") && Enabled(platform, "vector_store") && Enabled(platform, "object_storage"))
  {
    var platform := At(state, "platform").value;
    var needs := rule.requirements;
    forall name | name in needs ensures Active(state, name) == Ok(Enabled(platform, name)) {
      WellShapedSelects(state, name);
      SameReading(platform, name, "");
    }
    assert needs[0] == "ai" && needs[1] == "vector_store" && needs[2] == "object_storage";
    assert RuleSelected(state, rule) == Ok(Truthy(Get(At(state, "features").value, "rag")));
    hide WellShaped, Select, Enabled, Truthy, Active, RuleSelected;
  }

  lemma NineRules(state: Option<Json>)
    ensures DependenciesMet(state) <==>
      RuleMet(state, RULES[0]) && RuleMet(state, RULES[1]) && RuleMet(state, RULES[2])
      && RuleMet(state, RULES[3]) && RuleMet(state, RULES[4]) && RuleMet(state, RULES[5])
      && RuleMet(state, RULES[6]) && RuleMet(state, RULES[7]) && RuleMet(state, RULES[8])
  {
    assert |RULES| == 9;
    hide RuleMet, RULES;
  }

  predicate NeedsPostgres(platform: Json, name: string, provider: string) {
    EnabledWith(platform, name, provider) ==> EnabledWith(platform, "database", "postgres")
  }

  /** For a well-shaped state no rule of the engine is broken exactly when Redis is there for the
      three that need it, the database for the five that do, and all three parts of RAG for RAG. */
  lemma EngineExactly(state: Option<Json>)
    requires WellShaped(state) && HasShape(state)
    ensures var platform, features := At(state, "platform").value, At(state, "features").value;
      DependenciesMet(state) <==>
      && NeedsRedis(platform, "queue", "bullmq") && NeedsRedis(platform, "distributed_lock", "redis")
      && NeedsRedis(platform, "idempotency", "redis")
      && NeedsPostgres(platform, "distributed_lock", "postgres") && NeedsPostgres(platform, "idempotency", "postgres")
      && NeedsPostgres(platform, "event_bus", "outbox") && NeedsPostgres(platform, "search", "postgres")
      && NeedsPostgres(platform, "vector_store", "pgvector") && RagReady(platform, features)
  {
    NineRules(state);
    hide WellShaped, RuleMet, DependenciesMet, EnabledWith, Enabled, HasShape, Truthy;
    ProviderRuleMet(state, RULES[0]);
    ProviderRuleMet(state, RULES[1]);
    ProviderRuleMet(state, RULES[2]);
    ProviderRuleMet(state, RULES[3]);
    ProviderRuleMet(state, RULES[4]);
    ProviderRuleMet(state, RULES[5]);
    ProviderRuleMet(state, RULES[6]);
    ProviderRuleMet(state, RULES[7]);
    RagRuleMet(state, RULES[8]);
  }

  lemma RulesAre(platform: Json, features: Json)
    requires Enabled(platform, "object_storage")
    ensures (forall code :: !RuleBroken(platform, features, code)) <==>
      EnabledWith(platform, "database", "postgres") && Truthy(At(Get(platform, "observability"), "logging"))
      && NeedsRedis(platform, "queue", "bullmq") && NeedsRedis(platform, "distributed_lock", "redis")
      && NeedsRedis(platform, "idempotency", "redis") && RagReady(platform, features)
  {
    RuleCases(platform, features);
    hide RuleBroken, EnabledWith, Enabled, Truthy, Get, At, RagReady, NeedsRedis;
  }

  lemma LockedIs(state: Option<Json>)
    requires WellShaped(state) && HasShape(state)
    ensures var platform := At(state, "platform").value;
      LockedMet(state, Production) <==>
      EnabledWith(platform, "database", "postgres") && Truthy(At(Get(platform, "observability"), "logging"))
  {
    WellShapedSelects(state, "database");
    SameReading(At(state, "platform").value, "database", "postgres");
    hide WellShaped;
  }

  /** For a well-shaped state, with object storage and every required capability on, the
      validator reports nothing exactly when no dependency rule is broken and the production
      policy holds. */
  lemma CheckersAgree(state: Option<Json>)
    requires WellShaped(state)
    ensures Clean(state) <==> DependenciesMet(state) && LockedMet(state, Production)
  {
    WellShapedSelects(state, "database");
    var platform, features := At(state, "platform").value, At(state, "features").value;
    WellShapedStores(state);
    CleanBreaksNoRule(state);
    RulesAre(platform, features);
    LockedIs(state);
    hide WellShaped, Clean, DependenciesMet, LockedMet, RuleBroken, Enabled, EnabledWith, Truthy, Get, At;
    EngineExactly(state);
  }

  lemma CleanMeetsDependencies(state: Option<Json>)
    requires Clean(state)
    ensures DependenciesMet(state) && forall environment :: LockedMet(state, environment)
  {
    CheckersAgree(state);
  }

  /** The gate accepts a state in one environment exactly when it accepts it in every other:
      when the validator reports nothing. It reports what the validator does, and the locked
      policy once where that fails. */
  method ValidatePlatformState(state: Option<Json>, environment: Environment)
    returns (valid: bool, schemaIssues: seq<Issue>, dependencyIssues: seq<DependencyIssue>)
    ensures valid <==> Clean(state)
    ensures Distinct(schemaIssues) && dependencyIssues == []
    ensures forall issue :: issue in schemaIssues <==>
      Reported(state, issue) || (issue == Issue([Name("platform")], LockedPolicy) && !LockedMet(state, environment))
  {
    schemaIssues := ValidateDesiredState(state);
    dependencyIssues := [];
    if Clean(state) { CleanMeetsDependencies(state); }
    var policy := AssertLockedState(state, environment);
    var locked := Issue([Name("platform")], LockedPolicy);
    NeverReportsPolicy(state, locked);
    if policy.Err? { schemaIssues := schemaIssues + [locked]; }
    valid := schemaIssues == [] && dependencyIssues == [];
    hide Reported, LockedMet;
    assert schemaIssues != [] ==> schemaIssues[0] in schemaIssues;
  }

  lemma NeverReportsPolicy(state: Option<Json>, issue: Issue)
    requires issue.code == LockedPolicy
    ensures !Reported(state, issue)
  {
    if HasShape(state) { CapabilityIssuesHaveItsCodes(At(state, "platform").value, issue); }
  }

  // ---- What an accepted state is ----

  predicate SupportedFallback(name: string, fallback: Option<Json>) {
    fallback.Some? && fallback.value.Str? && fallback.value.s in Fallbacks(name)
  }

  /** Of a supported provider, enabled if required, and with a supported fallback if it is
      enabled and can have one; a fallback that is given is supported in any case. */
  predicate InOrder(name: string, selected: Option<Selection>) {
    && selected.Some? && selected.value.provider in Providers(name)
    && (Truthy(selected.value.required) ==> selected.value.enabled)
    && (HasFallbacks(name) && (selected.value.enabled || Truthy(selected.value.fallback)) ==>
          SupportedFallback(name, selected.value.fallback))
  }

  ghost predicate Acceptable(state: Option<Json>) {
    && HasShape(state)
    && var platform, features := At(state, "platform").value, At(state, "features").value;
    && FlagsInOrder(features) && ObservabilityInOrder(Get(platform, "observability"))
    && LimitsInOrder(At(state, "limits"))
    && (forall name :: name in CAPABILITIES ==> InOrder(name, Select(Get(platform, name))))
    && EnabledWith(platform, "database", "postgres") && Enabled(platform, "object_storage")
    && Truthy(At(Get(platform, "observability"), "logging")) && RagReady(platform, features)
    && NeedsRedis(platform, "queue", "bullmq") && NeedsRedis(platform, "distributed_lock", "redis")
    && NeedsRedis(platform, "idempotency", "redis")
  }

  ghost predicate FlagsInOrder(features: Json) {
    forall key :: key in Entries(features) ==> Entries(features)[key].Bool?
  }

  predicate ObservabilityInOrder(observability: Option<Json>) {
    Truthy(observability) ==>
      && IsBool(At(observability, "metrics")) && IsBool(At(observability, "tracing"))
      && IsBool(At(observability, "logging"))
  }

  ghost predicate LimitsInOrder(limits: Option<Json>) {
    Truthy(limits) ==> forall key :: key in Entries(limits.value) ==> ValidLimit(Entries(limits.value)[key])
  }

  lemma NoFlagReported(features: Json)
    ensures (forall issue :: !FlagReported(features, issue)) <==> FlagsInOrder(features)
  {
    hide Entries;
    forall key | key in Entries(features) && !Entries(features)[key].Bool?
      ensures FlagReported(features, Issue([Name("features"), key], InvalidFeatureFlag))
    {
    }
  }

  lemma NoObservabilityReported(observability: Option<Json>)
    ensures (forall issue :: !ObservabilityReported(observability, issue)) <==> ObservabilityInOrder(observability)
  {
    hide Truthy, IsBool, At;
    forall flag | flag in ["metrics", "tracing", "logging"] && Truthy(observability) && !IsBool(At(observability, flag))
      ensures ObservabilityReported(observability, ObservabilityIssue(flag))
    {
    }
    var flags := ["metrics", "tracing", "logging"];
    assert flags[0] in flags && flags[1] in flags && flags[2] in flags;
  }

  lemma NoLimitReported(limits: Option<Json>)
    ensures (forall issue :: !LimitReported(limits, issue)) <==> LimitsInOrder(limits)
  {
    hide Entries;
    if Truthy(limits) {
      forall key | key in Entries(limits.value) && !ValidLimit(Entries(limits.value)[key])
        ensures LimitReported(limits, Issue([Name("limits"), key], InvalidLimit))
      {
      }
    }
  }

  lemma SupportedIsTruthy(name: string, fallback: Option<Json>)
    ensures SupportedFallback(name, fallback) ==> Truthy(fallback)
    ensures Truthy(fallback) ==> fallback.Some?
  {
    assert "" !in Fallbacks(name);
  }

  lemma NoIssueMeansInOrder(name: string, selected: Option<Selection>)
    ensures (forall issue :: !CapabilityIssue(name, selected, issue)) <==> InOrder(name, selected)
  {
    var path := CapabilityPath(name);
    var issues := [
      Issue(path, MissingCapability), Issue(path + [Name("provider")], InvalidProvider),
      Issue(path + [Name("enabled")], RequiredDisabled), Issue(path + [Name("fallback")], MissingFallback),
      Issue(path + [Name("fallback")], InvalidFallback)];
    if selected.Some? { SupportedIsTruthy(name, selected.value.fallback); }
    hide Truthy, Providers, Fallbacks, HasFallbacks, CapabilityPath;
    if forall issue :: !CapabilityIssue(name, selected, issue) {
      assert !CapabilityIssue(name, selected, issues[0]);
      assert !CapabilityIssue(name, selected, issues[1]);
      assert !CapabilityIssue(name, selected, issues[2]);
      assert !CapabilityIssue(name, selected, issues[3]);
      assert !CapabilityIssue(name, selected, issues[4]);
    }
  }

  lemma ReportedByName(platform: Json, name: string, issue: Issue)
    requires name in CAPABILITIES && CapabilityIssue(name, Select(Get(platform, name)), issue)
    ensures CapabilityReported(platform, issue)
  {
    IssueNamesItsCapability(name, Select(Get(platform, name)), issue);
    hide CapabilityIssue, Select, Get;
  }

  lemma NoCapabilityReported(platform: Json)
    ensures (forall issue :: !CapabilityReported(platform, issue))
            <==> (forall name :: name in CAPABILITIES ==> InOrder(name, Select(Get(platform, name))))
  {
    hide InOrder, CapabilityIssue, Select, Get, CAPABILITIES;
    if issue :| CapabilityReported(platform, issue) {
      var name := issue.path[1].name;
      NoIssueMeansInOrder(name, Select(Get(platform, name)));
    } else {
      forall name | name in CAPABILITIES ensures InOrder(name, Select(Get(platform, name))) {
        NoIssueMeansInOrder(name, Select(Get(platform, name)));
        forall issue ensures !CapabilityIssue(name, Select(Get(platform, name)), issue) {
          if CapabilityIssue(name, Select(Get(platform, name)), issue) { ReportedByName(platform, name, issue); }
        }
      }
    }
  }

  lemma NoRuleReported(platform: Json, features: Json)
    ensures (forall issue :: !RuleReported(platform, features, issue))
            <==> (forall code :: !RuleBroken(platform, features, code))
  {
    hide RuleBroken;
    forall code ensures RuleReported(platform, features, RuleIssue(code)) <==> RuleBroken(platform, features, code) {
      assert RuleIssue(code).code == code;
    }
  }

  lemma CleanParts(state: Option<Json>)
    requires HasShape(state)
    ensures var platform, features := At(state, "platform").value, At(state, "features").value;
      Clean(state) <==>
      (forall issue :: !FlagReported(features, issue))
      && (forall issue :: !ObservabilityReported(Get(platform, "observability"), issue))
      && (forall issue :: !LimitReported(At(state, "limits"), issue))
      && (forall issue :: !CapabilityReported(platform, issue))
      && (forall issue :: !RuleReported(platform, features, issue))
  {
    var platform, features := At(state, "platform").value, At(state, "features").value;
    hide FlagReported, ObservabilityReported, LimitReported, CapabilityReported, RuleReported, HasShape, Get, At;
    forall issue
      ensures Reported(state, issue) <==>
        FlagReported(features, issue) || ObservabilityReported(Get(platform, "observability"), issue)
        || LimitReported(At(state, "limits"), issue) || CapabilityReported(platform, issue)
        || RuleReported(platform, features, issue)
    {
    }
    hide Reported;
  }

  /** The validator reports nothing exactly for the acceptable states. */
  lemma AcceptedExactly(state: Option<Json>)
    ensures Clean(state) <==> Acceptable(state)
  {
    assert !HasShape(state) ==> Reported(state, Issue([], InvalidShape));
    if HasShape(state) {
      var platform, features := At(state, "platform").value, At(state, "features").value;
      hide FlagReported, ObservabilityReported, LimitReported, CapabilityReported, RuleReported, RuleBroken, InOrder,
        FlagsInOrder, ObservabilityInOrder, LimitsInOrder, Enabled, EnabledWith, Truthy, RagReady, NeedsRedis, Get, At,
        Select, HasShape, Reported;
      CleanParts(state);
      NoFlagReported(features);
      NoObservabilityReported(Get(platform, "observability"));
      NoLimitReported(At(state, "limits"));
      NoCapabilityReported(platform);
      NoRuleReported(platform, features);
      hide Clean;
      RuleCases(platform, features);
    }
  }

  // ---- Which providers and fallbacks pass ----

  /** The providers that each capability may have. */
  predicate InCatalogue(name: string, v: string) {
    || (name == "database" && v == "postgres")
    || (name == "cache" && v in {"redis", "memory", "none"})
    || (name == "distributed_lock" && v in {"redis", "postgres"})
    || (name == "idempotency" && v in {"redis", "postgres"})
    || (name == "queue" && v in {"sqs", "bullmq", "rabbitmq", "sync"})
    || (name == "event_bus" && v in {"kafka", "sns-sqs", "outbox"})
    || (name == "object_storage" && v in {"s3", "minio", "filesystem"})
    || (name == "vector_store" && v in {"pgvector", "disabled"})
    || (name == "search" && v in {"opensearch", "postgres"})
    || (name == "ai" && v in {"local-ai", "bedrock", "external", "disabled"})
  }

  lemma CatalogueIs(name: string, v: string)
    requires name in CAPABILITIES
    ensures v in Providers(name) <==> InCatalogue(name, v)
    ensures HasFallbacks(name) <==> name != "database" && name != "vector_store"
    ensures HasFallbacks(name) ==> (v in Fallbacks(name) <==> InCatalogue(name, v))
    ensures InCatalogue(name, v) ==> v != ""
  {
  }

  /** A provider and a fallback for every capability. */
  datatype Choice = Choice(provider: string -> string, fallback: string -> string)

  function ChosenCapability(c: Choice, name: string): Json {
    Obj(map["enabled" := Bool(true)]["provider" := Str(c.provider(name))]["fallback" := Str(c.fallback(name))])
  }

  const ALL_OBSERVED := Obj(map["metrics" := Bool(true)]["tracing" := Bool(true)]["logging" := Bool(true)])

  const WITH_RAG := Obj(map["rag" := Bool(true)])

  function ChosenPlatform(c: Choice): Json {
    Obj(map name | name in CAPABILITIES + {"observability"} ::
          if name == "observability" then ALL_OBSERVED else ChosenCapability(c, name))
  }

  /** Everything on, with these providers and fallbacks. */
  function ChosenState(c: Choice): Json {
    Obj(map["platform" := ChosenPlatform(c)]["features" := WITH_RAG])
  }

  lemma ChosenReads(c: Choice, name: string)
    ensures var capability := Some(ChosenCapability(c, name));
      && At(capability, "enabled") == Some(Bool(true)) && At(capability, "provider") == Some(Str(c.provider(name)))
      && At(capability, "fallback") == Some(Str(c.fallback(name))) && At(capability, "required") == None
  {
  }

  lemma ChosenSelects(c: Choice, name: string)
    requires name in CAPABILITIES
    ensures Select(Get(ChosenPlatform(c), name))
            == if c.provider(name) == "" then None
               else Some(Selection(true, c.provider(name), Some(Str(c.fallback(name))), None))
  {
    assert name != "observability";
    assert Get(ChosenPlatform(c), name) == Some(ChosenCapability(c, name));
    ChosenReads(c, name);
    hide ChosenPlatform, ChosenCapability, CAPABILITIES, Get, At;
  }

  predicate WellChosen(c: Choice, name: string) {
    InCatalogue(name, c.provider(name))
    && (name != "database" && name != "vector_store" ==> InCatalogue(name, c.fallback(name)))
  }

  lemma ChosenInOrder(c: Choice, name: string)
    requires name in CAPABILITIES
    ensures InOrder(name, Select(Get(ChosenPlatform(c), name))) <==> WellChosen(c, name)
  {
    ChosenSelects(c, name);
    CatalogueIs(name, c.provider(name));
    CatalogueIs(name, c.fallback(name));
    hide ChosenPlatform, Select, Get, CAPABILITIES, Providers, Fallbacks, HasFallbacks, InCatalogue;
  }

  lemma ChosenEnables(c: Choice, name: string, provider: string)
    requires name in CAPABILITIES && WellChosen(c, name)
    ensures Enabled(ChosenPlatform(c), name)
    ensures EnabledWith(ChosenPlatform(c), name, provider) <==> c.provider(name) == provider
  {
    ChosenSelects(c, name);
    CatalogueIs(name, c.provider(name));
    hide ChosenPlatform, Select, InCatalogue, Providers, Fallbacks, HasFallbacks, CAPABILITIES;
  }

  lemma ChosenParts(c: Choice)
    ensures At(Some(ChosenState(c)), "platform") == Some(ChosenPlatform(c))
    ensures At(Some(ChosenState(c)), "features") == Some(WITH_RAG)
    ensures At(Some(ChosenState(c)), "limits") == None
    ensures HasShape(Some(ChosenState(c)))
    ensures Get(ChosenPlatform(c), "observability") == Some(ALL_OBSERVED)
  {
    hide CAPABILITIES;
  }

  lemma ObjectEntries(fields: map<string, Json>, key: Key)
    ensures key in Entries(Obj(fields)) <==> key.Name? && key.name in fields
    ensures key in Entries(Obj(fields)) ==> Entries(Obj(fields))[key] == fields[key.name]
  {
  }

  lemma RagIsAFlag()
    ensures FlagsInOrder(WITH_RAG)
  {
    forall key | key in Entries(WITH_RAG) ensures Entries(WITH_RAG)[key].Bool? {
      ObjectEntries(WITH_RAG.fields, key);
    }
  }

  lemma AllIsObserved()
    ensures ObservabilityInOrder(Some(ALL_OBSERVED)) && Truthy(At(Some(ALL_OBSERVED), "logging"))
  {
    assert ALL_OBSERVED.fields["metrics"] == ALL_OBSERVED.fields["tracing"]
           == ALL_OBSERVED.fields["logging"] == Bool(true);
  }

  /** The rules for Redis, on the chosen providers. */
  predicate RedisChosen(c: Choice) {
    c.provider("queue") == "bullmq" || c.provider("distributed_lock") == "redis" || c.provider("idempotency") == "redis"
    ==> c.provider("cache") == "redis"
  }

  lemma ChosenRules(c: Choice)
    requires forall name :: name in CAPABILITIES ==> WellChosen(c, name)
    ensures var platform := ChosenPlatform(c);
      && EnabledWith(platform, "database", "postgres") && Enabled(platform, "object_storage")
      && RagReady(platform, WITH_RAG)
      && (RedisChosen(c) <==>
            NeedsRedis(platform, "queue", "bullmq") && NeedsRedis(platform, "distributed_lock", "redis")
            && NeedsRedis(platform, "idempotency", "redis"))
  {
    CapabilityNames();
    hide CAPABILITIES;
    assert InCatalogue("database", c.provider("database"));
    hide ChosenPlatform, WITH_RAG, Enabled, EnabledWith, WellChosen, InCatalogue;
    ChosenEnables(c, "database", "postgres");
    ChosenEnables(c, "object_storage", "");
    ChosenEnables(c, "ai", "");
    ChosenEnables(c, "vector_store", "");
    ChosenEnables(c, "cache", "redis");
    ChosenEnables(c, "queue", "bullmq");
    ChosenEnables(c, "distributed_lock", "redis");
    ChosenEnables(c, "idempotency", "redis");
  }

  lemma CapabilityNames()
    ensures "database" in CAPABILITIES && "object_storage" in CAPABILITIES && "ai" in CAPABILITIES
    ensures "vector_store" in CAPABILITIES && "cache" in CAPABILITIES && "queue" in CAPABILITIES
    ensures "distributed_lock" in CAPABILITIES && "idempotency" in CAPABILITIES
    ensures "event_bus" in CAPABILITIES && "search" in CAPABILITIES && |CAPABILITIES| == 10
  {
  }

  /** With everything on the validator reports nothing exactly when every provider, and every
      fallback but those of the database and the vector store, is in the catalogue, and Redis is the
      cache wherever something relies on it. */
  lemma ChoiceAcceptedExactly(c: Choice)
    ensures Clean(Some(ChosenState(c))) <==>
      (forall name :: name in CAPABILITIES ==> WellChosen(c, name)) && RedisChosen(c)
  {
    AcceptedExactly(Some(ChosenState(c)));
    ChosenParts(c);
    RagIsAFlag();
    AllIsObserved();
    forall name | name in CAPABILITIES { ChosenInOrder(c, name); }
    hide Clean, ChosenState, ChosenPlatform, FlagsInOrder, ObservabilityInOrder, InOrder, Select, Enabled, EnabledWith,
      RagReady, NeedsRedis, WellChosen, RedisChosen, CAPABILITIES, HasShape, Get, At, Truthy, ALL_OBSERVED, WITH_RAG;
    if forall name :: name in CAPABILITIES ==> WellChosen(c, name) { ChosenRules(c); }
  }

  function LocalProvider(name: string): string {
    if name == "cache" then "memory"
    else if name == "queue" then "sync"
    else if name == "event_bus" then "outbox"
    else if name == "object_storage" then "filesystem"
    else if name == "vector_store" then "pgvector"
    else if name == "ai" then "local-ai"
    else "postgres"
  }

  /** The validator accepts everything on local providers. */
  lemma LocalStateIsClean()
    ensures Clean(Some(ChosenState(Choice(LocalProvider, LocalProvider))))
  {
    var c := Choice(LocalProvider, LocalProvider);
    forall name | name in CAPABILITIES ensures WellChosen(c, name) { LocalInCatalogue(name); }
    assert LocalProvider("queue") == "sync" && LocalProvider("distributed_lock") == "postgres";
    assert LocalProvider("idempotency") == "postgres";
    assert RedisChosen(c);
    hide *;
    ChoiceAcceptedExactly(c);
  }

  lemma LocalInCatalogue(name: string)
    requires name in CAPABILITIES
    ensures InCatalogue(name, LocalProvider(name))
  {
  }
}

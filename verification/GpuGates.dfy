/**
 * The gates an artifact has to pass before anything may be claimed from it: each
 * one as the script computes it, and as a statement about the artifact.
 */
module GpuGates {
  import opened Options
  import opened Text
  import opened Json
  import Q6Writeback

  /**
   * What the gates take from outside the artifact: the manifest's token and variable lists,
   * how Python prints a value that is not a string, and which texts convert to a positive float.
   */
  datatype Config = Config(
    unsupportedTokens: seq<string>,
    requiredEnvs: seq<string>,
    render: Json -> string,
    positiveText: string -> bool)

  /** `str(value)` */
  function TextOf(cfg: Config, value: Json): string {
    match value
    case Null => "None"
    case Bool(b) => if b then "True" else "False"
    case Int(n) => Decimal(n)
    case Str(s) => s
    case _ => cfg.render(value)
  }

  /** `str(value or "")` */
  function TextOrEmpty(cfg: Config, value: Json): string {
    if Truthy(value) then TextOf(cfg, value) else ""
  }

  function Dict(value: Json): Json {
    if value.Obj? then value else Obj([])
  }

  function NonEmptyTexts(cfg: Config, items: seq<Json>): (r: seq<string>)
    ensures forall t :: t in r <==> t != "" && exists k :: 0 <= k < |items| && TextOf(cfg, items[k]) == t
  {
    if items == [] then []
    else
      var rest := NonEmptyTexts(cfg, items[1..]);
      var t := TextOf(cfg, items[0]);
      assert forall k :: 1 <= k < |items| ==> items[k] == items[1..][k - 1];
      if t == "" then rest else [t] + rest
  }

  /** A value a set of strings can be asked about; others raise. */
  predicate Hashable(value: Json) {
    !value.List? && !value.Obj?
  }

  // ---------- memory and readiness ----------

  predicate MemoryError(cfg: Config, data: Json) {
    var text := TextOrEmpty(cfg, Field(data, "error"));
    text == "insufficient_memory" || text == "runtime_memory_pressure"
  }

  predicate IsCompareArtifact(data: Json) {
    Field(data, "schema") == Str("pdocker.llama.gpu.compare.v1")
  }

  /** `_readiness_false` */
  predicate ReadinessFalse(data: Json) {
    || Field(Field(data, "readiness"), "ready") == False
    || (Field(data, "schema") == Str("pdocker.llama.gpu.device-readiness.v1") && Field(data, "ready") == False)
  }

  // ---------- the service ----------

  predicate Passed(summary: Json, part: Json, key: string) {
    Field(summary, key) == Str("pass") || Field(part, "ok") == True
  }

  predicate TimedOut(cfg: Config, completion: Json) {
    var lowered := Lower(TextOrEmpty(cfg, Field(completion, "error")));
    Contains(lowered, "timed out") || Contains(lowered, "timeouterror")
  }

  /** `_service_completion_timeout`: healthy, models listed, and still no completion. */
  predicate CompletionTimeout(cfg: Config, data: Json) {
    var readiness := Field(Field(data, "gpu"), "service_readiness");
    var summary := Field(readiness, "summary");
    && !(IsCompareArtifact(data) && Field(Field(data, "gpu"), "served") != True)
    && Field(readiness, "schema") == Str("pdocker.llama.service-readiness.v1")
    && Passed(summary, Field(readiness, "health"), "health")
    && Passed(summary, Field(readiness, "models"), "models")
    && !Passed(summary, Field(readiness, "completion"), "completion")
    && TimedOut(cfg, Field(readiness, "completion"))
  }

  // ---------- runtime markers ----------

  function Freshness(data: Json): Json {
    Dict(Or(Field(data, "runtime_freshness"), Field(Field(Field(data, "gpu"), "diagnostics"), "runtime_freshness")))
  }

  function Items(value: Json): seq<Json> {
    if value.List? then value.items else []
  }

  /** `_observed_executor_marker_ok` */
  predicate ExecutorMarkerOk(cfg: Config, observed: Json, expected: Json) {
    var markers := NonEmptyTexts(cfg, Items(observed));
    var wanted := TextOrEmpty(cfg, expected);
    if wanted != "" then wanted in markers else markers != []
  }

  /** `_observed_icd_marker_ok`: without an expected marker anything passes. */
  predicate IcdMarkerOk(cfg: Config, observed: Json, expected: Json) {
    var markers := NonEmptyTexts(cfg, Items(observed));
    var wanted := TextOrEmpty(cfg, expected);
    wanted != "" ==> wanted in markers
  }

  /** One of the observed markers is a real one, and the expected one when one is expected. */
  ghost predicate Observed(cfg: Config, observed: Json, expected: Json) {
    var wanted := TextOrEmpty(cfg, expected);
    && observed.List?
    && exists k :: 0 <= k < |observed.items|
         && TextOf(cfg, observed.items[k]) != ""
         && (wanted == "" || TextOf(cfg, observed.items[k]) == wanted)
  }

  lemma ExecutorMarkerMeansObserved(cfg: Config, observed: Json, expected: Json)
    ensures ExecutorMarkerOk(cfg, observed, expected) <==> Observed(cfg, observed, expected)
  {
    hide TextOf, TextOrEmpty;
    var items := Items(observed);
    var markers := NonEmptyTexts(cfg, items);
    if markers != [] {
      assert markers[0] in markers;
    }
    if Observed(cfg, observed, expected) {
      var k :| 0 <= k < |items| && TextOf(cfg, items[k]) != ""
               && (TextOrEmpty(cfg, expected) == "" || TextOf(cfg, items[k]) == TextOrEmpty(cfg, expected));
      assert TextOf(cfg, items[k]) in markers;
    }
  }

  lemma IcdMarkerMeansObserved(cfg: Config, observed: Json, expected: Json)
    ensures IcdMarkerOk(cfg, observed, expected) <==>
            TextOrEmpty(cfg, expected) == "" || Observed(cfg, observed, expected)
  {
    hide TextOf, TextOrEmpty;
    if TextOrEmpty(cfg, expected) != "" {
      ExecutorMarkerMeansObserved(cfg, observed, expected);
    }
  }

  predicate ExecutorFresh(cfg: Config, data: Json) {
    var f := Freshness(data);
    ExecutorMarkerOk(cfg, Field(f, "observed_executor_markers"), Field(f, "expected_executor_marker"))
  }

  predicate IcdFresh(cfg: Config, data: Json) {
    var f := Freshness(data);
    IcdMarkerOk(cfg, Field(f, "observed_icd_markers"), Field(f, "expected_icd_marker"))
  }

  // ---------- setup blockers before HTTP ----------

  datatype Setup =
    | PipelineFeature
    | QueueSubmit
    | SpirvDispatch
    | BufferAllocation
    | BufferRange
    | DeviceDiscovery
    | MemoryPressure

  function SetupOf(text: string): Option<Setup> {
    if text == "vulkan_pipeline_feature" then Some(PipelineFeature)
    else if text == "vulkan_queue_submit_feature" then Some(QueueSubmit)
    else if text == "vulkan_generic_spirv_dispatch" then Some(SpirvDispatch)
    else if text == "vulkan_buffer_allocation" then Some(BufferAllocation)
    else if text == "vulkan_buffer_range_accounting" then Some(BufferRange)
    else if text == "vulkan_device_discovery" then Some(DeviceDiscovery)
    else if text == "runtime_memory_pressure" then Some(MemoryPressure)
    else None
  }

  /** `int(q6.get("event_count", 0)) > 0`, false when the conversion raises. */
  predicate EventsCounted(q6: Json) {
    match IntOf(Field(q6, "event_count"))
    case Some(n) => n > 0
    case None => false
  }

  /** `_pre_http_gpu_blocker` */
  function SetupBlocker(cfg: Config, data: Json, diagnostics: Json): Option<Setup> {
    if !IsCompareArtifact(data) || Field(Field(data, "gpu"), "served") == True then None
    else if EventsCounted(Field(diagnostics, "q6_workgroup_diagnostics")) then None
    else SetupOf(TextOrEmpty(cfg, Field(diagnostics, "blocker_class")))
  }

  const FEATURE_KEYS := [
    "spirv_required_feature_mask", "spirv_requested_feature_missing_mask", "spirv_requested_feature_mismatches",
    "android_vulkan_features", "android_vulkan_enabled_features"
  ]

  /** The first failed dispatch event, or an empty object. */
  function FailureEvent(diagnostics: Json): Json {
    var events := Objects(Items(Field(Field(diagnostics, "generic_spirv_dispatch"), "failed_events")));
    if events == [] then Obj([]) else events[0]
  }

  predicate FeatureChainIcd(cfg: Config, freshness: Json) {
    var marker := "vulkan-icd-feature-chain-marker-20260518";
    || TextOrEmpty(cfg, Field(freshness, "expected_icd_marker")) == marker
    || marker in NonEmptyTexts(cfg, Items(Field(freshness, "observed_icd_markers")))
  }

  /** `_pre_http_feature_evidence_missing` is not empty. */
  predicate FeatureEvidenceMissing(cfg: Config, blocker: Setup, diagnostics: Json, freshness: Json) {
    && blocker.PipelineFeature?
    && FeatureChainIcd(cfg, freshness)
    && exists key | key in FEATURE_KEYS :: !Has(FailureEvent(diagnostics), key)
  }

  // ---------- configuration propagation ----------

  function ConfigRecord(data: Json): Json {
    Dict(Or(Field(data, "config_propagation"), Field(Field(Field(data, "gpu"), "diagnostics"), "config_propagation")))
  }

  /** What one check says, key by key. */
  datatype Check =
    | NotACheck
    | Check(env: Json, executorField: Json, status: Json, expected: Json, observed: Json)

  function ReadCheck(item: Json): Check {
    if !item.Obj? then NotACheck
    else Check(Field(item, "env"), Field(item, "executor_field"), Field(item, "status"), Field(item, "expected"),
               Field(item, "observed_values"))
  }

  function ReadChecks(items: seq<Json>): seq<Check> {
    seq(|items|, i requires 0 <= i < |items| => ReadCheck(items[i]))
  }

  predicate Names(cfg: Config, check: Check, env: string) {
    check.Check? && TextOf(cfg, check.env) == env
  }

  /** `_config_propagation_manifest_misses` is not empty. */
  predicate EnvMissed(cfg: Config, checks: seq<Check>) {
    exists env | env in cfg.requiredEnvs :: forall k | 0 <= k < |checks| :: !Names(cfg, checks[k], env)
  }

  /** One turn of the loop over checks; None when asking a set about an unhashable status raises. */
  function CheckFails(check: Check): Option<bool> {
    if check.NotACheck? then Some(true)
    else if !Truthy(check.env) || !Truthy(check.executorField) then Some(true)
    else if !Hashable(check.status) then None
    else if check.status == Str("missing-evidence") || check.status == Str("mismatch") then Some(true)
    else if check.expected == Null then Some(false)
    else if !check.observed.List? || check.observed.items == [] then Some(true)
    else Some(check.status != Str("pass"))
  }

  function AnyCheckFails(checks: seq<Check>): Option<bool> {
    if checks == [] then Some(false)
    else if CheckFails(checks[0]) == Some(false) then AnyCheckFails(checks[1..])
    else CheckFails(checks[0])
  }

  /** What `_config_propagation` holds: whether it is empty, its summary, and its checks. */
  datatype Propagation = Propagation(empty: bool, failSummary: bool, checks: Option<seq<Check>>)

  function ReadPropagation(record: Json): Propagation {
    var checks := Field(record, "checks");
    Propagation(!Truthy(record), Field(record, "summary") == Str("fail"),
                if checks.List? then Some(ReadChecks(checks.items)) else if Truthy(checks) then None else Some([]))
  }

  /** `_config_propagation_missing` */
  predicate ConfigMissing(compare: bool, p: Propagation) {
    compare && (p.checks.None? || p.checks.value == [])
  }

  /** `_config_propagation_failed` */
  function ConfigFailed(cfg: Config, p: Propagation): Option<bool> {
    if p.failSummary then Some(true)
    else if p.checks.None? then Some(false)
    else if !p.empty && EnvMissed(cfg, p.checks.value) then Some(true)
    else AnyCheckFails(p.checks.value)
  }

  /** The configuration gate: passed, failed, or raising. */
  function ConfigBlocked(cfg: Config, compare: bool, p: Propagation): Option<bool> {
    if ConfigMissing(compare, p) then Some(true) else ConfigFailed(cfg, p)
  }

  /** One environment variable shown to have reached the executor. */
  predicate CheckProven(check: Check) {
    && check.Check?
    && Truthy(check.env) && Truthy(check.executorField)
    && Hashable(check.status)
    && check.status != Str("missing-evidence") && check.status != Str("mismatch")
    && (check.expected != Null ==>
          check.observed.List? && check.observed.items != [] && check.status == Str("pass"))
  }

  predicate EnvNamed(cfg: Config, checks: seq<Check>, env: string) {
    exists k :: 0 <= k < |checks| && Names(cfg, checks[k], env)
  }

  /**
   * The recorded summary is not a failure, every check is proven, and every required variable has
   * its check; a compare artifact must have checks at all.
   */
  ghost predicate ConfigProven(cfg: Config, compare: bool, p: Propagation) {
    && !p.failSummary
    && (compare ==> p.checks.Some? && p.checks.value != [])
    && (p.checks.Some? ==>
          && (p.empty || forall env :: env in cfg.requiredEnvs ==> EnvNamed(cfg, p.checks.value, env))
          && (forall k :: 0 <= k < |p.checks.value| ==> CheckProven(p.checks.value[k])))
  }

  lemma {:induction false} NoCheckFails(checks: seq<Check>)
    ensures AnyCheckFails(checks) == Some(false) <==> forall k :: 0 <= k < |checks| ==> CheckProven(checks[k])
  {
    if checks != [] {
      NoCheckFails(checks[1..]);
      assert CheckFails(checks[0]) == Some(false) <==> CheckProven(checks[0]);
      hide CheckProven, CheckFails;
      assert forall k :: 1 <= k < |checks| ==> checks[k] == checks[1..][k - 1];
    }
  }

  /** The gate lets through exactly the records that prove the propagation. */
  lemma ConfigGateExact(cfg: Config, compare: bool, p: Propagation)
    ensures ConfigBlocked(cfg, compare, p) == Some(false) <==> ConfigProven(cfg, compare, p)
  {
    if p.checks.Some? {
      NoCheckFails(p.checks.value);
      hide CheckProven, AnyCheckFails, Names;
      forall env | env in cfg.requiredEnvs
        ensures EnvNamed(cfg, p.checks.value, env)
                <==> !forall k | 0 <= k < |p.checks.value| :: !Names(cfg, p.checks.value[k], env)
      {
      }
    }
  }

  /** A check whose status cannot be looked up in a set, reached because its names are there. */
  predicate RaisingCheck(check: Check) {
    check.Check? && Truthy(check.env) && Truthy(check.executorField) && !Hashable(check.status)
  }

  /** The checks up to the first raising one are proven, and nothing ends the gate before them. */
  ghost predicate ConfigRaises(cfg: Config, compare: bool, p: Propagation) {
    && !p.failSummary && p.checks.Some?
    && (p.empty || forall env :: env in cfg.requiredEnvs ==> EnvNamed(cfg, p.checks.value, env))
    && exists k :: 0 <= k < |p.checks.value| && RaisingCheck(p.checks.value[k])
         && forall j :: 0 <= j < k ==> CheckProven(p.checks.value[j])
  }

  ghost predicate RaisesAmong(checks: seq<Check>) {
    exists k :: 0 <= k < |checks| && RaisingCheck(checks[k]) && forall j :: 0 <= j < k ==> CheckProven(checks[j])
  }

  lemma {:induction false} ChecksRaiseExact(checks: seq<Check>)
    ensures AnyCheckFails(checks) == None <==> RaisesAmong(checks)
  {
    if checks != [] {
      var rest := checks[1..];
      ChecksRaiseExact(rest);
      assert CheckFails(checks[0]) == Some(false) <==> CheckProven(checks[0]);
      assert CheckFails(checks[0]) == None <==> RaisingCheck(checks[0]);
      assert RaisingCheck(checks[0]) ==> !CheckProven(checks[0]);
      hide CheckProven, CheckFails, RaisingCheck;
      assert forall k :: 1 <= k < |checks| ==> checks[k] == rest[k - 1];
      if RaisesAmong(checks) && CheckProven(checks[0]) {
        var k :| 0 <= k < |checks| && RaisingCheck(checks[k]) && forall j :: 0 <= j < k ==> CheckProven(checks[j]);
        assert RaisingCheck(rest[k - 1]) && forall j :: 0 <= j < k - 1 ==> rest[j] == checks[j + 1];
      }
      if RaisesAmong(rest) && CheckProven(checks[0]) {
        var k :| 0 <= k < |rest| && RaisingCheck(rest[k]) && forall j :: 0 <= j < k ==> CheckProven(rest[j]);
        assert RaisingCheck(checks[k + 1]);
      }
    }
  }

  lemma ConfigRaisesExact(cfg: Config, compare: bool, p: Propagation)
    ensures ConfigBlocked(cfg, compare, p) == None <==> ConfigRaises(cfg, compare, p)
  {
    if p.checks.Some? {
      ChecksRaiseExact(p.checks.value);
      hide CheckProven, AnyCheckFails, Names, RaisingCheck;
      forall env | env in cfg.requiredEnvs
        ensures EnvNamed(cfg, p.checks.value, env)
                <==> !forall k | 0 <= k < |p.checks.value| :: !Names(cfg, p.checks.value[k], env)
      {
      }
    }
  }

  // ---------- prompt probes ----------

  /** What one probe says, key by key. */
  datatype Probe =
    | NotAProbe
    | Probe(name: Json, required: Json, prompt: Json, expected: Json, statusCode: Json, passed: Json, content: Json)

  function ReadProbe(item: Json): Probe {
    if !item.Obj? then NotAProbe
    else Probe(Field(item, "name"), Field(item, "required"), Field(item, "prompt"), Field(item, "expected"),
               Field(item, "status_code"), Field(item, "passed"), Field(item, "content"))
  }

  function ReadProbes(items: seq<Json>): seq<Probe> {
    seq(|items|, i requires 0 <= i < |items| => ReadProbe(items[i]))
  }

  /** What `gpu.correctness` holds; None when it is not an object with fields. */
  datatype Correctness = Correctness(
    schemaOk: bool, endpoint: Json, summaryObject: bool, verdict: Json, requiredFailures: Json, probes: seq<Probe>)

  function ReadCorrectness(value: Json): Option<Correctness> {
    if !value.Obj? || value.fields == [] then None
    else
      var summary := Field(value, "summary");
      Some(Correctness(
        Field(value, "schema") == Str("pdocker.llama.correctness.v1.compare"),
        Field(value, "endpoint"),
        summary.Obj?,
        Field(summary, "correctness"),
        Field(summary, "required_failures"),
        ReadProbes(Items(Field(value, "probes")))))
  }

  predicate Called(cfg: Config, probe: Probe, name: string) {
    probe.Probe? && probe.name != Null && TextOf(cfg, probe.name) == name
  }

  /** The probe a dictionary keyed by name ends up holding: the last of that name. */
  function ProbeNamed(cfg: Config, probes: seq<Probe>, name: string): Option<Probe> {
    if probes == [] then None
    else if Called(cfg, probes[|probes| - 1], name) then Some(probes[|probes| - 1])
    else ProbeNamed(cfg, probes[..|probes| - 1], name)
  }

  function RequiredCount(probes: seq<Probe>): nat {
    if probes == [] then 0
    else (if probes[0].Probe? && probes[0].required == True then 1 else 0) + RequiredCount(probes[1..])
  }

  predicate IsWhole(value: Json) {
    value.Int? || value.Bool?
  }

  predicate AdditionOk(probe: Probe) {
    && probe.Probe?
    && probe.required == True
    && probe.prompt == Str("2+3=")
    && probe.expected.List? && Str("5") in probe.expected.items
    && probe.statusCode.Int? && 200 <= probe.statusCode.n < 300
    && probe.passed.Bool?
    && probe.content.Str?
  }

  /** `_api_prompt_sanity` fails; None when the verdict is unhashable. */
  function ProbesFail(cfg: Config, compare: bool, correctness: Option<Correctness>): Option<bool> {
    if !compare then Some(false)
    else if correctness.None? then Some(true)
    else
      var c := correctness.value;
      if !Hashable(c.verdict) then None
      else
        var headerMissing :=
          || !c.schemaOk || !Truthy(c.endpoint) || !c.summaryObject
          || !(c.verdict == Str("pass") || c.verdict == Str("fail"))
          || !IsWhole(c.requiredFailures);
        if c.probes == [] then Some(true)
        else
          var addition := ProbeNamed(cfg, c.probes, "addition");
          Some(headerMissing || RequiredCount(c.probes) == 0 || addition.None? || !AdditionOk(addition.value))
  }

  /** The prompt was really put to the server: a complete record whose last addition probe is in order. */
  ghost predicate Probed(cfg: Config, c: Correctness) {
    && c.schemaOk && Truthy(c.endpoint) && c.summaryObject
    && (c.verdict == Str("pass") || c.verdict == Str("fail"))
    && IsWhole(c.requiredFailures)
    && exists k :: 0 <= k < |c.probes| && Called(cfg, c.probes[k], "addition") && AdditionOk(c.probes[k])
         && forall later :: k < later < |c.probes| ==> !Called(cfg, c.probes[later], "addition")
  }

  lemma {:induction false} LastNamed(cfg: Config, probes: seq<Probe>, name: string)
    ensures var found := ProbeNamed(cfg, probes, name);
            if found.None? then forall k :: 0 <= k < |probes| ==> !Called(cfg, probes[k], name)
            else exists k :: 0 <= k < |probes| && probes[k] == found.value && Called(cfg, probes[k], name)
                   && forall later :: k < later < |probes| ==> !Called(cfg, probes[later], name)
  {
    hide Called;
    if probes != [] {
      var last := |probes| - 1;
      if Called(cfg, probes[last], name) {
        assert ProbeNamed(cfg, probes, name) == Some(probes[last]);
      } else {
        LastNamed(cfg, probes[..last], name);
        assert forall k :: 0 <= k < last ==> probes[..last][k] == probes[k];
        var found := ProbeNamed(cfg, probes[..last], name);
        if found.Some? {
          var k :| 0 <= k < last && probes[..last][k] == found.value && Called(cfg, probes[..last][k], name)
                   && forall later :: k < later < last ==> !Called(cfg, probes[..last][later], name);
          assert probes[k] == found.value;
        }
      }
    }
  }

  lemma {:induction false} RequiredIsCounted(probes: seq<Probe>, k: nat)
    requires k < |probes| && probes[k].Probe? && probes[k].required == True
    ensures RequiredCount(probes) > 0
  {
    if k > 0 {
      RequiredIsCounted(probes[1..], k - 1);
    }
  }

  /** For a compare artifact the gate lets through exactly the records of a real probe. */
  lemma ProbeGateExact(cfg: Config, correctness: Option<Correctness>)
    ensures ProbesFail(cfg, true, correctness) == Some(false) <==> correctness.Some? && Probed(cfg, correctness.value)
  {
    if correctness.Some? {
      var c := correctness.value;
      LastNamed(cfg, c.probes, "addition");
      var found := ProbeNamed(cfg, c.probes, "addition");
      if found.Some? && AdditionOk(found.value) {
        var k :| 0 <= k < |c.probes| && c.probes[k] == found.value;
        RequiredIsCounted(c.probes, k);
      }
      hide Called, AdditionOk, ProbeNamed, RequiredCount;
    }
  }

  /** The gate raises exactly over a recorded verdict that cannot be looked up in a set. */
  lemma ProbeRaisesExact(cfg: Config, compare: bool, correctness: Option<Correctness>)
    ensures ProbesFail(cfg, compare, correctness) == None <==>
            compare && correctness.Some? && !Hashable(correctness.value.verdict)
  {
    hide ProbeNamed, RequiredCount, AdditionOk;
  }

  // ---------- speedup fields ----------

  /** `_speedup_field_status` is not a failure. */
  predicate SpeedupRecorded(data: Json) {
    var comparison, bridge := Field(data, "comparison"), Field(data, "bridge_overhead_phase");
    && comparison.Obj? && bridge.Obj?
    && IsNumber(Field(comparison, "speedup"))
    && IsNumber(Field(comparison, "target_tokens_per_second"))
    && Field(comparison, "target_met").Bool?
    && IsNumber(Field(bridge, "cpu_tokens_per_second"))
    && IsNumber(Field(bridge, "gpu_tokens_per_second"))
    && IsNumber(Field(bridge, "speedup"))
    && IsNumber(Field(bridge, "target_speedup"))
    && Field(bridge, "target_met").Bool?
  }

  predicate SpeedupOk(data: Json) {
    IsCompareArtifact(data) ==> SpeedupRecorded(data)
  }

  /** `float(value or 0) > 0` for a value that is neither null nor empty. */
  predicate Positive(cfg: Config, value: Json) {
    match value
    case Bool(b) => b
    case Int(n) => n > 0
    case Real(r) => r > 0.0
    case Str(s) => s != "" && cfg.positiveText(s)
    case _ => false
  }

  /** `_cpu_comparison_available` */
  predicate CpuAvailable(cfg: Config, data: Json) {
    var cpu, comparison := Field(data, "cpu"), Field(data, "comparison");
    && (cpu.Obj? || !Truthy(cpu))
    && (comparison.Obj? || !Truthy(comparison))
    && (|| Field(cpu, "reused_cpu_baseline") == True
        || Positive(cfg, Field(cpu, "tokens_per_second"))
        || Positive(cfg, Field(comparison, "cpu_tokens_per_second")))
  }

  // ---------- the Q6_K workgroup ----------

  const SAFE_KERNEL_HASH := "0x7ec0292e948c9b41"

  /** The parts of the Q6_K diagnostics the shape gate reads. */
  datatype Shape = Shape(consistent: Json, resolved: Json, q6Size: Json, safeFlag: Json, spirvHash: string)

  function ReadShape(cfg: Config, q6: Json): Shape {
    Shape(Field(q6, "local_size_consistent"),
          Or(Field(q6, "local_size_resolved"), Field(q6, "local_size")),
          Field(q6, "q6_local_size"),
          Field(q6, "q6k_safe_kernel"),
          Lower(TextOrEmpty(cfg, Field(q6, "latest_spirv_hash"))))
  }

  predicate SafeKernel(s: Shape) {
    s.safeFlag == True || s.spirvHash == SAFE_KERNEL_HASH
  }

  function ExpectedSize(s: Shape): seq<int> {
    if SafeKernel(s) then [1, 1, 1] else [32, 2, 1]
  }

  /** `_q6_workgroup_shape_blocked` of an object. */
  predicate ShapeBlocked(s: Shape) {
    if s.consistent == False then true
    else
      var local := Q6Writeback.IntegerList(s.resolved);
      var q6Local := Q6Writeback.IntegerList(s.q6Size);
      if q6Local.Some? && local.Some? && q6Local.value != local.value then true
      else local != Some(ExpectedSize(s))
  }

  /** The resolved workgroup size is the expected one and nothing recorded contradicts it. */
  predicate ShapeClear(s: Shape) {
    && s.consistent != False
    && Q6Writeback.IntegerList(s.resolved) == Some(if SafeKernel(s) then [1, 1, 1] else [32, 2, 1])
    && (Q6Writeback.IntegerList(s.q6Size).Some? ==>
          Q6Writeback.IntegerList(s.q6Size) == Q6Writeback.IntegerList(s.resolved))
  }

  lemma ShapeGateExact(s: Shape)
    ensures !ShapeBlocked(s) <==> ShapeClear(s)
  {
  }

  // ---------- why an oracle mismatch was seen ----------

  const TOLERANCE: real := 0.001

  /** `_numeric_close_to_zero` */
  predicate CloseToZero(value: Json) {
    IsNumber(value) && -TOLERANCE <= NumberOf(value) <= TOLERANCE
  }

  /** `q6_shader_like_oracle_cleared` */
  predicate ShaderLikeCleared(cfg: Config, q6: Json) {
    var s := ReadShape(cfg, q6);
    var wideRequired := !SafeKernel(s) && Q6Writeback.IntegerList(s.resolved) != Some([32, 2, 1]);
    && Field(q6, "latest_status") == Str("mismatch")
    && CloseToZero(Field(q6, "q6_shader_like_abs_delta"))
    && (wideRequired ==> CloseToZero(Field(q6, "q6_shader_like_64_abs_delta")))
  }

  /** The summary of a probe: its own text when it is an object, otherwise the recorded value. */
  function ProbeSummary(cfg: Config, probe: Json, recorded: Json): Json {
    var fallback := Or(recorded, Str("not-run"));
    if probe.Obj? then Str(TextOf(cfg, Or(Field(probe, "summary"), fallback))) else fallback
  }

  /** `int(value or 0)` */
  function CountOf(value: Json): Option<int> {
    IntOf(Or(value, Int(0)))
  }

  /** `_q6_output_layout_fixed_offset_rejected` */
  predicate FixedOffsetRejected(summary: Json, probe: Json) {
    && summary == Str("canonical-mismatch-inconclusive")
    && match (CountOf(Field(probe, "mismatch_count")), CountOf(Field(probe, "found_elsewhere_count")))
       case (Some(mismatches), Some(elsewhere)) =>
         mismatches >= 16 && elsewhere > 0 && Field(probe, "consistent_relative_offset") == False
       case _ => false
  }
}

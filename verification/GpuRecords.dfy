/**
 * The gates on recorded evidence in terms of the artifact itself: which member of which object has to
 * hold what for the configuration, the prompt and the Q6_K workgroup to pass.
 */
module GpuRecords {
  import opened Options
  import opened Text
  import opened Json
  import opened GpuGates
  import opened Classifier
  import opened GpuClaims
  import Q6Evidence
  import Q6Writeback

  function ItemsAt(value: Json, key: string): seq<Json> {
    if Field(value, key).List? then Field(value, key).items else []
  }

  // ---------- where the records are ----------

  function GpuDiagnostics(data: Json): Json {
    Field(Field(data, "gpu"), "diagnostics")
  }

  /** A record at the top of the artifact, or else in the diagnostics; anything but an object holds nothing. */
  function RunRecord(data: Json, key: string): Json {
    var record := if Truthy(Field(data, key)) then Field(data, key) else Field(GpuDiagnostics(data), key);
    if record.Obj? then record else Obj([])
  }

  lemma NoMembers(value: Json, key: string)
    requires !Truthy(value)
    ensures Field(value, key) == Null && Field(Obj([]), key) == Null
  {
  }

  lemma OrMembers(value: Json, key: string)
    ensures Field(Or(value, Obj([])), key) == Field(value, key)
  {
    if !Truthy(value) {
      NoMembers(value, key);
    }
    hide Truthy, Field;
  }

  /** An absent or empty object reads like one without members, wherever it stands. */
  lemma MembersOnRecord(data: Json, key: string)
    ensures Field(Diagnostics(data), key) == Field(GpuDiagnostics(data), key)
    ensures Field(Q6Of(data), key) == Field(Field(GpuDiagnostics(data), "q6_workgroup_diagnostics"), key)
    ensures Field(Comparison(data), key) == Field(Field(data, "comparison"), key)
    ensures Field(CorrectnessSummary(data), key) == Field(Field(Field(Field(data, "gpu"), "correctness"), "summary"), key)
    ensures Freshness(data) == RunRecord(data, "runtime_freshness")
    ensures ConfigRecord(data) == RunRecord(data, "config_propagation")
  {
    OrMembers(GpuDiagnostics(data), key);
    OrMembers(GpuDiagnostics(data), "q6_workgroup_diagnostics");
    OrMembers(Field(Diagnostics(data), "q6_workgroup_diagnostics"), key);
    OrMembers(Field(data, "comparison"), key);
    OrMembers(Field(Field(Field(data, "gpu"), "correctness"), "summary"), key);
    hide Field, Truthy;
  }

  // ---------- configuration ----------

  /** One check that shows a variable to have reached the executor. */
  predicate CheckRecorded(item: Json) {
    var status := Field(item, "status");
    && item.Obj?
    && Truthy(Field(item, "env")) && Truthy(Field(item, "executor_field"))
    && !status.List? && !status.Obj? && status != Str("missing-evidence") && status != Str("mismatch")
    && (Field(item, "expected") != Null ==> ItemsAt(item, "observed_values") != [] && status == Str("pass"))
  }

  ghost predicate EnvRecorded(cfg: Config, items: seq<Json>, env: string) {
    exists k :: 0 <= k < |items| && NamesEnv(cfg, items[k], env)
  }

  predicate NamesEnv(cfg: Config, item: Json, env: string) {
    item.Obj? && TextOf(cfg, Field(item, "env")) == env
  }

  /** Every recorded check is in order and every required variable has one. */
  ghost predicate ChecksRecorded(cfg: Config, items: seq<Json>, named: bool) {
    && (named ==> forall env :: env in cfg.requiredEnvs ==> EnvRecorded(cfg, items, env))
    && (forall k :: 0 <= k < |items| ==> CheckRecorded(items[k]))
  }

  /** What the record of the configuration has to hold; anything but a list of checks counts only when none is demanded. */
  ghost predicate PropagationRecorded(cfg: Config, compare: bool, record: Json) {
    var checks := Field(record, "checks");
    && Field(record, "summary") != Str("fail")
    && (compare ==> ItemsAt(record, "checks") != [])
    && (checks.List? || !Truthy(checks) ==> ChecksRecorded(cfg, ItemsAt(record, "checks"), Truthy(record)))
  }

  lemma CheckExact(cfg: Config, item: Json, env: string)
    ensures CheckProven(ReadCheck(item)) <==> CheckRecorded(item)
    ensures Names(cfg, ReadCheck(item), env) <==> NamesEnv(cfg, item, env)
  {
    hide Field, TextOf;
  }

  lemma NamedExact(cfg: Config, items: seq<Json>, env: string)
    ensures EnvNamed(cfg, ReadChecks(items), env) <==> EnvRecorded(cfg, items, env)
  {
    hide ReadCheck, Names, NamesEnv;
    forall k | 0 <= k < |items|
      ensures Names(cfg, ReadChecks(items)[k], env) <==> NamesEnv(cfg, items[k], env)
    {
      CheckExact(cfg, items[k], env);
    }
  }

  lemma ChecksExact(cfg: Config, items: seq<Json>, named: bool)
    ensures ChecksRecorded(cfg, items, named) <==>
            && (!named || forall env :: env in cfg.requiredEnvs ==> EnvNamed(cfg, ReadChecks(items), env))
            && (forall k :: 0 <= k < |ReadChecks(items)| ==> CheckProven(ReadChecks(items)[k]))
  {
    hide ReadCheck, CheckProven, CheckRecorded, EnvNamed, EnvRecorded;
    forall k | 0 <= k < |items|
      ensures CheckProven(ReadChecks(items)[k]) <==> CheckRecorded(items[k])
    {
      CheckExact(cfg, items[k], "");
    }
    forall env
      ensures EnvNamed(cfg, ReadChecks(items), env) <==> EnvRecorded(cfg, items, env)
    {
      NamedExact(cfg, items, env);
    }
  }

  lemma PropagationExact(cfg: Config, compare: bool, record: Json)
    ensures ConfigProven(cfg, compare, ReadPropagation(record)) <==> PropagationRecorded(cfg, compare, record)
  {
    ChecksExact(cfg, ItemsAt(record, "checks"), Truthy(record));
    hide Field, Truthy, EnvNamed, CheckProven, ReadCheck, ChecksRecorded;
    var checks := Field(record, "checks");
    assert ReadChecks([]) == [];
  }

  // ---------- prompt probes ----------

  predicate IsNamed(cfg: Config, item: Json, name: string) {
    item.Obj? && Field(item, "name") != Null && TextOf(cfg, Field(item, "name")) == name
  }

  /** The addition was asked of the server and answered, whatever the answer. */
  predicate AdditionRecorded(item: Json) {
    var code := Field(item, "status_code");
    && item.Obj?
    && Field(item, "required") == True
    && Field(item, "prompt") == Str("2+3=")
    && Str("5") in ItemsAt(item, "expected")
    && code.Int? && 200 <= code.n < 300
    && Field(item, "passed").Bool? && Field(item, "content").Str?
  }

  ghost predicate AdditionAt(cfg: Config, items: seq<Json>, k: int) {
    && 0 <= k < |items| && IsNamed(cfg, items[k], "addition") && AdditionRecorded(items[k])
    && forall later :: k < later < |items| ==> !IsNamed(cfg, items[later], "addition")
  }

  /** What `gpu.correctness` has to hold. */
  ghost predicate PromptRecorded(cfg: Config, value: Json) {
    var summary := Field(value, "summary");
    && value.Obj?
    && Field(value, "schema") == Str("pdocker.llama.correctness.v1.compare")
    && Truthy(Field(value, "endpoint"))
    && summary.Obj?
    && (Field(summary, "correctness") == Str("pass") || Field(summary, "correctness") == Str("fail"))
    && (Field(summary, "required_failures").Int? || Field(summary, "required_failures").Bool?)
    && exists k :: AdditionAt(cfg, ItemsAt(value, "probes"), k)
  }

  lemma ProbeExact(cfg: Config, item: Json, name: string)
    ensures Called(cfg, ReadProbe(item), name) <==> IsNamed(cfg, item, name)
    ensures AdditionOk(ReadProbe(item)) <==> AdditionRecorded(item)
  {
    hide Field, TextOf;
  }

  ghost predicate ProbeAt(cfg: Config, probes: seq<Probe>, k: int) {
    && 0 <= k < |probes| && Called(cfg, probes[k], "addition") && AdditionOk(probes[k])
    && forall later :: k < later < |probes| ==> !Called(cfg, probes[later], "addition")
  }

  lemma AdditionExact(cfg: Config, items: seq<Json>, k: int)
    ensures ProbeAt(cfg, ReadProbes(items), k) <==> AdditionAt(cfg, items, k)
  {
    hide ReadProbe, Called, AdditionOk, IsNamed, AdditionRecorded;
    forall i | 0 <= i < |items|
      ensures Called(cfg, ReadProbes(items)[i], "addition") <==> IsNamed(cfg, items[i], "addition")
      ensures AdditionOk(ReadProbes(items)[i]) <==> AdditionRecorded(items[i])
    {
      ProbeExact(cfg, items[i], "addition");
    }
  }

  lemma ProbedParts(cfg: Config, c: Correctness)
    ensures Probed(cfg, c) <==>
            && c.schemaOk && Truthy(c.endpoint) && c.summaryObject
            && (c.verdict == Str("pass") || c.verdict == Str("fail")) && IsWhole(c.requiredFailures)
            && exists k :: ProbeAt(cfg, c.probes, k)
  {
    hide Called, AdditionOk;
    if Probed(cfg, c) {
      var k :| 0 <= k < |c.probes| && Called(cfg, c.probes[k], "addition") && AdditionOk(c.probes[k])
               && forall later :: k < later < |c.probes| ==> !Called(cfg, c.probes[later], "addition");
      assert ProbeAt(cfg, c.probes, k);
    }
  }

  lemma NothingInEmpty(value: Json, key: string)
    requires value.Obj? && value.fields == []
    ensures Field(value, key) == Null
  {
  }

  lemma PromptExact(cfg: Config, value: Json)
    ensures ReadCorrectness(value).Some? && Probed(cfg, ReadCorrectness(value).value) <==> PromptRecorded(cfg, value)
  {
    if value.Obj? && value.fields == [] {
      NothingInEmpty(value, "schema");
    }
    if ReadCorrectness(value).Some? {
      ProbedParts(cfg, ReadCorrectness(value).value);
    }
    var items := ItemsAt(value, "probes");
    forall k
      ensures ProbeAt(cfg, ReadProbes(items), k) <==> AdditionAt(cfg, items, k)
    {
      AdditionExact(cfg, items, k);
    }
    hide Field, Truthy, ReadProbes, ProbeAt, AdditionAt, Probed;
  }

  // ---------- the workgroup ----------

  /** A list of exactly these integers. */
  predicate SizeIs(value: Json, size: seq<int>) {
    value.List? && |value.items| == |size| && forall k :: 0 <= k < |size| ==> IntOf(value.items[k]) == Some(size[k])
  }

  /** The replacement kernel is in use, by its flag or by the hash of its code. */
  predicate SafeKernelRecorded(cfg: Config, q6: Json) {
    || Field(q6, "q6k_safe_kernel") == True
    || Lower(TextOrEmpty(cfg, Field(q6, "latest_spirv_hash"))) == "0x7ec0292e948c9b41"
  }

  /** The recorded workgroup is [1, 1, 1] for the replacement kernel and [32, 2, 1] for the original one. */
  predicate ShapeRecorded(cfg: Config, q6: Json) {
    var size := if SafeKernelRecorded(cfg, q6) then [1, 1, 1] else [32, 2, 1];
    var resolved := Field(q6, "local_size_resolved");
    && Field(q6, "local_size_consistent") != False
    && SizeIs(if Truthy(resolved) then resolved else Field(q6, "local_size"), size)
    && (Q6Evidence.IndexList(Field(q6, "q6_local_size")) ==> SizeIs(Field(q6, "q6_local_size"), size))
  }

  lemma SizeExact(value: Json, size: seq<int>)
    requires size != []
    ensures Q6Writeback.IntegerList(value) == Some(size) <==> SizeIs(value, size)
  {
    hide IntOf;
    if value.List? {
      Q6Evidence.IntegersExact(value.items);
      var read := Q6Writeback.Integers(value.items);
      if read.Some? {
        assert read.value == size <==> |read.value| == |size| && forall k :: 0 <= k < |size| ==> read.value[k] == size[k];
      }
    }
    hide Q6Writeback.Integers;
  }

  lemma ShapeExact(cfg: Config, q6: Json)
    ensures ShapeClear(ReadShape(cfg, q6)) <==> ShapeRecorded(cfg, q6)
  {
    var size := if SafeKernelRecorded(cfg, q6) then [1, 1, 1] else [32, 2, 1];
    var resolved := Field(q6, "local_size_resolved");
    SizeExact(if Truthy(resolved) then resolved else Field(q6, "local_size"), size);
    SizeExact(Field(q6, "q6_local_size"), size);
    Q6Evidence.IndexListExact(Field(q6, "q6_local_size"), 0);
    hide Field, Truthy, Q6Writeback.IntegerList, SizeIs, Q6Evidence.IndexList, Q6Evidence.Lists, Lower, TextOrEmpty;
  }

  // ---------- the gates ----------

  /** The members the four gates on recorded evidence read, and what they must hold. */
  lemma GatesOnRecord(cfg: Config, data: Json)
    ensures Open(cfg, data, ConfigGate) <==> PropagationRecorded(cfg, Compares(data), RunRecord(data, "config_propagation"))
    ensures Open(cfg, data, PromptGate) <==>
            || OracleSpoke(Q6Of(data))
            || (Compares(data) ==> PromptRecorded(cfg, Field(Field(data, "gpu"), "correctness")))
    ensures Open(cfg, data, ShapeGate) <==> (Q6Of(data).Obj? ==> ShapeRecorded(cfg, Q6Of(data)))
    ensures Open(cfg, data, WritebackGate) <==> Q6Evidence.Recorded(Q6Of(data))
  {
    hide *;
    ComparesExact(data);
    MembersOnRecord(data, "");
    RecordGates(cfg, data);
    Q6GatesMean(cfg, data);
    PropagationMeans(cfg, data);
    CorrectnessMeans(cfg, data);
    ShapeExact(cfg, Q6Of(data));
    Q6Evidence.ProvenOnRecord(Q6Of(data));
  }

  lemma PropagationMeans(cfg: Config, data: Json)
    ensures ConfigProven(cfg, IsCompareArtifact(data), PropagationOf(data)) <==>
            PropagationRecorded(cfg, IsCompareArtifact(data), ConfigRecord(data))
  {
    PropagationExact(cfg, IsCompareArtifact(data), ConfigRecord(data));
    hide ConfigProven, PropagationRecorded, ReadPropagation, ConfigRecord, IsCompareArtifact;
  }

  lemma CorrectnessMeans(cfg: Config, data: Json)
    ensures CorrectnessOf(data).Some? && Probed(cfg, CorrectnessOf(data).value) <==>
            PromptRecorded(cfg, Field(Field(data, "gpu"), "correctness"))
  {
    PromptExact(cfg, Field(Field(data, "gpu"), "correctness"));
    hide Probed, PromptRecorded, ReadCorrectness, Field;
  }

  // ---------- the run itself ----------

  predicate PassedAt(readiness: Json, part: string) {
    Field(Field(readiness, "summary"), part) == Str("pass") || Field(Field(readiness, part), "ok") == True
  }

  /** Health and models passed, and the completion timed out. */
  predicate CompletionLost(cfg: Config, readiness: Json) {
    var error := Lower(TextOrEmpty(cfg, Field(Field(readiness, "completion"), "error")));
    && Field(readiness, "schema") == Str("pdocker.llama.service-readiness.v1")
    && PassedAt(readiness, "health") && PassedAt(readiness, "models") && !PassedAt(readiness, "completion")
    && (Contains(error, "timed out") || Contains(error, "timeouterror"))
  }

  /** The recorded class of each setup blocker. */
  function BlockerText(setup: Setup): string {
    match setup
    case PipelineFeature => "vulkan_pipeline_feature"
    case QueueSubmit => "vulkan_queue_submit_feature"
    case SpirvDispatch => "vulkan_generic_spirv_dispatch"
    case BufferAllocation => "vulkan_buffer_allocation"
    case BufferRange => "vulkan_buffer_range_accounting"
    case DeviceDiscovery => "vulkan_device_discovery"
    case MemoryPressure => "runtime_memory_pressure"
  }

  predicate NumberAt(value: Json, key: string) {
    Field(value, key).Int? || Field(value, key).Real?
  }

  /** A speedup over the CPU, its target and whether that was met, once per comparison and once per phase. */
  predicate SpeedupMembers(data: Json) {
    var comparison, bridge := Field(data, "comparison"), Field(data, "bridge_overhead_phase");
    && comparison.Obj? && bridge.Obj?
    && NumberAt(comparison, "speedup") && NumberAt(comparison, "target_tokens_per_second")
    && NumberAt(bridge, "cpu_tokens_per_second") && NumberAt(bridge, "gpu_tokens_per_second")
    && NumberAt(bridge, "speedup") && NumberAt(bridge, "target_speedup")
    && Field(comparison, "target_met").Bool? && Field(bridge, "target_met").Bool?
  }

  predicate Compares(data: Json) {
    Field(data, "schema") == Str("pdocker.llama.gpu.compare.v1")
  }

  lemma ComparesExact(data: Json)
    ensures IsCompareArtifact(data) <==> Compares(data)
  {
  }

  predicate Served(data: Json) {
    Field(Field(data, "gpu"), "served") == True
  }

  lemma EntryOnRecord(cfg: Config, data: Json)
    ensures Open(cfg, data, MemoryGate) <==>
            TextOrEmpty(cfg, Field(data, "error")) !in ["insufficient_memory", "runtime_memory_pressure"]
    ensures Open(cfg, data, ReadinessGate) <==>
            && Field(Field(data, "readiness"), "ready") != False
            && !(Field(data, "schema") == Str("pdocker.llama.gpu.device-readiness.v1") && Field(data, "ready") == False)
  {
    PlainGates(cfg, data);
    hide Open, Field, TextOrEmpty, CompletionTimeout, SetupBlocker, Diagnostics, Truthy, Q6Of, SaysMatch;
  }

  lemma ServiceOnRecord(cfg: Config, data: Json)
    ensures Open(cfg, data, ServiceGate) <==>
            !((Compares(data) ==> Served(data)) && CompletionLost(cfg, Field(Field(data, "gpu"), "service_readiness")))
  {
    PlainGates(cfg, data);
    hide Open, Field, TextOrEmpty, Lower, Contains, MemoryError, ReadinessFalse, SetupBlocker, Diagnostics, Truthy, Q6Of, SaysMatch;
  }

  lemma BlockerReads(text: string, setup: Setup)
    ensures SetupOf(text) == Some(setup) <==> text == BlockerText(setup)
  {
  }

  /** A setup blocker is seen exactly under its recorded class, before anything was served or counted. */
  lemma SetupOnRecord(cfg: Config, data: Json, setup: Setup)
    ensures var diagnostics := Diagnostics(data);
            SetupBlocker(cfg, data, diagnostics) == Some(setup) <==>
            && Compares(data) && !Served(data)
            && !EventsCounted(Field(diagnostics, "q6_workgroup_diagnostics"))
            && TextOrEmpty(cfg, Field(diagnostics, "blocker_class")) == BlockerText(setup)
  {
    BlockerReads(TextOrEmpty(cfg, Field(Diagnostics(data), "blocker_class")), setup);
    hide Diagnostics, Field, EventsCounted, TextOrEmpty, SetupOf, BlockerText;
  }

  lemma SpeedupOnRecord(cfg: Config, data: Json)
    ensures Open(cfg, data, SpeedupGate) <==> OracleSpoke(Q6Of(data)) || (Compares(data) ==> SpeedupMembers(data))
  {
    PromptGates(cfg, data);
    hide Open, Field, OracleSpoke, Q6Of, ProbesFail, CorrectnessOf;
  }

  // ---------- runtime markers ----------

  /** One of the listed markers is not empty and is the expected one where one is expected. */
  ghost predicate MarkerSeen(cfg: Config, markers: seq<Json>, expected: string) {
    exists k :: 0 <= k < |markers| && TextOf(cfg, markers[k]) != "" && (expected == "" || TextOf(cfg, markers[k]) == expected)
  }

  lemma MarkersExact(cfg: Config, record: Json, observed: string, expected: Json)
    ensures Observed(cfg, Field(record, observed), expected) <==>
            MarkerSeen(cfg, ItemsAt(record, observed), TextOrEmpty(cfg, expected))
  {
    hide TextOf, TextOrEmpty, Field;
  }

  lemma MarkerGatesMean(cfg: Config, data: Json)
    ensures Open(cfg, data, ExecutorGate) <==> ExecutorObserved(cfg, data)
    ensures Open(cfg, data, IcdGate) <==> IcdObserved(cfg, data)
  {
    hide ExecutorObserved, IcdObserved;
  }

  /** Which members the two marker gates read. */
  lemma MarkersOnRecord(cfg: Config, data: Json)
    ensures var run := RunRecord(data, "runtime_freshness");
            var executor := TextOrEmpty(cfg, Field(run, "expected_executor_marker"));
            var icd := TextOrEmpty(cfg, Field(run, "expected_icd_marker"));
            && (Open(cfg, data, ExecutorGate) <==> MarkerSeen(cfg, ItemsAt(run, "observed_executor_markers"), executor))
            && (Open(cfg, data, IcdGate) <==> icd == "" || MarkerSeen(cfg, ItemsAt(run, "observed_icd_markers"), icd))
  {
    MarkerGatesMean(cfg, data);
    MembersOnRecord(data, "");
    hide Open, Observed, MarkerSeen, TextOrEmpty, Field, Freshness, RunRecord, ItemsAt;
    var run := RunRecord(data, "runtime_freshness");
    MarkersExact(cfg, run, "observed_executor_markers", Field(run, "expected_executor_marker"));
    MarkersExact(cfg, run, "observed_icd_markers", Field(run, "expected_icd_marker"));
  }

  // ---------- feature evidence ----------

  predicate FeaturesListed(event: Json) {
    && Has(event, "spirv_required_feature_mask") && Has(event, "spirv_requested_feature_missing_mask")
    && Has(event, "spirv_requested_feature_mismatches")
    && Has(event, "android_vulkan_features") && Has(event, "android_vulkan_enabled_features")
  }

  ghost predicate FirstObject(items: seq<Json>, k: int) {
    0 <= k < |items| && items[k].Obj? && forall j :: 0 <= j < k ==> !items[j].Obj?
  }

  lemma {:induction false} FirstOfObjects(items: seq<Json>, k: int)
    requires FirstObject(items, k)
    ensures Objects(items) != [] && Objects(items)[0] == items[k]
  {
    if k > 0 {
      assert items[1..][k - 1] == items[k];
      FirstOfObjects(items[1..], k - 1);
    }
  }

  lemma {:induction false} HasFirstObject(items: seq<Json>)
    requires Objects(items) != []
    ensures exists k :: FirstObject(items, k)
  {
    if items[0].Obj? {
      assert FirstObject(items, 0);
    } else {
      HasFirstObject(items[1..]);
      var k :| FirstObject(items[1..], k);
      assert FirstObject(items, k + 1) by {
        assert forall j :: 1 <= j <= k + 1 ==> items[j] == items[1..][j - 1];
      }
    }
  }

  lemma FeatureKeysListed(event: Json)
    ensures (exists key | key in FEATURE_KEYS :: !Has(event, key)) <==> !FeaturesListed(event)
  {
    hide Has;
    assert FEATURE_KEYS[0] in FEATURE_KEYS && FEATURE_KEYS[1] in FEATURE_KEYS && FEATURE_KEYS[2] in FEATURE_KEYS;
    assert FEATURE_KEYS[3] in FEATURE_KEYS && FEATURE_KEYS[4] in FEATURE_KEYS;
  }

  /** The feature evidence is complete exactly when the first failed dispatch that is an object lists all five members. */
  lemma FeaturesOnRecord(cfg: Config, setup: Setup, diagnostics: Json, freshness: Json)
    ensures var failed := ItemsAt(Field(diagnostics, "generic_spirv_dispatch"), "failed_events");
            FeatureEvidenceMissing(cfg, setup, diagnostics, freshness) <==>
            && setup.PipelineFeature? && FeatureChainIcd(cfg, freshness)
            && !exists k :: FirstObject(failed, k) && FeaturesListed(failed[k])
  {
    var failed := ItemsAt(Field(diagnostics, "generic_spirv_dispatch"), "failed_events");
    FeatureKeysListed(FailureEvent(diagnostics));
    FailureIsFirst(diagnostics);
    NothingListed();
    hide FeatureChainIcd, Has, Field, FeaturesListed, FailureEvent, Objects;
    forall k | FirstObject(failed, k)
      ensures FailureEvent(diagnostics) == failed[k]
    {
      FirstOfObjects(failed, k);
    }
    if Objects(failed) != [] {
      HasFirstObject(failed);
    }
  }

  lemma FailureIsFirst(diagnostics: Json)
    ensures var failed := ItemsAt(Field(diagnostics, "generic_spirv_dispatch"), "failed_events");
            FailureEvent(diagnostics) == if Objects(failed) == [] then Obj([]) else Objects(failed)[0]
  {
    hide Field, Objects;
  }

  lemma NothingListed()
    ensures !FeaturesListed(Obj([]))
  {
  }

  // ---------- claims ----------

  /** A number, a true boolean or a text above zero. */
  predicate AboveZero(cfg: Config, value: Json) {
    || value == True
    || (IsNumber(value) && NumberOf(value) > 0.0)
    || (value.Str? && value.s != "" && cfg.positiveText(value.s))
  }

  /** A CPU run that was reused or measured, under readable objects. */
  predicate BaselineRecorded(cfg: Config, data: Json) {
    var cpu, comparison := Field(data, "cpu"), Field(data, "comparison");
    && (cpu.Obj? || !Truthy(cpu)) && (comparison.Obj? || !Truthy(comparison))
    && (|| Field(cpu, "reused_cpu_baseline") == True
        || AboveZero(cfg, Field(cpu, "tokens_per_second"))
        || AboveZero(cfg, Field(comparison, "cpu_tokens_per_second")))
  }

  lemma BaselineExact(cfg: Config, data: Json)
    ensures CpuAvailable(cfg, data) <==> BaselineRecorded(cfg, data)
  {
    hide Field, Truthy;
  }

  /** Which members decide about the two claims of a matching artifact. */
  lemma ClaimsOnRecord(cfg: Config, data: Json)
    requires data.Obj?
    ensures ClaimsCorrectness(cfg, data) <==>
            && Matched(cfg, data)
            && Field(Field(Field(Field(data, "gpu"), "correctness"), "summary"), "correctness") == Str("pass")
    ensures ClaimsBenchmark(cfg, data) <==>
            && ClaimsCorrectness(cfg, data) && BaselineRecorded(cfg, data)
            && Truthy(Field(Field(data, "comparison"), "speedup"))
  {
    MembersOnRecord(data, "correctness");
    MembersOnRecord(data, "speedup");
    BaselineExact(cfg, data);
    PassedMeans(data);
    hide *;
    CorrectnessClaimExact(cfg, data);
    BenchmarkClaimExact(cfg, data);
    MatchExact(cfg, data);
  }

  lemma PassedMeans(data: Json)
    ensures CorrectnessPassed(data) <==> Field(CorrectnessSummary(data), "correctness") == Str("pass")
  {
    hide CorrectnessSummary, Field;
  }
}

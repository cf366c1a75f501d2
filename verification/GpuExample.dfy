/**
 * A family of compare artifacts: counted Q6_K events with one sample, no bridge phase and no prompt
 * probes. The one whose sample survives the writeback matches, the others are refuted by it.
 */
module GpuExample {
  import opened Options
  import opened Text
  import opened Json
  import opened GpuGates
  import opened Classifier
  import opened GpuClaims
  import opened GpuExits
  import EvidenceWalk
  import Q6Evidence
  import Q6Writeback

  // ---------- looking fields up ----------

  lemma {:induction false} LookupAt(fields: seq<Member>, i: nat, key: string)
    requires i < |fields| && fields[i].key == key && forall j :: 0 <= j < i ==> fields[j].key != key
    ensures Lookup(fields, key) == Some(fields[i].value) && Field(Obj(fields), key) == fields[i].value
  {
    if i > 0 {
      assert fields[1..][i - 1] == fields[i];
      LookupAt(fields[1..], i - 1, key);
    }
  }

  lemma {:induction false} LookupNone(fields: seq<Member>, key: string)
    requires forall j :: 0 <= j < |fields| ==> fields[j].key != key
    ensures Lookup(fields, key) == None && Field(Obj(fields), key) == Null
  {
    if fields != [] {
      LookupNone(fields[1..], key);
    }
  }

  // ---------- the Q6_K diagnostics ----------

  const HASH := "0x00000000000000a1"

  const ROWS := List([Int(0)])

  function SampleOf(v: int): seq<Member> {
    [Member("index", Int(0)), Member("value", Int(v))]
  }

  /** One sample of row 0: 1 after dispatch, and w after writeback. */
  function RowOf(w: int): seq<Member> {
    [Member("q6_row_indexed", True),
     Member("q6_sample_indices", ROWS),
     Member("row_indexed_samples_match_oracle", True),
     Member("f32_after_dispatch", List([Obj(SampleOf(1))])),
     Member("f32_after_writeback", List([Obj(SampleOf(w))]))]
  }

  const BINDING := [
    Member("index", Int(0)),
    Member("binding", Int(0)),
    Member("writable", True),
    Member("gpu_after_dispatch_hash", Str(HASH)),
    Member("fd_after_hash", Str(HASH)),
    Member("writeback_verified", True)
  ]

  function EventOf(w: int): seq<Member> {
    [Member("event_count", Int(1)),
     Member("latest_status", Str("match")),
     Member("local_size", List([Int(32), Int(2), Int(1)])),
     Member("q6_writeback_verified_all", True),
     Member("q6_row_indexed_sample_indices", ROWS),
     Member("q6_row_indexed_writeback_verified", True),
     Member("q6_row_indexed_writeback_evidence", List([Obj(RowOf(w))])),
     Member("q6_writable_bindings", List([Obj(BINDING)]))]
  }

  lemma SampleReads(v: int)
    ensures Q6Writeback.Sample(Obj(SampleOf(v))) == Some((0, v as real))
  {
    LookupAt(SampleOf(v), 0, "index");
    LookupAt(SampleOf(v), 1, "value");
    hide Field;
  }

  lemma RowReads(w: int)
    ensures Q6Writeback.ReadRow(Obj(RowOf(w))) == Q6Writeback.Row(True, ROWS, True, List([Obj(SampleOf(1))]), List([Obj(SampleOf(w))]))
  {
    LookupAt(RowOf(w), 0, "q6_row_indexed");
    LookupAt(RowOf(w), 1, "q6_sample_indices");
    LookupAt(RowOf(w), 2, "row_indexed_samples_match_oracle");
    LookupAt(RowOf(w), 3, "f32_after_dispatch");
    LookupAt(RowOf(w), 4, "f32_after_writeback");
    hide Field;
  }

  lemma BindingReads()
    ensures Q6Writeback.ReadBinding(Obj(BINDING)) ==
            Q6Writeback.Binding(Int(0), Int(0), True, Str(HASH), Str(HASH), True, Null)
  {
    LookupAt(BINDING, 0, "index");
    LookupAt(BINDING, 1, "binding");
    LookupAt(BINDING, 2, "writable");
    LookupAt(BINDING, 3, "gpu_after_dispatch_hash");
    LookupAt(BINDING, 4, "fd_after_hash");
    LookupAt(BINDING, 5, "writeback_verified");
    LookupNone(BINDING, "writeback_mismatch");
    hide Field;
  }

  lemma Q6Status(w: int)
    ensures Field(Obj(EventOf(w)), "latest_status") == Str("match")
    ensures Field(Obj(EventOf(w)), "event_count") == Int(1)
  {
    LookupAt(EventOf(w), 0, "event_count");
    LookupAt(EventOf(w), 1, "latest_status");
  }

  lemma Q6Flags(w: int)
    ensures Field(Obj(EventOf(w)), "q6_writeback_verified_all") == True
    ensures Field(Obj(EventOf(w)), "q6_row_indexed_sample_indices") == ROWS
    ensures Field(Obj(EventOf(w)), "q6_row_indexed_writeback_verified") == True
  {
    LookupAt(EventOf(w), 3, "q6_writeback_verified_all");
    LookupAt(EventOf(w), 4, "q6_row_indexed_sample_indices");
    LookupAt(EventOf(w), 5, "q6_row_indexed_writeback_verified");
  }

  lemma Q6Lists(w: int)
    ensures Field(Obj(EventOf(w)), "q6_row_indexed_writeback_evidence") == List([Obj(RowOf(w))])
    ensures Field(Obj(EventOf(w)), "q6_writable_bindings") == List([Obj(BINDING)])
    ensures Field(Obj(EventOf(w)), "q6_writable_writeback_mismatches") == Null
    ensures Field(Obj(EventOf(w)), "q6_writable_writeback_unknown") == Null
  {
    LookupAt(EventOf(w), 6, "q6_row_indexed_writeback_evidence");
    LookupAt(EventOf(w), 7, "q6_writable_bindings");
    LookupNone(EventOf(w), "q6_writable_writeback_mismatches");
    LookupNone(EventOf(w), "q6_writable_writeback_unknown");
  }

  lemma Q6Reads(w: int)
    ensures Q6Writeback.ReadQ6(Obj(EventOf(w))) ==
            Q6Writeback.Q6(True, ROWS, True, [Q6Writeback.ReadRow(Obj(RowOf(w)))], Null, Null, [Q6Writeback.ReadBinding(Obj(BINDING))])
  {
    Q6Flags(w);
    Q6Lists(w);
    hide Field, Q6Writeback.ReadRow, Q6Writeback.ReadBinding;
    assert Q6Writeback.ReadRows([Obj(RowOf(w))]) == [Q6Writeback.ReadRow(Obj(RowOf(w)))];
    assert Q6Writeback.ReadBindings([Obj(BINDING)]) == [Q6Writeback.ReadBinding(Obj(BINDING))];
  }

  lemma {:induction false} PlainIntegers(items: seq<Json>, ns: seq<int>)
    requires |items| == |ns| && forall k :: 0 <= k < |items| ==> items[k] == Int(ns[k])
    ensures Q6Writeback.Integers(items) == Some(ns)
  {
    if items != [] {
      PlainIntegers(items[1..], ns[1..]);
      assert ns == [ns[0]] + ns[1..];
    }
  }

  lemma RowsAreIntegers()
    ensures Q6Writeback.IntegerList(ROWS) == Some([0])
  {
    PlainIntegers(ROWS.items, [0]);
  }

  lemma SamplesRead(v: int)
    ensures Q6Writeback.SamplesByIndex(List([Obj(SampleOf(v))])) == Some(map[0 := v as real])
  {
    SampleReads(v);
    hide Q6Writeback.Sample;
    var items := [Obj(SampleOf(v))];
    assert items[0] == Obj(SampleOf(v)) && items[1..] == [];
    assert Q6Writeback.SamplesInto(items[1..], map[0 := v as real]) == Some(map[0 := v as real]);
    assert map[][0 := v as real] == map[0 := v as real];
    assert Q6Writeback.SamplesInto(items, map[]) == Q6Writeback.SamplesInto(items[1..], map[][0 := v as real]);
  }

  lemma RowIsProven()
    ensures Q6Writeback.RowProven(Q6Writeback.ReadRow(Obj(RowOf(1))), [0])
  {
    RowReads(1);
    RowsAreIntegers();
    SamplesRead(1);
    hide Q6Writeback.ReadRow, Q6Writeback.IntegerList, Q6Writeback.SamplesByIndex;
    assert 0 in [0];
  }

  lemma BindingIsProven()
    ensures Q6Writeback.BindingProven(Q6Writeback.ReadBinding(Obj(BINDING)))
  {
    BindingReads();
    hide Q6Writeback.ReadBinding;
    HashIsValid();
  }

  lemma HashIsValid()
    ensures Q6Writeback.ValidHash(Str(HASH))
  {
    assert HASH[17] != Q6Writeback.ZERO_HASH[17];
  }

  lemma WritebackIsProven()
    ensures Q6Writeback.WritebackProven(Q6Writeback.ReadQ6(Obj(EventOf(1))))
  {
    Q6Reads(1);
    RowsAreIntegers();
    RowIsProven();
    BindingIsProven();
    hide Q6Writeback.ReadQ6, Q6Writeback.ReadRow, Q6Writeback.ReadBinding, Q6Writeback.IntegerList, Q6Writeback.RowProven,
         Q6Writeback.BindingProven;
  }

  lemma ShapeReads(cfg: Config, w: int)
    ensures ReadShape(cfg, Obj(EventOf(w))) == Shape(Null, List([Int(32), Int(2), Int(1)]), Null, Null, "")
  {
    LookupNone(EventOf(w), "local_size_consistent");
    LookupNone(EventOf(w), "local_size_resolved");
    LookupAt(EventOf(w), 2, "local_size");
    LookupNone(EventOf(w), "q6_local_size");
    LookupNone(EventOf(w), "q6k_safe_kernel");
    LookupNone(EventOf(w), "latest_spirv_hash");
    hide Field;
  }

  lemma ThreeIntegers()
    ensures Q6Writeback.IntegerList(List([Int(32), Int(2), Int(1)])) == Some([32, 2, 1])
  {
    PlainIntegers([Int(32), Int(2), Int(1)], [32, 2, 1]);
  }

  lemma ShapeIsClear(cfg: Config, w: int)
    ensures ShapeClear(ReadShape(cfg, Obj(EventOf(w))))
  {
    ShapeReads(cfg, w);
    ThreeIntegers();
    hide ReadShape;
  }

  // ---------- the artifact ----------

  const SUMMARY := [Member("correctness", Str("pass"))]

  const CORRECTNESS := [Member("summary", Obj(SUMMARY))]

  function DiagnosticsOf(w: int): seq<Member> {
    [Member("q6_workgroup_diagnostics", Obj(EventOf(w)))]
  }

  function GpuOf(w: int): seq<Member> {
    [Member("diagnostics", Obj(DiagnosticsOf(w))), Member("correctness", Obj(CORRECTNESS))]
  }

  const FRESHNESS := [Member("observed_executor_markers", List([Str("executor")]))]

  function CheckOf(env: string): seq<Member> {
    [Member("env", Str(env)), Member("executor_field", Str("field")), Member("status", Str("pass"))]
  }

  function ChecksOf(envs: seq<string>): (r: seq<Json>)
    ensures |r| == |envs| && forall i :: 0 <= i < |envs| ==> r[i] == Obj(CheckOf(envs[i]))
  {
    seq(|envs|, i requires 0 <= i < |envs| => Obj(CheckOf(envs[i])))
  }

  function RecordOf(envs: seq<string>): seq<Member> {
    [Member("checks", List(ChecksOf(envs)))]
  }

  /** A compare artifact with one passed check for each of these variables. */
  function FieldsOf(envs: seq<string>, w: int): seq<Member> {
    [Member("schema", Str("pdocker.llama.gpu.compare.v1")),
     Member("runtime_freshness", Obj(FRESHNESS)),
     Member("config_propagation", Obj(RecordOf(envs))),
     Member("gpu", Obj(GpuOf(w)))]
  }

  function Artifact(cfg: Config, w: int): (data: Json)
    ensures data.Obj?
  {
    Obj(FieldsOf(cfg.requiredEnvs, w))
  }

  lemma PresentFields(envs: seq<string>, w: int)
    ensures var data := Obj(FieldsOf(envs, w));
            && Field(data, "schema") == Str("pdocker.llama.gpu.compare.v1")
            && Field(data, "runtime_freshness") == Obj(FRESHNESS)
            && Field(data, "config_propagation") == Obj(RecordOf(envs))
            && Field(data, "gpu") == Obj(GpuOf(w))
  {
    LookupAt(FieldsOf(envs, w), 0, "schema");
    LookupAt(FieldsOf(envs, w), 1, "runtime_freshness");
    LookupAt(FieldsOf(envs, w), 2, "config_propagation");
    LookupAt(FieldsOf(envs, w), 3, "gpu");
  }

  lemma AbsentFields(envs: seq<string>, w: int)
    ensures var data := Obj(FieldsOf(envs, w));
            && Field(data, "error") == Null && Field(data, "readiness") == Null && Field(data, "ready") == Null
            && Field(data, "comparison") == Null && Field(data, BRIDGE) == Null
  {
    LookupNone(FieldsOf(envs, w), "error");
    LookupNone(FieldsOf(envs, w), "readiness");
    LookupNone(FieldsOf(envs, w), "ready");
    LookupNone(FieldsOf(envs, w), "comparison");
    LookupNone(FieldsOf(envs, w), BRIDGE);
  }

  lemma GpuFields(w: int)
    ensures Field(Obj(GpuOf(w)), "diagnostics") == Obj(DiagnosticsOf(w)) && Field(Obj(GpuOf(w)), "correctness") == Obj(CORRECTNESS)
    ensures Field(Obj(GpuOf(w)), "served") == Null
    ensures Field(Obj(DiagnosticsOf(w)), "q6_workgroup_diagnostics") == Obj(EventOf(w))
    ensures Field(Obj(CORRECTNESS), "summary") == Obj(SUMMARY)
    ensures Field(Obj(SUMMARY), "correctness") == Str("pass")
  {
    LookupAt(GpuOf(w), 0, "diagnostics");
    LookupAt(GpuOf(w), 1, "correctness");
    LookupNone(GpuOf(w), "served");
    LookupAt(DiagnosticsOf(w), 0, "q6_workgroup_diagnostics");
    LookupAt(CORRECTNESS, 0, "summary");
    LookupAt(SUMMARY, 0, "correctness");
  }

  lemma Parts(cfg: Config, w: int)
    ensures var data := Artifact(cfg, w);
            && Diagnostics(data) == Obj(DiagnosticsOf(w)) && Q6Of(data) == Obj(EventOf(w))
            && CorrectnessSummary(data) == Obj(SUMMARY) && Comparison(data) == Obj([])
            && IsCompareArtifact(data)
  {
    PresentFields(cfg.requiredEnvs, w);
    AbsentFields(cfg.requiredEnvs, w);
    GpuFields(w);
    hide Field, FieldsOf;
  }

  lemma FreshnessParts(cfg: Config, w: int)
    ensures var data := Artifact(cfg, w);
            && Freshness(data) == Obj(FRESHNESS)
            && PropagationOf(data) == ReadPropagation(Obj(RecordOf(cfg.requiredEnvs)))
  {
    PresentFields(cfg.requiredEnvs, w);
    hide Field, FieldsOf, ReadPropagation, ChecksOf;
  }

  // ---------- its gates ----------

  lemma MemoryAndReadiness(cfg: Config, w: int)
    ensures Open(cfg, Artifact(cfg, w), MemoryGate) && Open(cfg, Artifact(cfg, w), ReadinessGate)
  {
    PresentFields(cfg.requiredEnvs, w);
    AbsentFields(cfg.requiredEnvs, w);
    PlainGates(cfg, Artifact(cfg, w));
    NoFieldOfNull("ready");
    hide Open, Field, FieldsOf, CompletionTimeout, SetupBlocker, Diagnostics, Q6Of, SaysMatch;
  }

  lemma NoFieldOfNull(key: string)
    ensures Field(Null, key) == Null
  {
  }

  lemma CountedEvents(w: int)
    ensures EventsCounted(Obj(EventOf(w))) && SaysMatch(Obj(EventOf(w))) && OracleSpoke(Obj(EventOf(w)))
  {
    Q6Status(w);
    hide Field;
  }

  lemma ServiceAndSetup(cfg: Config, w: int)
    ensures Open(cfg, Artifact(cfg, w), ServiceGate) && Open(cfg, Artifact(cfg, w), SetupGate)
  {
    PresentFields(cfg.requiredEnvs, w);
    Parts(cfg, w);
    GpuFields(w);
    CountedEvents(w);
    PlainGates(cfg, Artifact(cfg, w));
    hide Open, Field, FieldsOf, MemoryError, ReadinessFalse, Diagnostics, Q6Of, SaysMatch, EventsCounted, IsCompareArtifact,
         TimedOut, Passed, SetupOf, TextOrEmpty, Truthy;
  }

  lemma Markers(cfg: Config, w: int)
    ensures Open(cfg, Artifact(cfg, w), ExecutorGate) && Open(cfg, Artifact(cfg, w), IcdGate)
  {
    FreshnessParts(cfg, w);
    LookupAt(FRESHNESS, 0, "observed_executor_markers");
    LookupNone(FRESHNESS, "expected_executor_marker");
    LookupNone(FRESHNESS, "expected_icd_marker");
    hide Field, Freshness, Artifact;
    assert TextOf(cfg, [Str("executor")][0]) == "executor";
  }

  /** The variables every check names, as the manifest lists them. */
  predicate NamedEnvs(cfg: Config) {
    cfg.requiredEnvs != [] && "" !in cfg.requiredEnvs
  }

  lemma CheckReads(env: string)
    ensures ReadCheck(Obj(CheckOf(env))) == Check(Str(env), Str("field"), Str("pass"), Null, Null)
  {
    LookupAt(CheckOf(env), 0, "env");
    LookupAt(CheckOf(env), 1, "executor_field");
    LookupAt(CheckOf(env), 2, "status");
    LookupNone(CheckOf(env), "expected");
    LookupNone(CheckOf(env), "observed_values");
    hide Field;
  }

  lemma RecordReads(envs: seq<string>)
    ensures ReadPropagation(Obj(RecordOf(envs))) == Propagation(false, false, Some(ReadChecks(ChecksOf(envs))))
  {
    LookupAt(RecordOf(envs), 0, "checks");
    LookupNone(RecordOf(envs), "summary");
    hide Field, ReadChecks, ChecksOf;
  }

  lemma ConfigIsProven(cfg: Config, w: int)
    requires NamedEnvs(cfg)
    ensures Open(cfg, Artifact(cfg, w), ConfigGate)
  {
    FreshnessParts(cfg, w);
    RecordReads(cfg.requiredEnvs);
    RecordGates(cfg, Artifact(cfg, w));
    hide Open, PropagationOf, ReadPropagation, Artifact, CheckOf, ReadCheck, ChecksOf, Names, CheckProven;
    var envs := cfg.requiredEnvs;
    var checks := ReadChecks(ChecksOf(envs));
    forall k | 0 <= k < |envs|
      ensures CheckProven(checks[k]) && Names(cfg, checks[k], envs[k])
    {
      assert ChecksOf(envs)[k] == Obj(CheckOf(envs[k]));
      OneCheckProven(cfg, envs[k]);
    }
    forall env | env in envs
      ensures EnvNamed(cfg, checks, env)
    {
      var k :| 0 <= k < |envs| && envs[k] == env;
      assert Names(cfg, checks[k], env);
    }
  }

  lemma OneCheckProven(cfg: Config, env: string)
    requires env != ""
    ensures CheckProven(ReadCheck(Obj(CheckOf(env)))) && Names(cfg, ReadCheck(Obj(CheckOf(env))), env)
  {
    CheckReads(env);
    hide ReadCheck, CheckOf;
  }

  lemma Verdicts(cfg: Config, w: int)
    ensures Open(cfg, Artifact(cfg, w), PromptGate) && Open(cfg, Artifact(cfg, w), SpeedupGate)
    ensures Open(cfg, Artifact(cfg, w), ReachedGate) && Open(cfg, Artifact(cfg, w), MatchGate)
  {
    Parts(cfg, w);
    CountedEvents(w);
    RecordGates(cfg, Artifact(cfg, w));
    PlainGates(cfg, Artifact(cfg, w));
    PromptGates(cfg, Artifact(cfg, w));
    hide Open, Artifact, Q6Of, SaysMatch, OracleSpoke, Field, ProbesFail, SpeedupOk, MemoryError, ReadinessFalse, CompletionTimeout,
         SetupBlocker, Diagnostics, IsCompareArtifact, CorrectnessOf;
  }

  lemma ShapeIsOpen(cfg: Config, w: int)
    ensures Open(cfg, Artifact(cfg, w), ShapeGate)
  {
    Parts(cfg, w);
    ShapeIsClear(cfg, w);
    hide *;
    Q6GatesMean(cfg, Artifact(cfg, w));
  }

  lemma WritebackIsOpen(cfg: Config)
    ensures Open(cfg, Artifact(cfg, 1), WritebackGate)
  {
    Parts(cfg, 1);
    WritebackIsProven();
    hide *;
    Q6GatesMean(cfg, Artifact(cfg, 1));
  }

  // ---------- no markers ----------

  ghost predicate Silent(probe: EvidenceWalk.Probe, value: Json) {
    forall path :: EvidenceWalk.AllMarkers(probe, value, path) == []
  }

  ghost predicate SilentField(probe: EvidenceWalk.Probe, field: Member) {
    EvidenceWalk.Marker(probe, field.key, field.value) == None && Silent(probe, field.value)
  }

  lemma {:induction false} SilentFields(probe: EvidenceWalk.Probe, fields: seq<Member>, path: string)
    requires forall k :: 0 <= k < |fields| ==> SilentField(probe, fields[k])
    ensures EvidenceWalk.FieldMarkers(probe, fields, path) == []
  {
    hide EvidenceWalk.Marker;
    if fields != [] {
      assert SilentField(probe, fields[0]);
      SilentFields(probe, fields[1..], path);
      var here := EvidenceWalk.FieldPath(path, fields[0].key);
      assert EvidenceWalk.AllMarkers(probe, fields[0].value, here) == [];
      assert EvidenceWalk.OneField(probe, fields[0], path) == [];
    }
  }

  lemma SilentObject(probe: EvidenceWalk.Probe, fields: seq<Member>)
    requires forall k :: 0 <= k < |fields| ==> SilentField(probe, fields[k])
    ensures Silent(probe, Obj(fields))
  {
    hide SilentField;
    forall path
      ensures EvidenceWalk.AllMarkers(probe, Obj(fields), path) == []
    {
      SilentFields(probe, fields, path);
      assert EvidenceWalk.AllMarkers(probe, Obj(fields), path) == EvidenceWalk.FieldMarkers(probe, fields, path);
    }
  }

  lemma {:induction false} SilentItems(probe: EvidenceWalk.Probe, items: seq<Json>, first: nat, path: string)
    requires forall k :: 0 <= k < |items| ==> Silent(probe, items[k])
    ensures EvidenceWalk.ItemMarkers(probe, items, first, path) == []
  {
    if items != [] {
      assert Silent(probe, items[0]);
      SilentItems(probe, items[1..], first + 1, path);
      assert EvidenceWalk.AllMarkers(probe, items[0], EvidenceWalk.ItemPath(path, first)) == [];
    }
  }

  lemma SilentList(probe: EvidenceWalk.Probe, items: seq<Json>)
    requires forall k :: 0 <= k < |items| ==> Silent(probe, items[k])
    ensures Silent(probe, List(items))
  {
    hide Silent;
    forall path
      ensures EvidenceWalk.AllMarkers(probe, List(items), path) == []
    {
      SilentItems(probe, items, 0, path);
      assert EvidenceWalk.AllMarkers(probe, List(items), path) == EvidenceWalk.ItemMarkers(probe, items, 0, path);
    }
    assert Silent(probe, List(items)) by {
      QuietEverywhere(probe, List(items));
    }
  }

  lemma QuietEverywhere(probe: EvidenceWalk.Probe, value: Json)
    requires forall path :: EvidenceWalk.AllMarkers(probe, value, path) == []
    ensures Silent(probe, value)
  {
  }

  lemma SilentScalar(probe: EvidenceWalk.Probe, value: Json)
    requires !value.List? && !value.Obj?
    ensures Silent(probe, value)
  {
  }

  /** A walk that is not set off by the two words a matching artifact records. */
  predicate Lenient(probe: EvidenceWalk.Probe) {
    && !ContainsAny(Lower("pass"), probe.tokens) && !ContainsAny(Lower("match"), probe.tokens)
    && (probe.flag == None || probe.flag == Some("oracle_fail_closed"))
    && forall key :: key in probe.keys ==> key in MARKER_KEYS
  }

  const MARKER_KEYS := [
    "status", "latest_status", "stage", "fail_stage", "error", "blocker_class", "classification", "diagnostic_interpretation"
  ]

  /** A field that holds one of the two words, or whose key is not asked about. */
  lemma QuietText(probe: EvidenceWalk.Probe, key: string, text: string)
    requires Lenient(probe) && (key !in MARKER_KEYS || text == "pass" || text == "match")
    ensures SilentField(probe, Member(key, Str(text)))
  {
    SilentScalar(probe, Str(text));
    hide ContainsAny, Lower, Silent;
  }

  lemma QuietFlag(probe: EvidenceWalk.Probe, key: string, value: Json)
    requires Lenient(probe) && !value.Str? && (value != True || key != "oracle_fail_closed") && Silent(probe, value)
    ensures SilentField(probe, Member(key, value))
  {
    hide ContainsAny, Lower, Silent;
  }

  lemma SilentSamples(probe: EvidenceWalk.Probe, v: int)
    requires Lenient(probe)
    ensures Silent(probe, List([Obj(SampleOf(v))])) && Silent(probe, ROWS)
  {
    SilentScalar(probe, Int(0));
    SilentScalar(probe, Int(v));
    hide Lenient, Silent, SilentField;
    QuietFlag(probe, "index", Int(0));
    QuietFlag(probe, "value", Int(v));
    SilentObject(probe, SampleOf(v));
    SilentList(probe, [Obj(SampleOf(v))]);
    SilentList(probe, [Int(0)]);
  }

  lemma SilentRow(probe: EvidenceWalk.Probe, w: int)
    requires Lenient(probe)
    ensures Silent(probe, List([Obj(RowOf(w))]))
  {
    SilentSamples(probe, 1);
    SilentSamples(probe, w);
    SilentScalar(probe, True);
    hide Lenient, Silent, SilentField;
    QuietFlag(probe, "q6_row_indexed", True);
    QuietFlag(probe, "q6_sample_indices", ROWS);
    QuietFlag(probe, "row_indexed_samples_match_oracle", True);
    QuietFlag(probe, "f32_after_dispatch", List([Obj(SampleOf(1))]));
    QuietFlag(probe, "f32_after_writeback", List([Obj(SampleOf(w))]));
    SilentObject(probe, RowOf(w));
    SilentList(probe, [Obj(RowOf(w))]);
  }

  lemma HashKeys()
    ensures "gpu_after_dispatch_hash" !in MARKER_KEYS && "fd_after_hash" !in MARKER_KEYS
  {
  }

  lemma SilentBinding(probe: EvidenceWalk.Probe)
    requires Lenient(probe)
    ensures Silent(probe, List([Obj(BINDING)]))
  {
    SilentScalar(probe, True);
    SilentScalar(probe, Int(0));
    HashKeys();
    hide Lenient, Silent, SilentField;
    QuietFlag(probe, "index", Int(0));
    QuietFlag(probe, "binding", Int(0));
    QuietFlag(probe, "writable", True);
    QuietText(probe, "gpu_after_dispatch_hash", HASH);
    QuietText(probe, "fd_after_hash", HASH);
    QuietFlag(probe, "writeback_verified", True);
    SilentObject(probe, BINDING);
    SilentList(probe, [Obj(BINDING)]);
  }

  lemma SilentSize(probe: EvidenceWalk.Probe)
    ensures Silent(probe, List([Int(32), Int(2), Int(1)]))
  {
    SilentScalar(probe, Int(32));
    SilentScalar(probe, Int(2));
    SilentScalar(probe, Int(1));
    hide Silent;
    SilentList(probe, [Int(32), Int(2), Int(1)]);
  }

  lemma SilentQ6(probe: EvidenceWalk.Probe, w: int)
    requires Lenient(probe)
    ensures Silent(probe, Obj(EventOf(w)))
  {
    SilentSamples(probe, 1);
    SilentRow(probe, w);
    SilentBinding(probe);
    SilentSize(probe);
    SilentScalar(probe, True);
    SilentScalar(probe, Int(1));
    hide Lenient, Silent, SilentField;
    QuietFlag(probe, "event_count", Int(1));
    QuietText(probe, "latest_status", "match");
    QuietFlag(probe, "local_size", List([Int(32), Int(2), Int(1)]));
    QuietFlag(probe, "q6_writeback_verified_all", True);
    QuietFlag(probe, "q6_row_indexed_sample_indices", ROWS);
    QuietFlag(probe, "q6_row_indexed_writeback_verified", True);
    QuietFlag(probe, "q6_row_indexed_writeback_evidence", List([Obj(RowOf(w))]));
    QuietFlag(probe, "q6_writable_bindings", List([Obj(BINDING)]));
    SilentObject(probe, EventOf(w));
  }

  lemma PlainKeys()
    ensures "correctness" !in MARKER_KEYS && "schema" !in MARKER_KEYS && "env" !in MARKER_KEYS
    ensures "executor_field" !in MARKER_KEYS
  {
  }

  lemma SilentGpu(probe: EvidenceWalk.Probe, w: int)
    requires Lenient(probe)
    ensures Silent(probe, Obj(GpuOf(w)))
  {
    SilentQ6(probe, w);
    PlainKeys();
    hide Lenient, Silent, SilentField;
    QuietFlag(probe, "q6_workgroup_diagnostics", Obj(EventOf(w)));
    SilentObject(probe, DiagnosticsOf(w));
    QuietText(probe, "correctness", "pass");
    SilentObject(probe, SUMMARY);
    QuietFlag(probe, "summary", Obj(SUMMARY));
    SilentObject(probe, CORRECTNESS);
    QuietFlag(probe, "diagnostics", Obj(DiagnosticsOf(w)));
    QuietFlag(probe, "correctness", Obj(CORRECTNESS));
    SilentObject(probe, GpuOf(w));
  }

  lemma SilentCheck(probe: EvidenceWalk.Probe, env: string)
    requires Lenient(probe)
    ensures Silent(probe, Obj(CheckOf(env)))
  {
    PlainKeys();
    hide Lenient, Silent, SilentField;
    QuietText(probe, "env", env);
    QuietText(probe, "executor_field", "field");
    QuietText(probe, "status", "pass");
    SilentObject(probe, CheckOf(env));
  }

  lemma SilentRecord(probe: EvidenceWalk.Probe, envs: seq<string>)
    requires Lenient(probe)
    ensures Silent(probe, Obj(RecordOf(envs)))
  {
    hide Lenient, Silent, SilentField, CheckOf, ChecksOf;
    forall k | 0 <= k < |envs|
      ensures Silent(probe, ChecksOf(envs)[k])
    {
      SilentCheck(probe, envs[k]);
    }
    SilentList(probe, ChecksOf(envs));
    QuietFlag(probe, "checks", List(ChecksOf(envs)));
    SilentObject(probe, RecordOf(envs));
  }

  lemma SilentFreshness(probe: EvidenceWalk.Probe)
    requires Lenient(probe)
    ensures Silent(probe, Obj(FRESHNESS))
  {
    SilentScalar(probe, Str("executor"));
    hide Lenient, Silent, SilentField;
    SilentList(probe, [Str("executor")]);
    QuietFlag(probe, "observed_executor_markers", List([Str("executor")]));
    SilentObject(probe, FRESHNESS);
  }

  lemma SilentArtifact(probe: EvidenceWalk.Probe, cfg: Config, w: int)
    requires Lenient(probe)
    ensures !EvidenceWalk.MarkedSomewhere(probe, Artifact(cfg, w))
  {
    PlainKeys();
    SilentFreshness(probe);
    SilentRecord(probe, cfg.requiredEnvs);
    SilentGpu(probe, w);
    hide Lenient, SilentField, RecordOf, EvidenceWalk.MarkedSomewhere, EvidenceWalk.AllMarkers;
    QuietText(probe, "schema", "pdocker.llama.gpu.compare.v1");
    QuietFlag(probe, "runtime_freshness", Obj(FRESHNESS));
    QuietFlag(probe, "config_propagation", Obj(RecordOf(cfg.requiredEnvs)));
    QuietFlag(probe, "gpu", Obj(GpuOf(w)));
    SilentObject(probe, FieldsOf(cfg.requiredEnvs, w));
    assert EvidenceWalk.AllMarkers(probe, Artifact(cfg, w), "$") == [];
    EvidenceWalk.EmptyReportMeansUnmarked(probe, Artifact(cfg, w));
  }

  /** The manifest's tokens occur in neither of the two words. */
  predicate LenientTokens(cfg: Config) {
    !ContainsAny(Lower("pass"), cfg.unsupportedTokens) && !ContainsAny(Lower("match"), cfg.unsupportedTokens)
  }

  lemma BothLenient(cfg: Config)
    requires LenientTokens(cfg)
    ensures Lenient(EvidenceWalk.OracleFailClosed()) && Lenient(EvidenceWalk.UnsupportedWork(cfg.unsupportedTokens))
  {
    LongTokens("pass");
    LongTokens("match");
    hide ContainsAny, Lower;
  }

  lemma LongTokens(word: string)
    requires |word| < 14
    ensures !ContainsAny(Lower(word), EvidenceWalk.FAIL_CLOSED_TOKENS)
  {
    forall token | token in EvidenceWalk.FAIL_CLOSED_TOKENS
      ensures |token| >= 14
    {
    }
  }

  lemma NoMarkers(cfg: Config, w: int)
    requires LenientTokens(cfg)
    ensures Open(cfg, Artifact(cfg, w), OracleGate) && Open(cfg, Artifact(cfg, w), UnsupportedGate)
  {
    hide *;
    BothLenient(cfg);
    SilentArtifact(EvidenceWalk.OracleFailClosed(), cfg, w);
    SilentArtifact(EvidenceWalk.UnsupportedWork(cfg.unsupportedTokens), cfg, w);
    MarkerGates(cfg, Artifact(cfg, w));
  }

  lemma MarkerGates(cfg: Config, data: Json)
    ensures Open(cfg, data, OracleGate) <==> !EvidenceWalk.MarkedSomewhere(EvidenceWalk.OracleFailClosed(), data)
    ensures Open(cfg, data, UnsupportedGate) <==>
            !EvidenceWalk.MarkedSomewhere(EvidenceWalk.UnsupportedWork(cfg.unsupportedTokens), data)
  {
    hide EvidenceWalk.MarkedSomewhere, EvidenceWalk.OracleFailClosed, EvidenceWalk.UnsupportedWork;
  }

  // ---------- it matches, and claims ----------

  lemma OpenUpToWriteback(cfg: Config, w: int)
    requires NamedEnvs(cfg) && LenientTokens(cfg)
    ensures forall g :: g != WritebackGate ==> Open(cfg, Artifact(cfg, w), g)
  {
    hide Open, Artifact, NamedEnvs, LenientTokens;
    MemoryAndReadiness(cfg, w);
    ServiceAndSetup(cfg, w);
    Markers(cfg, w);
    ConfigIsProven(cfg, w);
    NoMarkers(cfg, w);
    Verdicts(cfg, w);
    ShapeIsOpen(cfg, w);
    forall g | g != WritebackGate
      ensures Open(cfg, Artifact(cfg, w), g)
    {
      match g
      case MemoryGate | ReadinessGate | ServiceGate | ExecutorGate | IcdGate =>
      case SetupGate | ConfigGate | OracleGate | UnsupportedGate | PromptGate =>
      case SpeedupGate | ReachedGate | ShapeGate | MatchGate =>
    }
  }

  lemma EveryGateOpen(cfg: Config)
    requires NamedEnvs(cfg) && LenientTokens(cfg)
    ensures forall g :: Open(cfg, Artifact(cfg, 1), g)
  {
    hide *;
    OpenUpToWriteback(cfg, 1);
    WritebackIsOpen(cfg);
  }

  lemma CorrectnessReads(cfg: Config, w: int)
    ensures var c := CorrectnessOf(Artifact(cfg, w)); c.Some? && Hashable(c.value.verdict)
  {
    PresentFields(cfg.requiredEnvs, w);
    GpuFields(w);
    hide Field, FieldsOf, ReadProbes;
  }

  lemma NeverRaises(cfg: Config, w: int)
    requires NamedEnvs(cfg)
    ensures WellShaped(cfg, Artifact(cfg, w))
  {
    hide Malformed, Artifact, NamedEnvs;
    forall g
      ensures !Malformed(cfg, Artifact(cfg, w), g)
    {
      if g.ServiceGate? {
        ServiceIsFine(cfg, w);
      } else if g.ConfigGate? {
        ConfigIsFine(cfg, w);
      } else if g.PromptGate? {
        PromptIsFine(cfg, w);
      } else if g.ReachedGate? {
        ReachedIsFine(cfg, w);
      } else {
        NeverMalformed(cfg, Artifact(cfg, w), g);
      }
    }
  }

  lemma ServiceIsFine(cfg: Config, w: int)
    ensures !Malformed(cfg, Artifact(cfg, w), ServiceGate)
  {
    hide *;
    Parts(cfg, w);
    ServiceMalformed(cfg, Artifact(cfg, w));
    assert Obj(DiagnosticsOf(w)).Obj? && Obj(SUMMARY).Obj?;
  }

  lemma ConfigIsFine(cfg: Config, w: int)
    requires NamedEnvs(cfg)
    ensures !Malformed(cfg, Artifact(cfg, w), ConfigGate)
  {
    hide *;
    ConfigIsProven(cfg, w);
    EvidenceGates(cfg, Artifact(cfg, w));
    ConfigMalformed(cfg, Artifact(cfg, w));
  }

  lemma PromptIsFine(cfg: Config, w: int)
    ensures !Malformed(cfg, Artifact(cfg, w), PromptGate)
  {
    Parts(cfg, w);
    CorrectnessReads(cfg, w);
    Q6Status(w);
    hide Artifact, Q6Of, CorrectnessOf, IsCompareArtifact, Field, EventsCounted;
  }

  lemma ReachedIsFine(cfg: Config, w: int)
    ensures !Malformed(cfg, Artifact(cfg, w), ReachedGate)
  {
    Parts(cfg, w);
    Q6Reads(w);
    hide Artifact, Q6Of, Comparison, Q6Writeback.ReadQ6;
  }

  /**
   * For any manifest with named variables and tokens foreign to the words pass and match, this compare
   * artifact matches and its correctness claim is allowed, although it holds neither a bridge phase nor
   * a prompt probe.
   */
  lemma ClaimsWithoutEvidence(cfg: Config)
    requires NamedEnvs(cfg) && LenientTokens(cfg)
    ensures var data := Artifact(cfg, 1);
            && Matched(cfg, data) && ClaimsCorrectness(cfg, data)
            && IsCompareArtifact(data) && EventsCounted(Q6Of(data))
            && !SpeedupRecorded(data) && !(CorrectnessOf(data).Some? && Probed(cfg, CorrectnessOf(data).value))
  {
    NeverRaises(cfg, 1);
    EveryGateOpen(cfg);
    Parts(cfg, 1);
    GpuFields(1);
    CountedEvents(1);
    NoBridge(cfg, 1);
    NoProbes(cfg, 1);
    hide Artifact, WellShaped, Open, Matched, ClaimsCorrectness, IsCompareArtifact, Q6Of, SpeedupRecorded, CorrectnessOf, Probed,
         EventsCounted, Field, CorrectnessSummary, OracleSpoke, SaysMatch;
    MatchExact(cfg, Artifact(cfg, 1));
    CorrectnessClaimExact(cfg, Artifact(cfg, 1));
  }

  lemma NoBridge(cfg: Config, w: int)
    ensures !SpeedupRecorded(Artifact(cfg, w))
  {
    AbsentFields(cfg.requiredEnvs, w);
    hide Field, FieldsOf, IsNumber;
  }

  lemma NoProbes(cfg: Config, w: int)
    ensures CorrectnessOf(Artifact(cfg, w)).Some? ==> !Probed(cfg, CorrectnessOf(Artifact(cfg, w)).value)
  {
    PresentFields(cfg.requiredEnvs, w);
    GpuFields(w);
    LookupNone(CORRECTNESS, "probes");
    hide Field, FieldsOf, Called, AdditionOk;
  }

  // ---------- a sample that changed on the way back ----------

  lemma RowIsChanged(w: int)
    requires w != 1
    ensures Q6Writeback.RowChanged(Q6Writeback.ReadRow(Obj(RowOf(w))))
  {
    RowReads(w);
    RowsAreIntegers();
    SamplesRead(1);
    SamplesRead(w);
    hide Q6Writeback.ReadRow, Q6Writeback.IntegerList, Q6Writeback.SamplesByIndex;
    assert 0 in [0];
  }

  lemma WritebackIsRefuted(w: int)
    requires w != 1
    ensures Q6Evidence.Refuted(Obj(EventOf(w)))
  {
    RowIsChanged(w);
    Q6Reads(w);
    Q6Evidence.ContradictedOnRecord(Obj(EventOf(w)));
    hide Q6Evidence.Refuted, Q6Writeback.ReadQ6, Q6Writeback.ReadRow, Q6Writeback.ReadBinding, Q6Writeback.RowChanged;
    assert [Q6Writeback.ReadRow(Obj(RowOf(w)))][0] == Q6Writeback.ReadRow(Obj(RowOf(w)));
  }

  lemma WritebackIsClosed(cfg: Config, w: int)
    requires w != 1
    ensures !Open(cfg, Artifact(cfg, w), WritebackGate) && Q6Evidence.Refuted(Q6Of(Artifact(cfg, w)))
  {
    hide *;
    Parts(cfg, w);
    WritebackIsRefuted(w);
    Q6GatesMean(cfg, Artifact(cfg, w));
    Q6Evidence.VerdictOnRecord(Obj(EventOf(w)));
    Q6Evidence.ProvenOnRecord(Obj(EventOf(w)));
  }

  lemma StopsAtWriteback(cfg: Config, w: int)
    requires NamedEnvs(cfg) && LenientTokens(cfg) && w != 1
    ensures FirstClosed(cfg, Artifact(cfg, w), WritebackGate)
  {
    OpenUpToWriteback(cfg, w);
    NeverRaises(cfg, w);
    WritebackIsClosed(cfg, w);
    hide Open, Malformed, Artifact, NamedEnvs, LenientTokens, Q6Evidence.Refuted;
  }

  /**
   * When the sample reads anything but the value it had after dispatch, the artifact does not match,
   * nothing may be claimed from it, and the exit code is 40 whatever the flags, although the oracle
   * reported a match.
   */
  lemma ChangedSampleIsRefuted(cfg: Config, w: int, flags: Flags)
    requires NamedEnvs(cfg) && LenientTokens(cfg) && w != 1
    ensures var data := Artifact(cfg, w);
            && SaysMatch(Q6Of(data)) && !Matched(cfg, data)
            && !ClaimsCorrectness(cfg, data) && !ClaimsBenchmark(cfg, data)
            && VerifierExit(cfg, Some(data), flags) == 40
  {
    hide *;
    var data := Artifact(cfg, w);
    StopsAtWriteback(cfg, w);
    WritebackIsClosed(cfg, w);
    Parts(cfg, w);
    CountedEvents(w);
    MatchExact(cfg, data);
    CorrectnessClaimExact(cfg, data);
    BenchmarkClaimExact(cfg, data);
    ExitExact(cfg, data, flags, WritebackGate);
    CodeAtWriteback(cfg, data, flags);
  }

  lemma CodeAtWriteback(cfg: Config, data: Json, flags: Flags)
    requires Q6Evidence.Refuted(Q6Of(data))
    ensures CodeAt(cfg, data, flags, WritebackGate) == 40
  {
    hide Q6Evidence.Refuted, Q6Of;
  }
}

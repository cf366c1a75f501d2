/**
 * The classification of a compare artifact: the gates in the order the script asks
 * them, the claims it allows, and the exit code of the verifier.
 */
module Classifier {
  import opened Options
  import opened Text
  import opened Json
  import opened GpuGates
  import EvidenceWalk
  import Q6Writeback

  datatype Class =
    | MemoryBlocked
    | ReadinessBlocked
    | CompletionTimedOut
    | ExecutorMarkerNotObserved
    | IcdMarkerNotObserved
    | FeatureEvidenceAbsent
    | SetupBlocked(setup: Setup)
    | ConfigMismatch
    | OracleFailedClosed
    | UnsupportedWorkAccepted
    | ApiPromptMissing
    | SpeedupMissing
    | Q6NotReached
    | ShapeBlocker
    | WritebackMismatch
    | WritebackUnverified
    | OracleMatch
    | OracleMismatch
    | NativeOutputLayout
    | NativeOtherRow
    | NativeDeviceExecution
    | NativeLayoutInconclusive
    | NativeReduction
    | Q6Inconclusive

  datatype Report = Report(
    class_: Class,
    memoryBlocked: bool,
    terminal: bool,
    correctnessClaim: bool,
    benchmarkClaim: bool,
    oracleEvidence: seq<EvidenceWalk.Evidence>,
    unsupportedEvidence: seq<EvidenceWalk.Evidence>,
    writeback: Option<Q6Writeback.Verdict>)

  /** A report, or the exception an unexpected shape raises. */
  datatype Result = Classified(report: Report) | Raised

  /** `_claim_base`: no claim of any kind. */
  function Blocked(c: Class): Report {
    Report(c, false, false, false, false, [], [], None)
  }

  function Diagnostics(data: Json): Json {
    Or(Field(Field(data, "gpu"), "diagnostics"), Obj([]))
  }

  function Q6Of(data: Json): Json {
    Or(Field(Diagnostics(data), "q6_workgroup_diagnostics"), Obj([]))
  }

  function CorrectnessSummary(data: Json): Json {
    Or(Field(Field(Field(data, "gpu"), "correctness"), "summary"), Obj([]))
  }

  function Comparison(data: Json): Json {
    Or(Field(data, "comparison"), Obj([]))
  }

  predicate StatusIs(q6: Json, status: string) {
    Field(q6, "latest_status") == Str(status)
  }

  predicate SaysMatch(q6: Json) {
    StatusIs(q6, "match")
  }

  predicate SaysMismatch(q6: Json) {
    StatusIs(q6, "mismatch")
  }

  /** `q6_oracle_evidence`: counted events with an oracle verdict. */
  predicate OracleSpoke(q6: Json) {
    EventsCounted(q6) && (SaysMatch(q6) || SaysMismatch(q6))
  }

  /** Asking whether the status is among the oracle verdicts raises. */
  predicate StatusRaises(q6: Json) {
    EventsCounted(q6) && !Hashable(Field(q6, "latest_status"))
  }

  function CorrectnessOf(data: Json): Option<Correctness> {
    ReadCorrectness(Field(Field(data, "gpu"), "correctness"))
  }

  function PropagationOf(data: Json): Propagation {
    ReadPropagation(ConfigRecord(data))
  }

  /** Where an oracle mismatch behind a proven writeback points. */
  function MismatchClass(cfg: Config, q6: Json): Class {
    var layoutProbe := Field(q6, "q6_output_layout_probe");
    var layout := ProbeSummary(cfg, layoutProbe, Field(q6, "q6_output_layout_probe_summary"));
    var rows := ProbeSummary(cfg, Field(q6, "q6_row_provenance_probe"), Field(q6, "q6_row_provenance_probe_summary"));
    var shaderLike := ShaderLikeCleared(cfg, q6);
    if layout == Str("canonical-mismatch-found-elsewhere") then NativeOutputLayout
    else if rows == Str("other-row-match") then NativeOtherRow
    else if FixedOffsetRejected(layout, layoutProbe) && shaderLike then NativeDeviceExecution
    else if layout == Str("canonical-mismatch-inconclusive") then NativeLayoutInconclusive
    else if layout == Str("canonical-mismatch-not-found") && shaderLike then NativeReduction
    else OracleMismatch
  }

  function Q6Class(cfg: Config, q6: Json, summary: Q6Writeback.Summary): Class {
    if !Truthy(q6) then Q6NotReached
    else if q6.Obj? && ShapeBlocked(ReadShape(cfg, q6)) then ShapeBlocker
    else if summary.Mismatch? then WritebackMismatch
    else if !summary.Pass? then WritebackUnverified
    else if SaysMatch(q6) then OracleMatch
    else if SaysMismatch(q6) then MismatchClass(cfg, q6)
    else Q6Inconclusive
  }

  /** The last stage: the Q6_K verdict and the claims. */
  function Q6Stage(cfg: Config, data: Json): Result {
    match Q6Writeback.Evidence(Q6Writeback.ReadQ6(Q6Of(data)))
    case None => Raised
    case Some(verdict) =>
      var c := Q6Class(cfg, Q6Of(data), verdict.summary);
      var correctness := Field(CorrectnessSummary(data), "correctness") == Str("pass") && c.OracleMatch?;
      if !Comparison(data).Obj? then Raised
      else
        Classified(Report(c, false, c.OracleMatch?, correctness,
                          correctness && CpuAvailable(cfg, data) && Truthy(Field(Comparison(data), "speedup")),
                          [], [], Some(verdict)))
  }

  /** The gates on the evidence for the oracle and the benchmark. */
  function EvidenceStage(cfg: Config, data: Json): Result {
    match ConfigBlocked(cfg, IsCompareArtifact(data), PropagationOf(data))
    case None => Raised
    case Some(true) => Classified(Blocked(ConfigMismatch))
    case Some(false) =>
      var oracle := EvidenceWalk.Report(EvidenceWalk.OracleFailClosed(), data);
      var unsupported := EvidenceWalk.Report(EvidenceWalk.UnsupportedWork(cfg.unsupportedTokens), data);
      if oracle != [] then Classified(Blocked(OracleFailedClosed).(oracleEvidence := oracle))
      else if unsupported != [] then Classified(Blocked(UnsupportedWorkAccepted).(unsupportedEvidence := unsupported))
      else PromptStage(cfg, data)
  }

  function PromptStage(cfg: Config, data: Json): Result {
    if StatusRaises(Q6Of(data)) then Raised
    else
      var spoke := OracleSpoke(Q6Of(data));
      match ProbesFail(cfg, IsCompareArtifact(data), CorrectnessOf(data))
      case None => Raised
      case Some(fail) =>
        if fail && !spoke then Classified(Blocked(ApiPromptMissing))
        else if !SpeedupOk(data) && !spoke then Classified(Blocked(SpeedupMissing))
        else Q6Stage(cfg, data)
  }

  /** The gates on the runtime the evidence comes from. */
  function RuntimeStage(cfg: Config, data: Json): Result {
    if CompletionTimeout(cfg, data) then Classified(Blocked(CompletionTimedOut))
    else if !ExecutorFresh(cfg, data) then Classified(Blocked(ExecutorMarkerNotObserved))
    else if !IcdFresh(cfg, data) then Classified(Blocked(IcdMarkerNotObserved))
    else match SetupBlocker(cfg, data, Diagnostics(data))
      case Some(setup) =>
        if FeatureEvidenceMissing(cfg, setup, Diagnostics(data), Freshness(data))
        then Classified(Blocked(FeatureEvidenceAbsent))
        else Classified(Blocked(SetupBlocked(setup)))
      case None => EvidenceStage(cfg, data)
  }

  /** `classify` */
  function Classify(cfg: Config, data: Json): Result
    requires data.Obj?
  {
    if MemoryError(cfg, data) then Classified(Blocked(MemoryBlocked).(memoryBlocked := true))
    else if ReadinessFalse(data) then Classified(Blocked(ReadinessBlocked))
    else if !Diagnostics(data).Obj? || !CorrectnessSummary(data).Obj? then Raised
    else RuntimeStage(cfg, data)
  }

  // ---------- the gates as statements about the artifact ----------

  datatype Gate =
    | MemoryGate
    | ReadinessGate
    | ServiceGate
    | ExecutorGate
    | IcdGate
    | SetupGate
    | ConfigGate
    | OracleGate
    | UnsupportedGate
    | PromptGate
    | SpeedupGate
    | ReachedGate
    | ShapeGate
    | WritebackGate
    | MatchGate

  function Order(g: Gate): nat {
    match g
    case MemoryGate => 0
    case ReadinessGate => 1
    case ServiceGate => 2
    case ExecutorGate => 3
    case IcdGate => 4
    case SetupGate => 5
    case ConfigGate => 6
    case OracleGate => 7
    case UnsupportedGate => 8
    case PromptGate => 9
    case SpeedupGate => 10
    case ReachedGate => 11
    case ShapeGate => 12
    case WritebackGate => 13
    case MatchGate => 14
  }

  /** The gate a class says was closed; a match says none was. */
  function ClosedGate(c: Class): Option<Gate> {
    match c
    case MemoryBlocked => Some(MemoryGate)
    case ReadinessBlocked => Some(ReadinessGate)
    case CompletionTimedOut => Some(ServiceGate)
    case ExecutorMarkerNotObserved => Some(ExecutorGate)
    case IcdMarkerNotObserved => Some(IcdGate)
    case FeatureEvidenceAbsent => Some(SetupGate)
    case SetupBlocked(_) => Some(SetupGate)
    case ConfigMismatch => Some(ConfigGate)
    case OracleFailedClosed => Some(OracleGate)
    case UnsupportedWorkAccepted => Some(UnsupportedGate)
    case ApiPromptMissing => Some(PromptGate)
    case SpeedupMissing => Some(SpeedupGate)
    case Q6NotReached => Some(ReachedGate)
    case ShapeBlocker => Some(ShapeGate)
    case WritebackMismatch => Some(WritebackGate)
    case WritebackUnverified => Some(WritebackGate)
    case OracleMatch => None
    case _ => Some(MatchGate)
  }

  ghost predicate ExecutorObserved(cfg: Config, data: Json) {
    var f := Freshness(data);
    Observed(cfg, Field(f, "observed_executor_markers"), Field(f, "expected_executor_marker"))
  }

  /** Without an expected driver marker none is asked for. */
  ghost predicate IcdObserved(cfg: Config, data: Json) {
    var f := Freshness(data);
    || TextOrEmpty(cfg, Field(f, "expected_icd_marker")) == ""
    || Observed(cfg, Field(f, "observed_icd_markers"), Field(f, "expected_icd_marker"))
  }

  /** What each gate demands of the artifact. */
  ghost predicate Open(cfg: Config, data: Json, g: Gate) {
    var compare, q6 := IsCompareArtifact(data), Q6Of(data);
    match g
    case MemoryGate => !MemoryError(cfg, data)
    case ReadinessGate => !ReadinessFalse(data)
    case ServiceGate => !CompletionTimeout(cfg, data)
    case ExecutorGate => ExecutorObserved(cfg, data)
    case IcdGate => IcdObserved(cfg, data)
    case SetupGate => SetupBlocker(cfg, data, Diagnostics(data)) == None
    case ConfigGate => ConfigProven(cfg, compare, PropagationOf(data))
    case OracleGate => !EvidenceWalk.MarkedSomewhere(EvidenceWalk.OracleFailClosed(), data)
    case UnsupportedGate => !EvidenceWalk.MarkedSomewhere(EvidenceWalk.UnsupportedWork(cfg.unsupportedTokens), data)
    case PromptGate =>
      OracleSpoke(q6) || (compare ==> CorrectnessOf(data).Some? && Probed(cfg, CorrectnessOf(data).value))
    case SpeedupGate => OracleSpoke(q6) || (compare ==> SpeedupRecorded(data))
    case ReachedGate => Truthy(q6)
    case ShapeGate => q6.Obj? ==> ShapeClear(ReadShape(cfg, q6))
    case WritebackGate => Q6Writeback.WritebackProven(Q6Writeback.ReadQ6(q6))
    case MatchGate => SaysMatch(q6)
  }

  /** Findings are recorded as a true boolean or a non-zero number instead of a list. */
  predicate ScalarFindings(q6: Json) {
    var read := Q6Writeback.ReadQ6(q6);
    read.Q6? && (Q6Writeback.Scalar(read.listedMismatches) || Q6Writeback.Scalar(read.listedUnknown))
  }

  /** A shape that makes the script raise when it comes to this gate. */
  ghost predicate Malformed(cfg: Config, data: Json, g: Gate) {
    match g
    case ServiceGate => !Diagnostics(data).Obj? || !CorrectnessSummary(data).Obj?
    case ConfigGate => ConfigRaises(cfg, IsCompareArtifact(data), PropagationOf(data))
    case PromptGate =>
      || StatusRaises(Q6Of(data))
      || (IsCompareArtifact(data) && CorrectnessOf(data).Some? && !Hashable(CorrectnessOf(data).value.verdict))
    case ReachedGate => ScalarFindings(Q6Of(data)) || !Comparison(data).Obj?
    case _ => false
  }

  /** No value the script asks for has a shape that makes it raise. */
  ghost predicate WellShaped(cfg: Config, data: Json) {
    forall g :: !Malformed(cfg, data, g)
  }

  /** From the k-th gate on, the script comes to a gate with a malformed value before any gate is closed. */
  ghost predicate RaisesFrom(cfg: Config, data: Json, k: nat) {
    exists g :: k <= Order(g) && Malformed(cfg, data, g) && OpenBetween(cfg, data, k, Order(g))
  }

  ghost predicate OpenBetween(cfg: Config, data: Json, k: nat, n: nat) {
    forall g :: k <= Order(g) < n ==> Open(cfg, data, g)
  }

  /** The named gate is the first one that is closed. */
  ghost predicate StopsAt(cfg: Config, data: Json, closed: Option<Gate>) {
    && (closed.Some? ==> !Open(cfg, data, closed.value))
    && forall g :: (closed.Some? ==> Order(g) < Order(closed.value)) ==> Open(cfg, data, g)
  }

  // ---------- each computed gate agrees with its statement ----------

  lemma RuntimeGates(cfg: Config, data: Json)
    ensures Open(cfg, data, ExecutorGate) <==> ExecutorFresh(cfg, data)
    ensures Open(cfg, data, IcdGate) <==> IcdFresh(cfg, data)
  {
    hide Observed, ExecutorMarkerOk, IcdMarkerOk, TextOrEmpty, Freshness, Field;
    var f := Freshness(data);
    ExecutorMarkerMeansObserved(cfg, Field(f, "observed_executor_markers"), Field(f, "expected_executor_marker"));
    IcdMarkerMeansObserved(cfg, Field(f, "observed_icd_markers"), Field(f, "expected_icd_marker"));
  }

  lemma EvidenceGates(cfg: Config, data: Json)
    ensures Open(cfg, data, ConfigGate) <==>
            ConfigBlocked(cfg, IsCompareArtifact(data), PropagationOf(data)) == Some(false)
    ensures Open(cfg, data, OracleGate) <==> EvidenceWalk.Report(EvidenceWalk.OracleFailClosed(), data) == []
    ensures Open(cfg, data, UnsupportedGate) <==>
            EvidenceWalk.Report(EvidenceWalk.UnsupportedWork(cfg.unsupportedTokens), data) == []
  {
    hide ConfigBlocked, ConfigProven, IsCompareArtifact, PropagationOf, EvidenceWalk.Report,
         EvidenceWalk.MarkedSomewhere, EvidenceWalk.OracleFailClosed, EvidenceWalk.UnsupportedWork, Field;
    ConfigGateExact(cfg, IsCompareArtifact(data), PropagationOf(data));
    EvidenceWalk.EmptyReportMeansUnmarked(EvidenceWalk.OracleFailClosed(), data);
    EvidenceWalk.EmptyReportMeansUnmarked(EvidenceWalk.UnsupportedWork(cfg.unsupportedTokens), data);
  }

  lemma PromptGates(cfg: Config, data: Json)
    ensures Open(cfg, data, PromptGate) <==>
            OracleSpoke(Q6Of(data)) || ProbesFail(cfg, IsCompareArtifact(data), CorrectnessOf(data)) == Some(false)
    ensures Open(cfg, data, SpeedupGate) <==> OracleSpoke(Q6Of(data)) || SpeedupOk(data)
  {
    hide Probed, IsCompareArtifact, SpeedupRecorded, OracleSpoke, Q6Of, CorrectnessOf, Field;
    ProbeGateExact(cfg, CorrectnessOf(data));
  }

  lemma Q6Gates(cfg: Config, data: Json)
    ensures Open(cfg, data, ShapeGate) <==> Q6Of(data).Obj? ==> !ShapeBlocked(ReadShape(cfg, Q6Of(data)))
    ensures Open(cfg, data, WritebackGate) <==>
            var verdict := Q6Writeback.Evidence(Q6Writeback.ReadQ6(Q6Of(data)));
            verdict.Some? && verdict.value.summary.Pass?
    ensures Open(cfg, data, WritebackGate) ==> Q6Of(data).Obj?
  {
    hide ShapeClear, ShapeBlocked, ReadShape, Q6Of, Q6Writeback.Evidence, Field, ExecutorObserved, IcdObserved, Diagnostics,
         PropagationOf, CorrectnessOf, IsCompareArtifact, EvidenceWalk.MarkedSomewhere, SaysMatch, OracleSpoke, Truthy;
    ShapeGateExact(ReadShape(cfg, Q6Of(data)));
    Q6Writeback.PassMeansProven(Q6Writeback.ReadQ6(Q6Of(data)));
  }

  lemma PlainGates(cfg: Config, data: Json)
    ensures Open(cfg, data, MemoryGate) <==> !MemoryError(cfg, data)
    ensures Open(cfg, data, ReadinessGate) <==> !ReadinessFalse(data)
    ensures Open(cfg, data, ServiceGate) <==> !CompletionTimeout(cfg, data)
    ensures Open(cfg, data, SetupGate) <==> SetupBlocker(cfg, data, Diagnostics(data)) == None
    ensures Open(cfg, data, ReachedGate) <==> Truthy(Q6Of(data))
    ensures Open(cfg, data, MatchGate) <==> SaysMatch(Q6Of(data))
  {
    hide MemoryError, ReadinessFalse, CompletionTimeout, SetupBlocker, Diagnostics, Truthy, Q6Of, SaysMatch, IsCompareArtifact;
  }

  lemma MismatchIsClosed(cfg: Config, q6: Json)
    ensures ClosedGate(MismatchClass(cfg, q6)) == Some(MatchGate)
  {
    hide ProbeSummary, FixedOffsetRejected, ShaderLikeCleared, Field;
  }

  // ---------- where the script raises ----------

  lemma SameOrder(g: Gate, h: Gate)
    requires Order(g) == Order(h)
    ensures g == h
  {
  }

  lemma RaisesHere(cfg: Config, data: Json, g: Gate)
    requires Malformed(cfg, data, g)
    ensures RaisesFrom(cfg, data, Order(g))
  {
    hide Malformed, Open, Order;
    assert OpenBetween(cfg, data, Order(g), Order(g));
  }

  lemma RaisesLater(cfg: Config, data: Json, g: Gate)
    requires RaisesFrom(cfg, data, Order(g)) && !Malformed(cfg, data, g)
    ensures Open(cfg, data, g) && RaisesFrom(cfg, data, Order(g) + 1)
  {
    hide Malformed, Open, Order;
    var k := Order(g);
    var h :| k <= Order(h) && Malformed(cfg, data, h) && OpenBetween(cfg, data, k, Order(h));
    if Order(h) == k {
      SameOrder(g, h);
    }
    assert OpenBetween(cfg, data, k + 1, Order(h));
  }

  lemma RaisesEarlier(cfg: Config, data: Json, g: Gate)
    requires Open(cfg, data, g) && RaisesFrom(cfg, data, Order(g) + 1)
    ensures RaisesFrom(cfg, data, Order(g))
  {
    hide Malformed, Open, Order, OpenBetween;
    var k := Order(g);
    var h :| k + 1 <= Order(h) && Malformed(cfg, data, h) && OpenBetween(cfg, data, k + 1, Order(h));
    OpenOneEarlier(cfg, data, g, Order(h));
  }

  /** Raising from a gate on: at it, or after it when it is open. */
  lemma RaisesStep(cfg: Config, data: Json, g: Gate)
    ensures RaisesFrom(cfg, data, Order(g)) <==>
            Malformed(cfg, data, g) || (Open(cfg, data, g) && RaisesFrom(cfg, data, Order(g) + 1))
  {
    hide *;
    if Malformed(cfg, data, g) {
      RaisesHere(cfg, data, g);
    } else if RaisesFrom(cfg, data, Order(g)) {
      RaisesLater(cfg, data, g);
    } else if Open(cfg, data, g) && RaisesFrom(cfg, data, Order(g) + 1) {
      RaisesEarlier(cfg, data, g);
    }
  }

  lemma OpenOneEarlier(cfg: Config, data: Json, g: Gate, n: nat)
    requires Open(cfg, data, g) && OpenBetween(cfg, data, Order(g) + 1, n)
    ensures OpenBetween(cfg, data, Order(g), n)
  {
    hide Open, Order;
    forall h | Order(g) <= Order(h) < n
      ensures Open(cfg, data, h)
    {
      if Order(h) == Order(g) {
        SameOrder(g, h);
      }
    }
  }

  /** Nothing raises at a gate that has no malformed values of its own. */
  lemma NeverMalformed(cfg: Config, data: Json, g: Gate)
    requires !g.ServiceGate? && !g.ConfigGate? && !g.PromptGate? && !g.ReachedGate?
    ensures !Malformed(cfg, data, g)
  {
  }

  lemma NothingRaisesLate(cfg: Config, data: Json)
    ensures !RaisesFrom(cfg, data, 12)
  {
    hide OpenBetween;
    forall g | 12 <= Order(g)
      ensures !Malformed(cfg, data, g)
    {
      NeverMalformed(cfg, data, g);
    }
    hide Malformed, Order;
  }

  lemma GateOrders()
    ensures Order(MemoryGate) == 0 && Order(ReadinessGate) == 1 && Order(ServiceGate) == 2 && Order(ExecutorGate) == 3
    ensures Order(IcdGate) == 4 && Order(SetupGate) == 5 && Order(ConfigGate) == 6 && Order(OracleGate) == 7
    ensures Order(UnsupportedGate) == 8 && Order(PromptGate) == 9 && Order(SpeedupGate) == 10 && Order(ReachedGate) == 11
  {
  }

  /** Raising over two gates, when the second has no malformed values. */
  lemma RaisesOver(cfg: Config, data: Json, k: nat, g: Gate, h: Gate)
    requires Order(g) == k && Order(h) == k + 1 && !Malformed(cfg, data, h)
    ensures RaisesFrom(cfg, data, k) <==>
            Malformed(cfg, data, g) || (Open(cfg, data, g) && Open(cfg, data, h) && RaisesFrom(cfg, data, k + 2))
  {
    hide *;
    RaisesStep(cfg, data, g);
    RaisesStep(cfg, data, h);
  }

  lemma ReachedRaises(cfg: Config, data: Json)
    ensures RaisesFrom(cfg, data, 11) <==> Malformed(cfg, data, ReachedGate)
  {
    hide *;
    GateOrders();
    RaisesStep(cfg, data, ReachedGate);
    NothingRaisesLate(cfg, data);
  }

  lemma ReachedMalformed(cfg: Config, data: Json)
    ensures Malformed(cfg, data, ReachedGate) <==>
            Q6Writeback.Evidence(Q6Writeback.ReadQ6(Q6Of(data))).None? || !Comparison(data).Obj?
  {
    Q6Writeback.EvidenceRaisesExact(Q6Writeback.ReadQ6(Q6Of(data)));
    hide Q6Of, Q6Writeback.Evidence, Q6Writeback.ReadQ6, Q6Writeback.Scalar, Comparison, StatusRaises, CorrectnessOf,
         IsCompareArtifact, ConfigRaises, PropagationOf;
  }

  lemma Q6StageRaises(cfg: Config, data: Json)
    ensures Q6Stage(cfg, data).Raised? <==> RaisesFrom(cfg, data, 11)
  {
    ReachedRaises(cfg, data);
    ReachedMalformed(cfg, data);
    hide Malformed, RaisesFrom, Q6Of, Q6Class, Q6Writeback.Evidence, Q6Writeback.ReadQ6, Comparison,
         CorrectnessSummary, CpuAvailable, Truthy, Field;
  }

  lemma PromptRaises(cfg: Config, data: Json)
    ensures RaisesFrom(cfg, data, 9) <==>
            || Malformed(cfg, data, PromptGate)
            || (Open(cfg, data, PromptGate) && Open(cfg, data, SpeedupGate) && RaisesFrom(cfg, data, 11))
  {
    hide *;
    NeverMalformed(cfg, data, SpeedupGate);
    GateOrders();
    SpeedupOrder();
    RaisesOver(cfg, data, 9, PromptGate, SpeedupGate);
  }

  lemma SpeedupOrder()
    ensures Order(SpeedupGate) == 10
  {
  }

  lemma PromptMalformed(cfg: Config, data: Json)
    ensures Malformed(cfg, data, PromptGate) <==>
            StatusRaises(Q6Of(data)) || ProbesFail(cfg, IsCompareArtifact(data), CorrectnessOf(data)) == None
  {
    ProbeRaisesExact(cfg, IsCompareArtifact(data), CorrectnessOf(data));
    hide Q6Of, ProbesFail, StatusRaises, CorrectnessOf, IsCompareArtifact, Hashable, ScalarFindings, Comparison, ConfigRaises;
  }

  lemma PromptStageRaises(cfg: Config, data: Json)
    ensures PromptStage(cfg, data).Raised? <==> RaisesFrom(cfg, data, 9)
  {
    Q6StageRaises(cfg, data);
    PromptGates(cfg, data);
    PromptRaises(cfg, data);
    PromptMalformed(cfg, data);
    hide Open, RaisesFrom, Malformed, Q6Of, Q6Stage, ProbesFail, SpeedupOk, OracleSpoke, StatusRaises, CorrectnessOf,
         IsCompareArtifact;
  }

  lemma EvidenceRaises(cfg: Config, data: Json)
    ensures RaisesFrom(cfg, data, 6) <==>
            || Malformed(cfg, data, ConfigGate)
            || (Open(cfg, data, ConfigGate) && Open(cfg, data, OracleGate) && Open(cfg, data, UnsupportedGate)
                && RaisesFrom(cfg, data, 9))
  {
    hide *;
    NeverMalformed(cfg, data, OracleGate);
    NeverMalformed(cfg, data, UnsupportedGate);
    GateOrders();
    RaisesOver(cfg, data, 6, ConfigGate, OracleGate);
    RaisesStep(cfg, data, UnsupportedGate);
  }

  lemma ConfigMalformed(cfg: Config, data: Json)
    ensures Malformed(cfg, data, ConfigGate) <==> ConfigBlocked(cfg, IsCompareArtifact(data), PropagationOf(data)) == None
  {
    ConfigRaisesExact(cfg, IsCompareArtifact(data), PropagationOf(data));
    hide ConfigBlocked, ConfigRaises, PropagationOf, IsCompareArtifact, StatusRaises, ScalarFindings, Comparison, CorrectnessOf, Q6Of;
  }

  lemma EvidenceStageRaises(cfg: Config, data: Json)
    ensures EvidenceStage(cfg, data).Raised? <==> RaisesFrom(cfg, data, 6)
  {
    PromptStageRaises(cfg, data);
    EvidenceGates(cfg, data);
    EvidenceRaises(cfg, data);
    ConfigMalformed(cfg, data);
    hide Open, RaisesFrom, Malformed, PromptStage, ConfigBlocked, PropagationOf, IsCompareArtifact,
         EvidenceWalk.Report, EvidenceWalk.OracleFailClosed, EvidenceWalk.UnsupportedWork;
  }

  lemma RuntimeRaises(cfg: Config, data: Json)
    ensures RaisesFrom(cfg, data, 3) <==>
            Open(cfg, data, ExecutorGate) && Open(cfg, data, IcdGate) && Open(cfg, data, SetupGate) && RaisesFrom(cfg, data, 6)
  {
    hide *;
    NeverMalformed(cfg, data, ExecutorGate);
    NeverMalformed(cfg, data, IcdGate);
    NeverMalformed(cfg, data, SetupGate);
    GateOrders();
    RaisesOver(cfg, data, 3, ExecutorGate, IcdGate);
    RaisesStep(cfg, data, SetupGate);
  }

  /** The stage on the runtime raises exactly when its own gates are open and the evidence raises. */
  lemma RuntimeStageRaises(cfg: Config, data: Json)
    ensures RuntimeStage(cfg, data).Raised? <==> Open(cfg, data, ServiceGate) && RaisesFrom(cfg, data, 3)
  {
    EvidenceStageRaises(cfg, data);
    RuntimeGates(cfg, data);
    PlainGates(cfg, data);
    RuntimeRaises(cfg, data);
    hide Open, RaisesFrom, EvidenceStage, CompletionTimeout, ExecutorFresh, IcdFresh, SetupBlocker, Diagnostics,
         FeatureEvidenceMissing, Freshness, MemoryError, ReadinessFalse, Truthy, Q6Of, SaysMatch;
  }

  lemma EntryRaises(cfg: Config, data: Json)
    ensures RaisesFrom(cfg, data, 0) <==>
            && Open(cfg, data, MemoryGate) && Open(cfg, data, ReadinessGate)
            && (Malformed(cfg, data, ServiceGate) || (Open(cfg, data, ServiceGate) && RaisesFrom(cfg, data, 3)))
  {
    hide *;
    NeverMalformed(cfg, data, MemoryGate);
    NeverMalformed(cfg, data, ReadinessGate);
    GateOrders();
    RaisesOver(cfg, data, 0, MemoryGate, ReadinessGate);
    RaisesStep(cfg, data, ServiceGate);
  }

  lemma ServiceMalformed(cfg: Config, data: Json)
    ensures Malformed(cfg, data, ServiceGate) <==> !Diagnostics(data).Obj? || !CorrectnessSummary(data).Obj?
  {
    hide Diagnostics, CorrectnessSummary;
  }

  /**
   * The script raises exactly on an artifact with a malformed value at some gate all of whose earlier
   * gates are open.
   */
  lemma RaiseExact(cfg: Config, data: Json)
    requires data.Obj?
    ensures Classify(cfg, data).Raised? <==> RaisesFrom(cfg, data, 0)
  {
    RuntimeStageRaises(cfg, data);
    PlainGates(cfg, data);
    EntryRaises(cfg, data);
    ServiceMalformed(cfg, data);
    hide Open, RaisesFrom, Malformed, RuntimeStage, MemoryError, ReadinessFalse, CorrectnessSummary, Diagnostics,
         CompletionTimeout, SetupBlocker, Truthy, Q6Of, SaysMatch;
  }

  lemma LastGate()
    ensures forall g :: g != MatchGate <==> Order(g) < Order(MatchGate)
  {
  }

  /** When every gate but the last is open, not raising means being well shaped. */
  lemma ShapedWhenOpen(cfg: Config, data: Json)
    requires !RaisesFrom(cfg, data, 0) && forall g :: g != MatchGate ==> Open(cfg, data, g)
    ensures WellShaped(cfg, data)
  {
    NeverMalformed(cfg, data, MatchGate);
    LastGate();
    hide Open, Malformed, Order;
    forall g | g != MatchGate
      ensures !Malformed(cfg, data, g)
    {
      assert OpenBetween(cfg, data, 0, Order(g));
    }
  }

  lemma ShapedNeverRaises(cfg: Config, data: Json)
    requires WellShaped(cfg, data)
    ensures !RaisesFrom(cfg, data, 0)
  {
    hide Open, Malformed;
  }

  // ---------- what a class says ----------

  /** From the k-th gate on, the named gate is the first one that is closed. */
  ghost predicate StopsFrom(cfg: Config, data: Json, k: nat, closed: Option<Gate>) {
    && (closed.Some? ==> k <= Order(closed.value) && !Open(cfg, data, closed.value))
    && forall g :: k <= Order(g) && (closed.Some? ==> Order(g) < Order(closed.value)) ==> Open(cfg, data, g)
  }

  lemma StopsHere(cfg: Config, data: Json, g: Gate)
    requires !Open(cfg, data, g)
    ensures StopsFrom(cfg, data, Order(g), Some(g))
  {
    hide Open;
  }

  lemma OneMore(cfg: Config, data: Json, g: Gate, closed: Option<Gate>)
    requires Open(cfg, data, g) && StopsFrom(cfg, data, Order(g) + 1, closed)
    ensures StopsFrom(cfg, data, Order(g), closed)
  {
    hide Open;
  }

  lemma AllOpen(cfg: Config, data: Json)
    requires Open(cfg, data, MatchGate)
    ensures StopsFrom(cfg, data, 14, None)
  {
    hide Open;
  }

  lemma MatchStops(cfg: Config, data: Json, c: Class)
    requires if c.OracleMatch? then Open(cfg, data, MatchGate) else ClosedGate(c) == Some(MatchGate) && !Open(cfg, data, MatchGate)
    ensures StopsFrom(cfg, data, 14, ClosedGate(c))
  {
    if c.OracleMatch? {
      AllOpen(cfg, data);
    } else {
      StopsHere(cfg, data, MatchGate);
    }
  }

  lemma Q6ClassStops(cfg: Config, data: Json, verdict: Q6Writeback.Verdict)
    requires Q6Writeback.Evidence(Q6Writeback.ReadQ6(Q6Of(data))) == Some(verdict)
    ensures StopsFrom(cfg, data, 11, ClosedGate(Q6Class(cfg, Q6Of(data), verdict.summary)))
  {
    var q6 := Q6Of(data);
    var c := Q6Class(cfg, q6, verdict.summary);
    Q6Gates(cfg, data);
    PlainGates(cfg, data);
    Q6ClassCases(cfg, q6, verdict.summary);
    LastOrders();
    hide *;
    if ClosedGate(c) == Some(ReachedGate) {
      StopsHere(cfg, data, ReachedGate);
    } else if ClosedGate(c) == Some(ShapeGate) {
      StopsHere(cfg, data, ShapeGate);
      OneMore(cfg, data, ReachedGate, ClosedGate(c));
    } else if ClosedGate(c) == Some(WritebackGate) {
      StopsHere(cfg, data, WritebackGate);
      OneMore(cfg, data, ShapeGate, ClosedGate(c));
      OneMore(cfg, data, ReachedGate, ClosedGate(c));
    } else {
      MatchStops(cfg, data, c);
      OneMore(cfg, data, WritebackGate, ClosedGate(c));
      OneMore(cfg, data, ShapeGate, ClosedGate(c));
      OneMore(cfg, data, ReachedGate, ClosedGate(c));
    }
  }

  lemma LastOrders()
    ensures Order(ReachedGate) == 11 && Order(ShapeGate) == 12 && Order(WritebackGate) == 13 && Order(MatchGate) == 14
  {
  }

  /** Which gate the last stage finds closed. */
  lemma Q6ClassCases(cfg: Config, q6: Json, summary: Q6Writeback.Summary)
    ensures var closed := ClosedGate(Q6Class(cfg, q6, summary));
            && (closed == Some(ReachedGate) <==> !Truthy(q6))
            && (closed == Some(ShapeGate) <==> Truthy(q6) && q6.Obj? && ShapeBlocked(ReadShape(cfg, q6)))
            && (closed == Some(WritebackGate) <==>
                  Truthy(q6) && !(q6.Obj? && ShapeBlocked(ReadShape(cfg, q6))) && !summary.Pass?)
            && (closed == Some(MatchGate) ==> !SaysMatch(q6))
            && (closed == None ==> SaysMatch(q6))
            && (closed == None <==> Q6Class(cfg, q6, summary).OracleMatch?)
            && (closed.None? || closed.value in {ReachedGate, ShapeGate, WritebackGate, MatchGate})
  {
    MismatchIsClosed(cfg, q6);
    hide ShapeBlocked, ReadShape, Truthy, SaysMatch, SaysMismatch, MismatchClass;
  }

  lemma Q6StageStops(cfg: Config, data: Json)
    ensures var r := Q6Stage(cfg, data);
            r.Classified? ==> StopsFrom(cfg, data, 11, ClosedGate(r.report.class_))
  {
    var verdict := Q6Writeback.Evidence(Q6Writeback.ReadQ6(Q6Of(data)));
    if verdict.Some? {
      Q6ClassStops(cfg, data, verdict.value);
    }
    hide StopsFrom, Q6Of, Q6Class, Q6Writeback.Evidence, Comparison, CorrectnessSummary, Diagnostics, CpuAvailable, ConfigBlocked,
         ProbesFail, StatusRaises, Truthy, ClosedGate;
  }

  lemma PromptStageStops(cfg: Config, data: Json)
    ensures var r := PromptStage(cfg, data);
            r.Classified? ==> StopsFrom(cfg, data, 9, ClosedGate(r.report.class_))
  {
    Q6StageStops(cfg, data);
    PromptGates(cfg, data);
    hide Open, StopsFrom, Q6Of, Q6Stage, Q6Writeback.Evidence, ProbesFail, SpeedupOk, OracleSpoke, StatusRaises, ConfigBlocked,
         Comparison, CorrectnessSummary, Diagnostics, CorrectnessOf, PropagationOf, IsCompareArtifact;
    var r := PromptStage(cfg, data);
    if r.Classified? {
      var closed := ClosedGate(r.report.class_);
      if !Open(cfg, data, PromptGate) {
        StopsHere(cfg, data, PromptGate);
      } else if !Open(cfg, data, SpeedupGate) {
        StopsHere(cfg, data, SpeedupGate);
        OneMore(cfg, data, PromptGate, closed);
      } else {
        OneMore(cfg, data, SpeedupGate, closed);
        OneMore(cfg, data, PromptGate, closed);
      }
    }
  }

  lemma EvidenceStageStops(cfg: Config, data: Json)
    ensures var r := EvidenceStage(cfg, data);
            r.Classified? ==> StopsFrom(cfg, data, 6, ClosedGate(r.report.class_))
  {
    PromptStageStops(cfg, data);
    EvidenceGates(cfg, data);
    hide Open, StopsFrom, Q6Of, PromptStage, Q6Writeback.Evidence, ProbesFail, StatusRaises, ConfigBlocked, Comparison,
         CorrectnessSummary, Diagnostics, CorrectnessOf, PropagationOf, IsCompareArtifact, EvidenceWalk.Report,
         EvidenceWalk.OracleFailClosed, EvidenceWalk.UnsupportedWork;
    var r := EvidenceStage(cfg, data);
    if r.Classified? {
      var closed := ClosedGate(r.report.class_);
      if !Open(cfg, data, ConfigGate) {
        StopsHere(cfg, data, ConfigGate);
      } else if !Open(cfg, data, OracleGate) {
        StopsHere(cfg, data, OracleGate);
        OneMore(cfg, data, ConfigGate, closed);
      } else {
        if !Open(cfg, data, UnsupportedGate) {
          StopsHere(cfg, data, UnsupportedGate);
        } else {
          OneMore(cfg, data, UnsupportedGate, closed);
        }
        OneMore(cfg, data, OracleGate, closed);
        OneMore(cfg, data, ConfigGate, closed);
      }
    }
  }

  lemma RuntimeStageStops(cfg: Config, data: Json)
    ensures var r := RuntimeStage(cfg, data);
            r.Classified? ==> StopsFrom(cfg, data, 2, ClosedGate(r.report.class_))
  {
    EvidenceStageStops(cfg, data);
    RuntimeGates(cfg, data);
    PlainGates(cfg, data);
    hide Open, StopsFrom, EvidenceStage, WellShaped, CompletionTimeout, ExecutorFresh, IcdFresh, SetupBlocker, Diagnostics,
         FeatureEvidenceMissing, Freshness, MemoryError, ReadinessFalse, Truthy, Q6Of, SaysMatch;
    var r := RuntimeStage(cfg, data);
    if r.Classified? {
      var closed := ClosedGate(r.report.class_);
      if !Open(cfg, data, ServiceGate) {
        StopsHere(cfg, data, ServiceGate);
      } else if !Open(cfg, data, ExecutorGate) {
        StopsHere(cfg, data, ExecutorGate);
        OneMore(cfg, data, ServiceGate, closed);
      } else {
        if !Open(cfg, data, IcdGate) {
          StopsHere(cfg, data, IcdGate);
        } else {
          if !Open(cfg, data, SetupGate) {
            StopsHere(cfg, data, SetupGate);
          } else {
            OneMore(cfg, data, SetupGate, closed);
          }
          OneMore(cfg, data, IcdGate, closed);
        }
        OneMore(cfg, data, ExecutorGate, closed);
        OneMore(cfg, data, ServiceGate, closed);
      }
    }
  }

  lemma ClassifyStops(cfg: Config, data: Json)
    requires data.Obj?
    ensures var r := Classify(cfg, data);
            r.Classified? ==> StopsFrom(cfg, data, 0, ClosedGate(r.report.class_))
  {
    RuntimeStageStops(cfg, data);
    PlainGates(cfg, data);
    hide Open, RuntimeStage, MemoryError, ReadinessFalse, CorrectnessSummary, Diagnostics, StopsFrom,
         CompletionTimeout, SetupBlocker, Truthy, Q6Of, SaysMatch;
    var r := Classify(cfg, data);
    if r.Classified? {
      var closed := ClosedGate(r.report.class_);
      if !Open(cfg, data, MemoryGate) {
        StopsHere(cfg, data, MemoryGate);
      } else {
        if !Open(cfg, data, ReadinessGate) {
          StopsHere(cfg, data, ReadinessGate);
        } else {
          OneMore(cfg, data, ReadinessGate, closed);
        }
        OneMore(cfg, data, MemoryGate, closed);
      }
    }
  }

  /**
   * The class names the first closed gate: that gate's demand is not met and every earlier gate's is. The
   * script raises exactly when it comes to a malformed value before any gate is closed.
   */
  lemma ClassNamesFirstClosedGate(cfg: Config, data: Json)
    requires data.Obj?
    ensures var r := Classify(cfg, data);
            r.Classified? ==> StopsAt(cfg, data, ClosedGate(r.report.class_))
    ensures Classify(cfg, data).Raised? <==> RaisesFrom(cfg, data, 0)
  {
    hide *;
    RaiseExact(cfg, data);
    ClassifyStops(cfg, data);
    if Classify(cfg, data).Classified? {
      FromTheStart(cfg, data, ClosedGate(Classify(cfg, data).report.class_));
    }
  }

  lemma FromTheStart(cfg: Config, data: Json, closed: Option<Gate>)
    requires StopsFrom(cfg, data, 0, closed)
    ensures StopsAt(cfg, data, closed)
  {
    hide Open;
  }

  /** An oracle match is reported exactly for a well-shaped artifact that opens every gate. */
  lemma MatchExact(cfg: Config, data: Json)
    requires data.Obj?
    ensures Matched(cfg, data) <==> WellShaped(cfg, data) && forall g :: Open(cfg, data, g)
  {
    ClassNamesFirstClosedGate(cfg, data);
    if Matched(cfg, data) {
      MatchIsShaped(cfg, data);
    }
    if WellShaped(cfg, data) {
      ShapedNeverRaises(cfg, data);
    }
    hide Open, Classify, WellShaped, Order, RaisesFrom;
    if Classify(cfg, data).Classified? {
      NoneClosed(Classify(cfg, data).report.class_);
    }
  }

  lemma NoneClosed(c: Class)
    ensures ClosedGate(c) == None <==> c.OracleMatch?
  {
  }

  predicate Matched(cfg: Config, data: Json)
    requires data.Obj?
  {
    Classify(cfg, data).Classified? && Classify(cfg, data).report.class_.OracleMatch?
  }

  lemma MatchIsShaped(cfg: Config, data: Json)
    requires data.Obj? && Matched(cfg, data)
    ensures WellShaped(cfg, data)
  {
    ClassNamesFirstClosedGate(cfg, data);
    NoneClosed(Classify(cfg, data).report.class_);
    hide Classify, Open, WellShaped, RaisesFrom;
    ShapedWhenOpen(cfg, data);
  }

  /** Only the last stage reports a match. */
  lemma MatchIsLast(cfg: Config, data: Json)
    requires data.Obj? && Matched(cfg, data)
    ensures Classify(cfg, data) == Q6Stage(cfg, data)
  {
    hide Q6Of, Q6Writeback.Evidence, ProbesFail, StatusRaises, ConfigBlocked, Comparison, CorrectnessSummary, Diagnostics,
         CorrectnessOf, PropagationOf, IsCompareArtifact, EvidenceWalk.Report, EvidenceWalk.OracleFailClosed,
         EvidenceWalk.UnsupportedWork, MemoryError, ReadinessFalse, CompletionTimeout, ExecutorFresh, IcdFresh, SetupBlocker,
         FeatureEvidenceMissing, Freshness, SpeedupOk, OracleSpoke, MismatchClass, ShapeBlocked, CpuAvailable, Q6Class;
  }
}

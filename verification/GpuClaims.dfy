/** What the claims and the exit codes of the artifact verifier stand for. */
module GpuClaims {
  import opened Options
  import opened Json
  import opened GpuGates
  import opened Classifier
  import EvidenceWalk
  import Q6Writeback

  // ---------- claims ----------

  predicate CorrectnessPassed(data: Json) {
    Field(CorrectnessSummary(data), "correctness") == Str("pass")
  }

  predicate ClaimsCorrectness(cfg: Config, data: Json)
    requires data.Obj?
  {
    Classify(cfg, data).Classified? && Classify(cfg, data).report.correctnessClaim
  }

  predicate ClaimsBenchmark(cfg: Config, data: Json)
    requires data.Obj?
  {
    Classify(cfg, data).Classified? && Classify(cfg, data).report.benchmarkClaim
  }

  /** A report that is not a match makes no claim. */
  lemma OnlyMatchesClaim(cfg: Config, data: Json)
    requires data.Obj?
    ensures var r := Classify(cfg, data);
            r.Classified? && !r.report.class_.OracleMatch? ==> !r.report.correctnessClaim && !r.report.benchmarkClaim
  {
    hide MemoryError, ReadinessFalse, Diagnostics, CorrectnessSummary, CompletionTimeout, ExecutorFresh, IcdFresh, SetupBlocker,
         FeatureEvidenceMissing, Freshness, ConfigBlocked, IsCompareArtifact, PropagationOf, EvidenceWalk.Report,
         EvidenceWalk.OracleFailClosed, EvidenceWalk.UnsupportedWork, StatusRaises, OracleSpoke, Q6Of, ProbesFail, CorrectnessOf,
         SpeedupOk, Q6Writeback.Evidence, Q6Class, Comparison, CpuAvailable, Truthy;
  }

  /** A correctness claim is made exactly when every gate is open and the correctness summary passed. */
  lemma CorrectnessClaimExact(cfg: Config, data: Json)
    requires data.Obj?
    ensures ClaimsCorrectness(cfg, data) <==>
            WellShaped(cfg, data) && (forall g :: Open(cfg, data, g)) && CorrectnessPassed(data)
  {
    MatchExact(cfg, data);
    OnlyMatchesClaim(cfg, data);
    if Matched(cfg, data) {
      MatchIsLast(cfg, data);
      MatchClaims(cfg, data);
    }
    hide Classify, Open, WellShaped, CorrectnessPassed, Q6Stage;
  }

  lemma MatchClaims(cfg: Config, data: Json)
    requires Q6Stage(cfg, data).Classified? && Q6Stage(cfg, data).report.class_.OracleMatch?
    ensures var r := Q6Stage(cfg, data).report;
            && (r.correctnessClaim <==> CorrectnessPassed(data))
            && (r.benchmarkClaim <==>
                  CorrectnessPassed(data) && CpuAvailable(cfg, data) && Truthy(Field(Comparison(data), "speedup")))
  {
    hide Q6Writeback.Evidence, Q6Of, Q6Class, CorrectnessSummary, Comparison, CpuAvailable, Truthy, Field;
  }

  /** A benchmark claim is a correctness claim with a CPU baseline and a recorded speedup. */
  lemma BenchmarkClaimExact(cfg: Config, data: Json)
    requires data.Obj?
    ensures ClaimsBenchmark(cfg, data) <==>
            ClaimsCorrectness(cfg, data) && CpuAvailable(cfg, data) && Truthy(Field(Comparison(data), "speedup"))
  {
    OnlyMatchesClaim(cfg, data);
    if Matched(cfg, data) {
      MatchIsLast(cfg, data);
      MatchClaims(cfg, data);
    }
    hide Classify, Q6Stage, CorrectnessPassed, CpuAvailable, Comparison, Truthy, Field;
  }

  /**
   * What stands behind any correctness claim: a proven writeback with every binding counted, the
   * expected workgroup, a matching oracle, and not one fail-closed marker at any depth.
   */
  lemma ClaimIsBacked(cfg: Config, data: Json)
    requires data.Obj? && ClaimsCorrectness(cfg, data)
    ensures var q6 := Q6Writeback.ReadQ6(Q6Of(data));
            && Q6Writeback.WritebackProven(q6)
            && Q6Writeback.Evidence(q6).Some?
            && Q6Writeback.Evidence(q6).value.verifiedCount == |q6.bindings| > 0
    ensures ShapeClear(ReadShape(cfg, Q6Of(data))) && SaysMatch(Q6Of(data))
    ensures forall address, i :: !EvidenceWalk.MarkedAt(EvidenceWalk.OracleFailClosed(), data, address, i)
    ensures forall address, i ::
              !EvidenceWalk.MarkedAt(EvidenceWalk.UnsupportedWork(cfg.unsupportedTokens), data, address, i)
    ensures IsCompareArtifact(data) ==> ConfigProven(cfg, true, PropagationOf(data))
  {
    CorrectnessClaimExact(cfg, data);
    Q6Gates(cfg, data);
    Q6Writeback.PassMeansProven(Q6Writeback.ReadQ6(Q6Of(data)));
    BackedBy(cfg, data);
    Unmarked(EvidenceWalk.OracleFailClosed(), data);
    Unmarked(EvidenceWalk.UnsupportedWork(cfg.unsupportedTokens), data);
    ProvenHasBindings(Q6Writeback.ReadQ6(Q6Of(data)));
    hide *;
  }

  lemma Unmarked(probe: EvidenceWalk.Probe, data: Json)
    ensures !EvidenceWalk.MarkedSomewhere(probe, data) <==>
            forall address, i :: !EvidenceWalk.MarkedAt(probe, data, address, i)
  {
    hide EvidenceWalk.MarkedAt;
  }

  lemma ProvenHasBindings(q6: Q6Writeback.Q6)
    ensures Q6Writeback.WritebackProven(q6) ==> q6.Q6? && |q6.bindings| > 0
  {
    hide Q6Writeback.RowProven, Q6Writeback.BindingProven, Q6Writeback.IntegerList;
  }

  lemma BackedBy(cfg: Config, data: Json)
    requires forall g :: Open(cfg, data, g)
    ensures Q6Of(data).Obj? ==> ShapeClear(ReadShape(cfg, Q6Of(data)))
    ensures SaysMatch(Q6Of(data))
    ensures Q6Writeback.WritebackProven(Q6Writeback.ReadQ6(Q6Of(data)))
    ensures !EvidenceWalk.MarkedSomewhere(EvidenceWalk.OracleFailClosed(), data)
    ensures !EvidenceWalk.MarkedSomewhere(EvidenceWalk.UnsupportedWork(cfg.unsupportedTokens), data)
    ensures ConfigProven(cfg, IsCompareArtifact(data), PropagationOf(data))
  {
    hide ConfigProven, Q6Of, ShapeClear, ReadShape, EvidenceWalk.MarkedSomewhere, EvidenceWalk.OracleFailClosed,
         EvidenceWalk.UnsupportedWork, PropagationOf, IsCompareArtifact, Q6Writeback.WritebackProven, SaysMatch,
         Q6Writeback.ReadQ6;
    assert Open(cfg, data, WritebackGate) && Open(cfg, data, ShapeGate) && Open(cfg, data, MatchGate);
    assert Open(cfg, data, OracleGate) && Open(cfg, data, UnsupportedGate) && Open(cfg, data, ConfigGate);
  }

  // ---------- exit codes ----------

  datatype Flags = Flags(allowMemory: bool, requireClear: bool, requireMatch: bool)

  /** A proven writeback with an oracle verdict: the classes `--require-q6-workgroup-clear` accepts. */
  predicate IsClear(c: Class) {
    || c.OracleMatch? || c.OracleMismatch? || c.NativeOutputLayout? || c.NativeLayoutInconclusive? || c.NativeOtherRow?
    || c.NativeDeviceExecution? || c.NativeReduction?
  }

  /** The exit code `main` returns for a report. */
  function ExitCode(r: Report, flags: Flags): nat {
    var c := r.class_;
    if r.memoryBlocked then (if flags.allowMemory then 0 else 20)
    else if c.ReadinessBlocked? then 21
    else if c.ExecutorMarkerNotObserved? then 34
    else if c.IcdMarkerNotObserved? then 42
    else if c.FeatureEvidenceAbsent? then 43
    else if c.ConfigMismatch? then 35
    else if c.UnsupportedWorkAccepted? then 36
    else if c.OracleFailedClosed? then 37
    else if c.ApiPromptMissing? then 38
    else if c.SpeedupMissing? then 39
    else if c.WritebackMismatch? then 40
    else if c.WritebackUnverified? then 41
    else if flags.requireMatch then (if c.OracleMatch? then 0 else 30)
    else if flags.requireClear then (if IsClear(c) then 0 else 31)
    else if c.ShapeBlocker? then 32
    else if c.Q6NotReached? || c.Q6Inconclusive? then 33
    else 0
  }

  /** The exit code for an artifact; an unreadable one and an exception both end with 1. */
  function VerifierExit(cfg: Config, artifact: Option<Json>, flags: Flags): nat {
    if artifact.None? || !artifact.value.Obj? || Classify(cfg, artifact.value).Raised? then 1
    else ExitCode(Classify(cfg, artifact.value).report, flags)
  }

  lemma OnlyMemoryIsMemoryBlocked(cfg: Config, data: Json)
    requires data.Obj?
    ensures var r := Classify(cfg, data);
            r.Classified? ==> (r.report.memoryBlocked <==> r.report.class_.MemoryBlocked?)
  {
    MismatchIsClosed(cfg, Q6Of(data));
    hide MemoryError, ReadinessFalse, Diagnostics, CorrectnessSummary, CompletionTimeout, ExecutorFresh, IcdFresh, SetupBlocker,
         FeatureEvidenceMissing, Freshness, ConfigBlocked, IsCompareArtifact, PropagationOf, EvidenceWalk.Report,
         EvidenceWalk.OracleFailClosed, EvidenceWalk.UnsupportedWork, StatusRaises, OracleSpoke, Q6Of, ProbesFail, CorrectnessOf,
         SpeedupOk, Q6Writeback.Evidence, MismatchClass, ShapeBlocked, ReadShape, SaysMatch, SaysMismatch, Comparison, CpuAvailable, Truthy;
  }

  lemma ExitWhenMatchRequired(r: Report, flags: Flags)
    requires flags.requireMatch && !flags.allowMemory && (r.memoryBlocked <==> r.class_.MemoryBlocked?)
    ensures ExitCode(r, flags) == 0 <==> r.class_.OracleMatch?
  {
  }

  lemma ExitWhenClearRequired(r: Report, flags: Flags)
    requires flags.requireClear && !flags.requireMatch && !flags.allowMemory && (r.memoryBlocked <==> r.class_.MemoryBlocked?)
    ensures ExitCode(r, flags) == 0 <==> IsClear(r.class_)
  {
  }

  lemma ExitWithoutFlags(r: Report)
    requires r.memoryBlocked <==> r.class_.MemoryBlocked?
    ensures ExitCode(r, Flags(false, false, false)) == 0 <==>
            IsClear(r.class_) || r.class_.CompletionTimedOut? || r.class_.SetupBlocked?
  {
  }

  /** Exit 0 when a match is required, and no memory blocker is allowed, means every gate is open. */
  lemma RequireMatchExact(cfg: Config, artifact: Option<Json>, flags: Flags)
    requires flags.requireMatch && !flags.allowMemory
    ensures VerifierExit(cfg, artifact, flags) == 0 <==>
            && artifact.Some? && artifact.value.Obj?
            && WellShaped(cfg, artifact.value) && forall g :: Open(cfg, artifact.value, g)
  {
    if artifact.Some? && artifact.value.Obj? {
      OnlyMemoryIsMemoryBlocked(cfg, artifact.value);
      MatchExact(cfg, artifact.value);
      if Classify(cfg, artifact.value).Classified? {
        ExitWhenMatchRequired(Classify(cfg, artifact.value).report, flags);
      }
    }
    hide Classify, WellShaped, Open, ExitCode;
  }

  /**
   * Exit 0 when a clear workgroup is required means that every gate up to the writeback is open and
   * the oracle spoke one way or the other.
   */
  lemma RequireClearExact(cfg: Config, artifact: Option<Json>, flags: Flags)
    requires flags.requireClear && !flags.requireMatch && !flags.allowMemory
    ensures VerifierExit(cfg, artifact, flags) == 0 <==>
            artifact.Some? && artifact.value.Obj? && Cleared(cfg, artifact.value)
  {
    if artifact.Some? && artifact.value.Obj? {
      OnlyMemoryIsMemoryBlocked(cfg, artifact.value);
      ClearExact(cfg, artifact.value);
      if Classify(cfg, artifact.value).Classified? {
        ExitWhenClearRequired(Classify(cfg, artifact.value).report, flags);
      }
    }
    assert VerifierExit(cfg, artifact, flags) == 0 ==> artifact.Some? && artifact.value.Obj?;
    hide ExitCode, IsClear, Classify, Cleared;
  }

  /** Every gate but the last is open and the oracle gave a verdict. */
  ghost predicate Cleared(cfg: Config, data: Json) {
    && WellShaped(cfg, data)
    && (forall g :: g != MatchGate ==> Open(cfg, data, g))
    && (SaysMatch(Q6Of(data)) || SaysMismatch(Q6Of(data)))
  }

  lemma ClearExact(cfg: Config, data: Json)
    requires data.Obj?
    ensures Classify(cfg, data).Classified? && IsClear(Classify(cfg, data).report.class_) <==> Cleared(cfg, data)
  {
    ClassNamesFirstClosedGate(cfg, data);
    LastGate();
    if WellShaped(cfg, data) {
      ShapedNeverRaises(cfg, data);
    }
    if Classify(cfg, data).Classified? {
      var c := Classify(cfg, data).report.class_;
      ClearIsLast(c);
      if ClosedGate(c) == None || ClosedGate(c) == Some(MatchGate) {
        LastStageReached(cfg, data);
        LastStageStatus(cfg, data);
        hide Classify, WellShaped, Open, SaysMatch, SaysMismatch, Q6Stage, IsClear, ClosedGate, Order, RaisesFrom;
        ShapedWhenOpen(cfg, data);
      }
    }
    hide Classify, WellShaped, Open, SaysMatch, SaysMismatch, Q6Stage, IsClear, ClosedGate, Order, RaisesFrom;
  }

  lemma ClearIsLast(c: Class)
    ensures IsClear(c) <==> (ClosedGate(c) == None || ClosedGate(c) == Some(MatchGate)) && !c.Q6Inconclusive?
  {
  }

  /** Only the last stage reports on what the Q6_K diagnostics hold. */
  lemma LastStageReached(cfg: Config, data: Json)
    requires data.Obj? && Classify(cfg, data).Classified?
    requires var closed := ClosedGate(Classify(cfg, data).report.class_); closed.None? || Order(closed.value) >= 11
    ensures Classify(cfg, data) == Q6Stage(cfg, data)
  {
    hide Q6Of, Q6Writeback.Evidence, ProbesFail, StatusRaises, ConfigBlocked, Comparison, CorrectnessSummary, Diagnostics,
         CorrectnessOf, PropagationOf, IsCompareArtifact, EvidenceWalk.Report, EvidenceWalk.OracleFailClosed,
         EvidenceWalk.UnsupportedWork, MemoryError, ReadinessFalse, CompletionTimeout, ExecutorFresh, IcdFresh, SetupBlocker,
         FeatureEvidenceMissing, Freshness, SpeedupOk, OracleSpoke, MismatchClass, ShapeBlocked, CpuAvailable, Q6Class;
  }

  lemma LastStageStatus(cfg: Config, data: Json)
    requires Q6Stage(cfg, data).Classified?
    requires var closed := ClosedGate(Q6Stage(cfg, data).report.class_); closed == None || closed == Some(MatchGate)
    ensures Q6Stage(cfg, data).report.class_.Q6Inconclusive? <==>
            !SaysMatch(Q6Of(data)) && !SaysMismatch(Q6Of(data))
  {
    NotInconclusive(cfg, Q6Of(data));
    hide Q6Of, Q6Writeback.Evidence, Comparison, CorrectnessSummary, MismatchClass, ShapeBlocked, CpuAvailable, Truthy, SaysMatch, SaysMismatch, Field;
  }

  lemma NotInconclusive(cfg: Config, q6: Json)
    ensures !MismatchClass(cfg, q6).Q6Inconclusive?
  {
    hide ProbeSummary, FixedOffsetRejected, ShaderLikeCleared, Field;
  }

  // ---------- the two early classes that end with 0 as well ----------

  /** Every gate before this one is open, and nothing has raised on the way. */
  ghost predicate ReachedWhole(cfg: Config, data: Json, g: Gate) {
    && (forall h :: Order(h) < Order(g) ==> Open(cfg, data, h))
    && forall h :: Order(h) <= Order(g) ==> !Malformed(cfg, data, h)
  }

  /** Memory and readiness are fine, and the served model's completion timed out. */
  ghost predicate TimedOutFirst(cfg: Config, data: Json) {
    ReachedWhole(cfg, data, ServiceGate) && CompletionTimeout(cfg, data)
  }

  /**
   * An unserved compare artifact without counted events that names this setup blocker, with the
   * runtime markers in order and the feature evidence there where it is asked for.
   */
  ghost predicate SetupFirst(cfg: Config, data: Json, setup: Setup) {
    && ReachedWhole(cfg, data, SetupGate)
    && IsCompareArtifact(data) && Field(Field(data, "gpu"), "served") != True
    && !EventsCounted(Field(Diagnostics(data), "q6_workgroup_diagnostics"))
    && SetupOf(TextOrEmpty(cfg, Field(Diagnostics(data), "blocker_class"))) == Some(setup)
    && !FeatureEvidenceMissing(cfg, setup, Diagnostics(data), Freshness(data))
  }

  lemma BeforeService(cfg: Config, data: Json)
    ensures ReachedWhole(cfg, data, ServiceGate) <==>
            Open(cfg, data, MemoryGate) && Open(cfg, data, ReadinessGate) && !Malformed(cfg, data, ServiceGate)
  {
    EarlyGates();
    NeverMalformed(cfg, data, MemoryGate);
    NeverMalformed(cfg, data, ReadinessGate);
    hide Open, Malformed, Order;
  }

  lemma WholeBeforeSetup(cfg: Config, data: Json)
    requires ReachedWhole(cfg, data, SetupGate)
    ensures ReachedWhole(cfg, data, ServiceGate)
    ensures Open(cfg, data, ServiceGate) && Open(cfg, data, ExecutorGate) && Open(cfg, data, IcdGate)
  {
    EarlyGates();
    hide Open, Malformed, Order;
  }

  lemma SetupWhole(cfg: Config, data: Json)
    requires ReachedWhole(cfg, data, ServiceGate)
    requires Open(cfg, data, ServiceGate) && Open(cfg, data, ExecutorGate) && Open(cfg, data, IcdGate)
    ensures ReachedWhole(cfg, data, SetupGate)
  {
    EarlyGates();
    NeverMalformed(cfg, data, ExecutorGate);
    NeverMalformed(cfg, data, IcdGate);
    NeverMalformed(cfg, data, SetupGate);
    hide Open, Malformed, Order;
  }

  lemma BeforeSetup(cfg: Config, data: Json)
    ensures ReachedWhole(cfg, data, SetupGate) <==>
            && ReachedWhole(cfg, data, ServiceGate) && Open(cfg, data, ServiceGate)
            && Open(cfg, data, ExecutorGate) && Open(cfg, data, IcdGate)
  {
    hide *;
    if ReachedWhole(cfg, data, SetupGate) {
      WholeBeforeSetup(cfg, data);
    } else if && ReachedWhole(cfg, data, ServiceGate) && Open(cfg, data, ServiceGate)
              && Open(cfg, data, ExecutorGate) && Open(cfg, data, IcdGate) {
      SetupWhole(cfg, data);
    }
  }

  /** Reaching the service gate whole means getting past the first three guards of the script. */
  lemma ServiceReached(cfg: Config, data: Json)
    ensures ReachedWhole(cfg, data, ServiceGate) <==>
            && !MemoryError(cfg, data) && !ReadinessFalse(data)
            && Diagnostics(data).Obj? && CorrectnessSummary(data).Obj?
  {
    hide *;
    BeforeService(cfg, data);
    PlainGates(cfg, data);
    ServiceMalformed(cfg, data);
  }

  lemma EarlyGates()
    ensures forall h :: Order(h) < Order(ServiceGate) <==> h == MemoryGate || h == ReadinessGate
    ensures forall h :: Order(h) <= Order(ServiceGate) <==> h == MemoryGate || h == ReadinessGate || h == ServiceGate
    ensures forall h :: Order(h) < Order(SetupGate) <==>
              Order(h) <= Order(ServiceGate) || h == ExecutorGate || h == IcdGate
    ensures forall h :: Order(h) <= Order(SetupGate) <==> Order(h) < Order(SetupGate) || h == SetupGate
  {
  }

  lemma SetupReached(cfg: Config, data: Json)
    ensures ReachedWhole(cfg, data, SetupGate) <==>
            && ReachedWhole(cfg, data, ServiceGate) && !CompletionTimeout(cfg, data)
            && ExecutorFresh(cfg, data) && IcdFresh(cfg, data)
  {
    hide *;
    BeforeSetup(cfg, data);
    PlainGates(cfg, data);
    RuntimeGates(cfg, data);
  }

  /** The evidence stage reports neither of the two. */
  lemma EvidenceIsLater(cfg: Config, data: Json)
    ensures var r := EvidenceStage(cfg, data);
            r.Classified? ==> !r.report.class_.CompletionTimedOut? && !r.report.class_.SetupBlocked?
  {
    MismatchIsClosed(cfg, Q6Of(data));
    hide ConfigBlocked, EvidenceWalk.Report, EvidenceWalk.OracleFailClosed, EvidenceWalk.UnsupportedWork, StatusRaises, OracleSpoke,
         Q6Of, ProbesFail, CorrectnessOf, SpeedupOk, Q6Writeback.Evidence, MismatchClass, ShapeBlocked, ReadShape, SaysMatch,
         SaysMismatch, Comparison, CpuAvailable, Truthy, IsCompareArtifact, PropagationOf, CorrectnessSummary;
  }

  lemma TimeoutExact(cfg: Config, data: Json)
    requires data.Obj?
    ensures Classify(cfg, data).Classified? && Classify(cfg, data).report.class_.CompletionTimedOut? <==> TimedOutFirst(cfg, data)
  {
    ServiceReached(cfg, data);
    EvidenceIsLater(cfg, data);
    hide ReachedWhole, EvidenceStage, MemoryError, ReadinessFalse, Diagnostics, CorrectnessSummary, CompletionTimeout,
         ExecutorFresh, IcdFresh, SetupBlocker, FeatureEvidenceMissing, Freshness;
  }

  lemma SetupParts(cfg: Config, data: Json, setup: Setup)
    ensures SetupFirst(cfg, data, setup) <==>
            && ReachedWhole(cfg, data, SetupGate)
            && SetupBlocker(cfg, data, Diagnostics(data)) == Some(setup)
            && !FeatureEvidenceMissing(cfg, setup, Diagnostics(data), Freshness(data))
  {
    hide ReachedWhole, FeatureEvidenceMissing, Diagnostics, Freshness, Field, SetupOf, TextOrEmpty, EventsCounted, IsCompareArtifact;
  }

  /** A setup blocker is reported exactly for an artifact that reaches the setup guard and meets it. */
  lemma SetupExact(cfg: Config, data: Json, setup: Setup)
    requires data.Obj?
    ensures Classify(cfg, data).Classified? && Classify(cfg, data).report.class_ == SetupBlocked(setup)
            <==> SetupFirst(cfg, data, setup)
  {
    ServiceReached(cfg, data);
    SetupReached(cfg, data);
    SetupParts(cfg, data, setup);
    EvidenceIsLater(cfg, data);
    hide ReachedWhole, EvidenceStage, MemoryError, ReadinessFalse, Diagnostics, CorrectnessSummary, CompletionTimeout,
         ExecutorFresh, IcdFresh, SetupBlocker, FeatureEvidenceMissing, Freshness, SetupFirst;
  }

  lemma ExitOfObject(cfg: Config, data: Json)
    requires data.Obj?
    ensures VerifierExit(cfg, Some(data), Flags(false, false, false)) == 0 <==>
            && Classify(cfg, data).Classified?
            && var c := Classify(cfg, data).report.class_;
               IsClear(c) || c.CompletionTimedOut? || c.SetupBlocked?
  {
    OnlyMemoryIsMemoryBlocked(cfg, data);
    if Classify(cfg, data).Classified? {
      ExitWithoutFlags(Classify(cfg, data).report);
    }
    hide Classify, ExitCode, IsClear;
  }

  lemma SomeSetup(cfg: Config, data: Json)
    requires data.Obj?
    ensures Classify(cfg, data).Classified? && Classify(cfg, data).report.class_.SetupBlocked? <==>
            exists setup :: SetupFirst(cfg, data, setup)
  {
    hide Classify, SetupFirst;
    forall setup
      ensures Classify(cfg, data).Classified? && Classify(cfg, data).report.class_ == SetupBlocked(setup)
              <==> SetupFirst(cfg, data, setup)
    {
      SetupExact(cfg, data, setup);
    }
  }

  lemma UnreadableExit(cfg: Config, artifact: Option<Json>, flags: Flags)
    requires artifact.None? || !artifact.value.Obj?
    ensures VerifierExit(cfg, artifact, flags) == 1
  {
    hide Classify, ExitCode;
  }

  /**
   * Without any flag exit 0 is weaker than a claim. It is the answer to an artifact that clears every
   * gate up to the writeback with an oracle verdict of either kind, and just as well to one whose
   * completion timed out and to one with a setup blocker before any request was served.
   */
  lemma NoFlagsExitExact(cfg: Config, artifact: Option<Json>)
    ensures VerifierExit(cfg, artifact, Flags(false, false, false)) == 0 <==>
            && artifact.Some? && artifact.value.Obj?
            && (|| Cleared(cfg, artifact.value)
                || TimedOutFirst(cfg, artifact.value)
                || exists setup :: SetupFirst(cfg, artifact.value, setup))
  {
    hide *;
    if artifact.Some? && artifact.value.Obj? {
      ExitOfObject(cfg, artifact.value);
      ClearExact(cfg, artifact.value);
      TimeoutExact(cfg, artifact.value);
      SomeSetup(cfg, artifact.value);
    } else {
      UnreadableExit(cfg, artifact, Flags(false, false, false));
    }
  }

  /** From 20 and 21 and from 34 on, the exit code tells the class. */
  lemma ExitNamesClass(a: Report, b: Report, flags: Flags)
    requires a.memoryBlocked <==> a.class_.MemoryBlocked?
    requires b.memoryBlocked <==> b.class_.MemoryBlocked?
    requires ExitCode(a, flags) == ExitCode(b, flags)
    requires ExitCode(a, flags) == 20 || ExitCode(a, flags) == 21 || ExitCode(a, flags) >= 34
    ensures a.class_ == b.class_
  {
  }

  // ---------- evidence a claim does not need ----------

  function Remaining(fields: seq<Member>, key: string): (r: seq<Member>)
    ensures |r| <= |fields|
  {
    if fields == [] then []
    else (if fields[0].key == key then [] else [fields[0]]) + Remaining(fields[1..], key)
  }

  /** The artifact with one of its top-level fields dropped. */
  function Without(data: Json, key: string): (r: Json)
    requires data.Obj?
    ensures r.Obj?
  {
    Obj(Remaining(data.fields, key))
  }

  lemma {:induction false} RemainingLookup(fields: seq<Member>, key: string, other: string)
    ensures Lookup(Remaining(fields, key), other) == if other == key then None else Lookup(fields, other)
  {
    if fields != [] {
      RemainingLookup(fields[1..], key, other);
      var r := Remaining(fields, key);
      if fields[0].key != key {
        assert r[0] == fields[0] && r[1..] == Remaining(fields[1..], key);
      } else {
        assert r == Remaining(fields[1..], key);
      }
    }
  }

  lemma {:induction false} RemainingMarkers(probe: EvidenceWalk.Probe, fields: seq<Member>, key: string, path: string)
    requires EvidenceWalk.FieldMarkers(probe, fields, path) == []
    ensures EvidenceWalk.FieldMarkers(probe, Remaining(fields, key), path) == []
  {
    hide EvidenceWalk.OneField;
    if fields != [] {
      RemainingMarkers(probe, fields[1..], key, path);
      var r := Remaining(fields, key);
      if fields[0].key != key {
        assert r[0] == fields[0] && r[1..] == Remaining(fields[1..], key);
      } else {
        assert r == Remaining(fields[1..], key);
      }
    }
  }

  lemma UnmarkedWithout(probe: EvidenceWalk.Probe, data: Json, key: string)
    requires data.Obj? && !EvidenceWalk.MarkedSomewhere(probe, data)
    ensures !EvidenceWalk.MarkedSomewhere(probe, Without(data, key))
  {
    EvidenceWalk.EmptyReportMeansUnmarked(probe, data);
    EvidenceWalk.EmptyReportMeansUnmarked(probe, Without(data, key));
    hide EvidenceWalk.MarkedSomewhere;
    assert EvidenceWalk.AllMarkers(probe, data, "$") == EvidenceWalk.FieldMarkers(probe, data.fields, "$");
    RemainingMarkers(probe, data.fields, key, "$");
    var w := Without(data, key);
    assert EvidenceWalk.AllMarkers(probe, w, "$") == EvidenceWalk.FieldMarkers(probe, w.fields, "$");
  }

  const BRIDGE := "bridge_overhead_phase"

  /** Two artifacts give the same answers to every question but the bridge phase. */
  ghost predicate Agree(a: Json, b: Json) {
    && Field(a, "error") == Field(b, "error")
    && Field(a, "schema") == Field(b, "schema")
    && Field(a, "readiness") == Field(b, "readiness")
    && Field(a, "ready") == Field(b, "ready")
    && Field(a, "gpu") == Field(b, "gpu")
    && Field(a, "runtime_freshness") == Field(b, "runtime_freshness")
    && Field(a, "config_propagation") == Field(b, "config_propagation")
    && Field(a, "cpu") == Field(b, "cpu")
    && Field(a, "comparison") == Field(b, "comparison")
  }

  lemma FieldWithout(data: Json, key: string, other: string)
    requires data.Obj?
    ensures Field(Without(data, key), other) == if other == key then Null else Field(data, other)
  {
    RemainingLookup(data.fields, key, other);
  }

  lemma DropAgrees(data: Json)
    requires data.Obj?
    ensures Agree(data, Without(data, BRIDGE))
    ensures Field(Without(data, BRIDGE), BRIDGE) == Null
  {
    hide Field, Without;
    FieldWithout(data, BRIDGE, BRIDGE);
    assert |BRIDGE| == 21;
    FieldWithout(data, BRIDGE, "error");
    FieldWithout(data, BRIDGE, "schema");
    FieldWithout(data, BRIDGE, "readiness");
    FieldWithout(data, BRIDGE, "ready");
    FieldWithout(data, BRIDGE, "gpu");
    FieldWithout(data, BRIDGE, "runtime_freshness");
    FieldWithout(data, BRIDGE, "config_propagation");
    FieldWithout(data, BRIDGE, "cpu");
    FieldWithout(data, BRIDGE, "comparison");
  }

  lemma AgreedParts(a: Json, b: Json)
    requires Agree(a, b)
    ensures Diagnostics(a) == Diagnostics(b) && CorrectnessSummary(a) == CorrectnessSummary(b)
    ensures Q6Of(a) == Q6Of(b) && Comparison(a) == Comparison(b) && CorrectnessOf(a) == CorrectnessOf(b)
    ensures PropagationOf(a) == PropagationOf(b) && Freshness(a) == Freshness(b)
    ensures IsCompareArtifact(a) == IsCompareArtifact(b)
  {
    hide Field, ReadCorrectness, ReadPropagation, Or;
  }

  lemma AgreedErrors(cfg: Config, a: Json, b: Json)
    requires Agree(a, b)
    ensures MemoryError(cfg, a) == MemoryError(cfg, b) && ReadinessFalse(a) == ReadinessFalse(b)
  {
    hide Field, TextOrEmpty;
  }

  lemma AgreedCpu(cfg: Config, a: Json, b: Json)
    requires Agree(a, b)
    ensures CpuAvailable(cfg, a) == CpuAvailable(cfg, b)
  {
    hide Field, Positive, Truthy;
  }

  lemma AgreedService(cfg: Config, a: Json, b: Json)
    requires Agree(a, b)
    ensures CompletionTimeout(cfg, a) == CompletionTimeout(cfg, b)
  {
    AgreedParts(a, b);
    hide Field, Passed, TimedOut, IsCompareArtifact;
  }

  lemma AgreedSetup(cfg: Config, a: Json, b: Json)
    requires Agree(a, b)
    ensures SetupBlocker(cfg, a, Diagnostics(a)) == SetupBlocker(cfg, b, Diagnostics(b))
    ensures CorrectnessPassed(a) == CorrectnessPassed(b)
  {
    AgreedParts(a, b);
    hide Field, Diagnostics, CorrectnessSummary, TextOrEmpty, SetupOf, EventsCounted, IsCompareArtifact;
  }

  lemma AgreedRuntime(cfg: Config, a: Json, b: Json)
    requires Agree(a, b)
    ensures ExecutorObserved(cfg, a) == ExecutorObserved(cfg, b) && IcdObserved(cfg, a) == IcdObserved(cfg, b)
  {
    AgreedParts(a, b);
    hide Field, Freshness, Observed, TextOrEmpty, Agree, Diagnostics, CorrectnessSummary, Q6Of, Comparison, CorrectnessOf,
         PropagationOf, IsCompareArtifact;
  }

  lemma AgreedPlain(cfg: Config, a: Json, b: Json, g: Gate)
    requires Agree(a, b)
    requires g.MemoryGate? || g.ReadinessGate? || g.ServiceGate? || g.SetupGate? || g.ReachedGate? || g.MatchGate?
    ensures Open(cfg, a, g) <==> Open(cfg, b, g)
  {
    AgreedParts(a, b);
    AgreedErrors(cfg, a, b);
    AgreedService(cfg, a, b);
    AgreedSetup(cfg, a, b);
    PlainGates(cfg, a);
    PlainGates(cfg, b);
    hide *;
  }

  lemma AgreedMarkers(cfg: Config, a: Json, b: Json)
    requires Agree(a, b)
    ensures Open(cfg, a, ExecutorGate) <==> Open(cfg, b, ExecutorGate)
    ensures Open(cfg, a, IcdGate) <==> Open(cfg, b, IcdGate)
  {
    AgreedRuntime(cfg, a, b);
    hide Agree, ExecutorObserved, IcdObserved;
  }

  lemma RecordGates(cfg: Config, data: Json)
    ensures Open(cfg, data, ConfigGate) <==> ConfigProven(cfg, IsCompareArtifact(data), PropagationOf(data))
    ensures Open(cfg, data, PromptGate) <==>
            || OracleSpoke(Q6Of(data))
            || (IsCompareArtifact(data) ==> CorrectnessOf(data).Some? && Probed(cfg, CorrectnessOf(data).value))
  {
    hide ConfigProven, IsCompareArtifact, PropagationOf, OracleSpoke, Q6Of, CorrectnessOf, Probed, Diagnostics;
  }

  lemma AgreedRecords(cfg: Config, a: Json, b: Json)
    requires Agree(a, b)
    ensures Open(cfg, a, ConfigGate) <==> Open(cfg, b, ConfigGate)
    ensures Open(cfg, a, PromptGate) <==> Open(cfg, b, PromptGate)
  {
    hide *;
    AgreedParts(a, b);
    RecordGates(cfg, a);
    RecordGates(cfg, b);
  }

  lemma Q6GatesMean(cfg: Config, data: Json)
    ensures Open(cfg, data, ShapeGate) <==> (Q6Of(data).Obj? ==> ShapeClear(ReadShape(cfg, Q6Of(data))))
    ensures Open(cfg, data, WritebackGate) <==> Q6Writeback.WritebackProven(Q6Writeback.ReadQ6(Q6Of(data)))
  {
    hide Q6Of, ShapeClear, ReadShape, Q6Writeback.WritebackProven, Q6Writeback.ReadQ6;
  }

  lemma AgreedQ6(cfg: Config, a: Json, b: Json)
    requires Agree(a, b)
    ensures Open(cfg, a, ShapeGate) <==> Open(cfg, b, ShapeGate)
    ensures Open(cfg, a, WritebackGate) <==> Open(cfg, b, WritebackGate)
  {
    hide *;
    AgreedParts(a, b);
    Q6GatesMean(cfg, a);
    Q6GatesMean(cfg, b);
  }

  lemma AgreedEvidence(cfg: Config, a: Json, b: Json, g: Gate)
    requires Agree(a, b)
    requires g.ConfigGate? || g.PromptGate? || g.ShapeGate? || g.WritebackGate? || g.ExecutorGate? || g.IcdGate?
    ensures Open(cfg, a, g) <==> Open(cfg, b, g)
  {
    hide *;
    AgreedMarkers(cfg, a, b);
    AgreedRecords(cfg, a, b);
    AgreedQ6(cfg, a, b);
  }

  lemma AgreedOpen(cfg: Config, a: Json, b: Json, g: Gate)
    requires Agree(a, b) && !g.OracleGate? && !g.UnsupportedGate? && !g.SpeedupGate?
    ensures Open(cfg, a, g) <==> Open(cfg, b, g)
  {
    hide *;
    if g.ConfigGate? || g.PromptGate? || g.ShapeGate? || g.WritebackGate? || g.ExecutorGate? || g.IcdGate? {
      AgreedEvidence(cfg, a, b, g);
    } else {
      AgreedPlain(cfg, a, b, g);
    }
  }

  lemma AgreedMalformed(cfg: Config, a: Json, b: Json, g: Gate)
    requires Agree(a, b)
    ensures Malformed(cfg, a, g) <==> Malformed(cfg, b, g)
  {
    AgreedParts(a, b);
    hide Agree, Diagnostics, CorrectnessSummary, Q6Of, CorrectnessOf, PropagationOf, IsCompareArtifact, Comparison, ConfigRaises,
         StatusRaises, ScalarFindings;
  }

  lemma AgreedShape(cfg: Config, a: Json, b: Json)
    requires Agree(a, b)
    ensures WellShaped(cfg, a) <==> WellShaped(cfg, b)
  {
    hide Agree, Malformed;
    forall g
      ensures Malformed(cfg, a, g) <==> Malformed(cfg, b, g)
    {
      AgreedMalformed(cfg, a, b, g);
    }
  }

  lemma BridgeNotRecorded(data: Json)
    requires Field(data, BRIDGE) == Null
    ensures !SpeedupRecorded(data)
  {
    hide Field, IsNumber;
  }

  lemma SpeedupGateWithoutBridge(cfg: Config, data: Json)
    requires Field(data, BRIDGE) == Null && SaysMatch(Q6Of(data))
    ensures Open(cfg, data, SpeedupGate) <==> !IsCompareArtifact(data) || EventsCounted(Q6Of(data))
  {
    BridgeNotRecorded(data);
    hide SpeedupRecorded, Field, IsCompareArtifact, EventsCounted, SaysMatch, SaysMismatch, Q6Of;
  }

  /**
   * The required speedup evidence is not behind every claim. Take the bridge phase out of any
   * matching artifact, so that its speedup evidence is incomplete: it goes on matching, with the
   * same claims, exactly when it is not a compare artifact or its Q6_K events are counted.
   */
  lemma ClaimWithoutSpeedupEvidenceExact(cfg: Config, data: Json)
    requires data.Obj? && Matched(cfg, data)
    ensures var less := Without(data, BRIDGE);
            && !SpeedupRecorded(less)
            && (Matched(cfg, less) <==> !IsCompareArtifact(data) || EventsCounted(Q6Of(data)))
            && (Matched(cfg, less) ==>
                  && (ClaimsCorrectness(cfg, less) <==> ClaimsCorrectness(cfg, data))
                  && (ClaimsBenchmark(cfg, less) <==> ClaimsBenchmark(cfg, data)))
  {
    var less := Without(data, BRIDGE);
    MatchingWithoutBridge(cfg, data);
    DropAgrees(data);
    BridgeNotRecorded(less);
    AgreedParts(data, less);
    AgreedCpu(cfg, data, less);
    AgreedSetup(cfg, data, less);
    if Matched(cfg, less) {
      ClaimOfMatch(cfg, data);
      ClaimOfMatch(cfg, less);
    }
    hide *;
  }

  lemma ClaimOfMatch(cfg: Config, data: Json)
    requires data.Obj? && Matched(cfg, data)
    ensures ClaimsCorrectness(cfg, data) <==> CorrectnessPassed(data)
    ensures ClaimsBenchmark(cfg, data) <==>
            CorrectnessPassed(data) && CpuAvailable(cfg, data) && Truthy(Field(Comparison(data), "speedup"))
  {
    MatchIsLast(cfg, data);
    MatchClaims(cfg, data);
    hide Classify, Q6Stage, CorrectnessPassed, CpuAvailable, Comparison, Truthy, Field;
  }

  lemma MatchingWithoutBridge(cfg: Config, data: Json)
    requires data.Obj? && Matched(cfg, data)
    ensures Matched(cfg, Without(data, BRIDGE)) <==> !IsCompareArtifact(data) || EventsCounted(Q6Of(data))
  {
    var less := Without(data, BRIDGE);
    MatchExact(cfg, data);
    MatchExact(cfg, less);
    DropAgrees(data);
    AgreedParts(data, less);
    AgreedShape(cfg, data, less);
    BackedBy(cfg, data);
    UnmarkedGates(cfg, data);
    SpeedupGateWithoutBridge(cfg, less);
    hide Matched, Without, Agree, WellShaped, Open, IsCompareArtifact, EventsCounted, Q6Of, Diagnostics, CorrectnessSummary,
         Comparison, CorrectnessOf, PropagationOf, Freshness, Field, SaysMatch, ConfigProven, EvidenceWalk.MarkedSomewhere,
         ReadShape, ShapeClear;
    forall g | g != SpeedupGate
      ensures Open(cfg, less, g)
    {
      assert Open(cfg, data, g);
      if !g.OracleGate? && !g.UnsupportedGate? {
        AgreedOpen(cfg, data, less, g);
      }
    }
  }

  lemma UnmarkedGates(cfg: Config, data: Json)
    requires data.Obj? && Open(cfg, data, OracleGate) && Open(cfg, data, UnsupportedGate)
    ensures Open(cfg, Without(data, BRIDGE), OracleGate) && Open(cfg, Without(data, BRIDGE), UnsupportedGate)
  {
    hide EvidenceWalk.MarkedSomewhere, EvidenceWalk.OracleFailClosed, EvidenceWalk.UnsupportedWork, Without;
    UnmarkedWithout(EvidenceWalk.OracleFailClosed(), data, BRIDGE);
    UnmarkedWithout(EvidenceWalk.UnsupportedWork(cfg.unsupportedTokens), data, BRIDGE);
  }

  /** Behind a claim from a compare artifact whose events are not counted stand both kinds of evidence. */
  lemma UncountedClaimIsFullyBacked(cfg: Config, data: Json)
    requires data.Obj? && ClaimsCorrectness(cfg, data) && IsCompareArtifact(data) && !EventsCounted(Q6Of(data))
    ensures SpeedupRecorded(data)
    ensures CorrectnessOf(data).Some? && Probed(cfg, CorrectnessOf(data).value)
  {
    CorrectnessClaimExact(cfg, data);
    Uncounted(Q6Of(data));
    hide *;
    assert Open(cfg, data, SpeedupGate) && Open(cfg, data, PromptGate);
    FullGates(cfg, data);
  }

  lemma Uncounted(q6: Json)
    requires !EventsCounted(q6)
    ensures !OracleSpoke(q6)
  {
    hide EventsCounted, SaysMatch, SaysMismatch;
  }

  lemma FullGates(cfg: Config, data: Json)
    requires Open(cfg, data, SpeedupGate) && Open(cfg, data, PromptGate)
    requires IsCompareArtifact(data) && !OracleSpoke(Q6Of(data))
    ensures SpeedupRecorded(data)
    ensures CorrectnessOf(data).Some? && Probed(cfg, CorrectnessOf(data).value)
  {
    hide SpeedupRecorded, CorrectnessOf, Probed, IsCompareArtifact, OracleSpoke, Q6Of, SaysMatch, ExecutorObserved, IcdObserved,
         EvidenceWalk.MarkedSomewhere, EvidenceWalk.OracleFailClosed, EvidenceWalk.UnsupportedWork, Truthy, ConfigProven,
         MemoryError, ReadinessFalse, CompletionTimeout, SetupBlocker, Diagnostics, PropagationOf, ShapeClear, ReadShape,
         Q6Writeback.WritebackProven, Q6Writeback.ReadQ6;
  }
}

/** Which gate an artifact stops at, and the exit code that follows. */
module GpuExits {
  import opened Options
  import opened Json
  import opened GpuGates
  import opened Classifier
  import opened GpuClaims
  import Q6Evidence
  import Q6Writeback

  /** The first closed gate: the script gets there without raising. */
  ghost predicate FirstClosed(cfg: Config, data: Json, g: Gate) {
    ReachedWhole(cfg, data, g) && !Open(cfg, data, g)
  }

  lemma OrdersDiffer(g: Gate, h: Gate)
    ensures Order(g) == Order(h) <==> g == h
  {
  }

  lemma OnlyOneFirst(cfg: Config, data: Json, g: Gate, h: Gate)
    requires FirstClosed(cfg, data, g) && !Open(cfg, data, h) && forall i :: Order(i) < Order(h) ==> Open(cfg, data, i)
    ensures g == h
  {
    OrdersDiffer(g, h);
    hide Open, Malformed, Order;
  }

  /** An artifact with a first closed gate is classified: nothing raises before. */
  lemma FirstClosedClassifies(cfg: Config, data: Json, g: Gate)
    requires FirstClosed(cfg, data, g)
    ensures !RaisesFrom(cfg, data, 0)
  {
    hide Open, Malformed, Order;
    forall h | Malformed(cfg, data, h)
      ensures !OpenBetween(cfg, data, 0, Order(h))
    {
    }
  }

  /** When the script reports that it stopped at a gate, nothing up to that gate is malformed. */
  lemma NothingMalformedBefore(cfg: Config, data: Json, g: Gate)
    requires !RaisesFrom(cfg, data, 0) && forall h :: Order(h) < Order(g) ==> Open(cfg, data, h)
    ensures ReachedWhole(cfg, data, g)
  {
    hide Open, Malformed, Order;
    forall h | Order(h) <= Order(g)
      ensures !Malformed(cfg, data, h)
    {
      assert OpenBetween(cfg, data, 0, Order(h));
    }
  }

  lemma StopsExact(cfg: Config, data: Json, closed: Option<Gate>, g: Gate)
    requires StopsAt(cfg, data, closed) && !RaisesFrom(cfg, data, 0)
    ensures closed == Some(g) <==> FirstClosed(cfg, data, g)
  {
    hide Open, Malformed, RaisesFrom, Order;
    if FirstClosed(cfg, data, g) && closed.Some? {
      OnlyOneFirst(cfg, data, g, closed.value);
    } else if closed == Some(g) {
      NothingMalformedBefore(cfg, data, g);
    }
  }

  /** The class names a gate exactly when that gate is the first closed one. */
  lemma GateExact(cfg: Config, data: Json, g: Gate)
    requires data.Obj?
    ensures Classify(cfg, data).Classified? && ClosedGate(Classify(cfg, data).report.class_) == Some(g)
            <==> FirstClosed(cfg, data, g)
  {
    hide *;
    ClassNamesFirstClosedGate(cfg, data);
    if Classify(cfg, data).Classified? {
      StopsExact(cfg, data, ClosedGate(Classify(cfg, data).report.class_), g);
    } else if FirstClosed(cfg, data, g) {
      FirstClosedClassifies(cfg, data, g);
    }
  }

  /** A setup blocker of the pipeline features whose evidence is asked for and not complete. */
  ghost predicate FeaturesUnproven(cfg: Config, data: Json) {
    && SetupBlocker(cfg, data, Diagnostics(data)) == Some(PipelineFeature)
    && FeatureEvidenceMissing(cfg, PipelineFeature, Diagnostics(data), Freshness(data))
  }

  /** A code that the two flags override. */
  function Overridden(flags: Flags, code: nat): nat {
    if flags.requireMatch then 30 else if flags.requireClear then 31 else code
  }

  /** The exit code of an artifact whose first closed gate this is. */
  ghost function CodeAt(cfg: Config, data: Json, flags: Flags, g: Gate): nat {
    match g
    case MemoryGate => if flags.allowMemory then 0 else 20
    case ReadinessGate => 21
    case ServiceGate => Overridden(flags, 0)
    case ExecutorGate => 34
    case IcdGate => 42
    case SetupGate => if FeaturesUnproven(cfg, data) then 43 else Overridden(flags, 0)
    case ConfigGate => 35
    case OracleGate => 37
    case UnsupportedGate => 36
    case PromptGate => 38
    case SpeedupGate => 39
    case ReachedGate => Overridden(flags, 33)
    case ShapeGate => Overridden(flags, 32)
    case WritebackGate => if Q6Evidence.Refuted(Q6Of(data)) then 40 else 41
    case MatchGate =>
      if flags.requireMatch then 30 else if SaysMismatch(Q6Of(data)) then 0 else Overridden(flags, 33)
  }

  // ---------- which of a gate's classes it is ----------

  lemma SetupClass(cfg: Config, data: Json)
    requires data.Obj? && Classify(cfg, data).Classified?
    requires ClosedGate(Classify(cfg, data).report.class_) == Some(SetupGate)
    ensures Classify(cfg, data).report.class_.FeatureEvidenceAbsent? <==> FeaturesUnproven(cfg, data)
  {
    EvidenceIsLate(cfg, data);
    hide EvidenceStage, MemoryError, ReadinessFalse, Diagnostics, CorrectnessSummary, CompletionTimeout,
         ExecutorFresh, IcdFresh, SetupBlocker, Freshness, FeatureChainIcd, FailureEvent, Has;
  }

  lemma EvidenceIsLate(cfg: Config, data: Json)
    ensures var r := EvidenceStage(cfg, data); r.Classified? ==> ClosedGate(r.report.class_) != Some(SetupGate)
  {
    EvidenceStageStops(cfg, data);
    hide EvidenceStage, ClosedGate, Open;
    SetupIsEarly();
  }

  lemma SetupIsEarly()
    ensures Order(SetupGate) < 6
  {
  }

  lemma WritebackClass(cfg: Config, data: Json)
    requires data.Obj? && Classify(cfg, data).Classified?
    requires ClosedGate(Classify(cfg, data).report.class_) == Some(WritebackGate)
    ensures Classify(cfg, data).report.class_.WritebackMismatch? <==> Q6Evidence.Refuted(Q6Of(data))
  {
    LastOrders();
    hide *;
    LastStageReached(cfg, data);
    Q6Evidence.VerdictOnRecord(Q6Of(data));
    WritebackVerdict(cfg, data);
  }

  lemma WritebackVerdict(cfg: Config, data: Json)
    requires Q6Stage(cfg, data).Classified? && ClosedGate(Q6Stage(cfg, data).report.class_) == Some(WritebackGate)
    ensures var verdict := Q6Writeback.Evidence(Q6Writeback.ReadQ6(Q6Of(data)));
            verdict.Some? && (Q6Stage(cfg, data).report.class_.WritebackMismatch? <==> verdict.value.summary.Mismatch?)
  {
    MismatchIsClosed(cfg, Q6Of(data));
    hide Q6Of, Q6Writeback.Evidence, Q6Writeback.ReadQ6, Comparison, CorrectnessSummary, MismatchClass, ShapeBlocked, ReadShape,
         CpuAvailable, Truthy, SaysMatch, SaysMismatch, Field;
  }

  lemma MatchClass(cfg: Config, data: Json)
    requires data.Obj? && Classify(cfg, data).Classified?
    requires ClosedGate(Classify(cfg, data).report.class_) == Some(MatchGate)
    ensures IsClear(Classify(cfg, data).report.class_) <==> SaysMismatch(Q6Of(data))
  {
    LastOrders();
    ClassNamesFirstClosedGate(cfg, data);
    hide *;
    LastStageReached(cfg, data);
    LastStageStatus(cfg, data);
    ClearIsLast(Classify(cfg, data).report.class_);
    PlainGates(cfg, data);
    StopsClosed(cfg, data, MatchGate);
  }

  lemma StopsClosed(cfg: Config, data: Json, g: Gate)
    requires StopsAt(cfg, data, Some(g))
    ensures !Open(cfg, data, g)
  {
    hide Open;
  }

  // ---------- the exit code ----------

  lemma CodeOfClass(r: Report, flags: Flags, g: Gate, cfg: Config, data: Json)
    requires ClosedGate(r.class_) == Some(g) && (r.memoryBlocked <==> r.class_.MemoryBlocked?)
    requires g == SetupGate ==> (r.class_.FeatureEvidenceAbsent? <==> FeaturesUnproven(cfg, data))
    requires g == WritebackGate ==> (r.class_.WritebackMismatch? <==> Q6Evidence.Refuted(Q6Of(data)))
    requires g == MatchGate ==> (IsClear(r.class_) <==> SaysMismatch(Q6Of(data)))
    ensures ExitCode(r, flags) == CodeAt(cfg, data, flags, g)
  {
    hide FeaturesUnproven, Q6Evidence.Refuted, Q6Of, SaysMismatch;
  }

  /** The exit code of every artifact that stops at a gate follows from that gate and the flags. */
  lemma ExitExact(cfg: Config, data: Json, flags: Flags, g: Gate)
    requires data.Obj? && FirstClosed(cfg, data, g)
    ensures VerifierExit(cfg, Some(data), flags) == CodeAt(cfg, data, flags, g)
  {
    hide *;
    GateExact(cfg, data, g);
    OnlyMemoryIsMemoryBlocked(cfg, data);
    if g == SetupGate {
      SetupClass(cfg, data);
    } else if g == WritebackGate {
      WritebackClass(cfg, data);
    } else if g == MatchGate {
      MatchClass(cfg, data);
    }
    var r := Classify(cfg, data).report;
    CodeOfClass(r, flags, g, cfg, data);
    ExitOfReport(cfg, data, flags);
  }

  lemma ExitOfReport(cfg: Config, data: Json, flags: Flags)
    requires data.Obj? && Classify(cfg, data).Classified?
    ensures VerifierExit(cfg, Some(data), flags) == ExitCode(Classify(cfg, data).report, flags)
  {
    hide Classify, ExitCode;
  }

  /** The other artifacts: those that raise end with 1, those that open every gate with 0. */
  lemma ExitOtherwise(cfg: Config, artifact: Option<Json>, flags: Flags)
    requires artifact.Some? && artifact.value.Obj? ==> forall g :: !FirstClosed(cfg, artifact.value, g)
    ensures VerifierExit(cfg, artifact, flags) ==
            if artifact.Some? && artifact.value.Obj? && !RaisesFrom(cfg, artifact.value, 0) then 0 else 1
  {
    hide *;
    if artifact.Some? && artifact.value.Obj? {
      var data := artifact.value;
      ClassNamesFirstClosedGate(cfg, data);
      if Classify(cfg, data).Classified? {
        var c := Classify(cfg, data).report.class_;
        NoGateIsMatch(cfg, data);
        OnlyMemoryIsMemoryBlocked(cfg, data);
        ExitOfReport(cfg, data, flags);
        MatchExits(Classify(cfg, data).report, flags);
      } else {
        RaisedExit(cfg, data, flags);
      }
    } else {
      UnreadableExit(cfg, artifact, flags);
    }
  }

  lemma NoGateIsMatch(cfg: Config, data: Json)
    requires data.Obj? && Classify(cfg, data).Classified? && forall g :: !FirstClosed(cfg, data, g)
    ensures Classify(cfg, data).report.class_.OracleMatch?
  {
    hide Classify, FirstClosed, ClosedGate;
    var c := Classify(cfg, data).report.class_;
    NoneClosed(c);
    if ClosedGate(c).Some? {
      GateExact(cfg, data, ClosedGate(c).value);
    }
  }

  lemma MatchExits(r: Report, flags: Flags)
    requires r.class_.OracleMatch? && (r.memoryBlocked <==> r.class_.MemoryBlocked?)
    ensures ExitCode(r, flags) == 0
  {
  }

  lemma RaisedExit(cfg: Config, data: Json, flags: Flags)
    requires data.Obj? && Classify(cfg, data).Raised?
    ensures VerifierExit(cfg, Some(data), flags) == 1
  {
    hide Classify, ExitCode;
  }
}

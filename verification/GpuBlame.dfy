/** What an oracle mismatch behind a proven writeback is blamed on. */
module GpuBlame {
  import opened Options
  import opened Json
  import opened GpuGates
  import opened Classifier
  import opened GpuClaims
  import EvidenceWalk
  import Q6Writeback

  // ---------- what is recorded ----------

  /** Once the workgroup shape is clear, only the delta over 32 lanes decides whether the CPU side is cleared. */
  lemma NarrowDeltaSuffices(cfg: Config, q6: Json)
    requires ShapeClear(ReadShape(cfg, q6))
    ensures ShaderLikeCleared(cfg, q6) <==> SaysMismatch(q6) && CloseToZero(Field(q6, "q6_shader_like_abs_delta"))
  {
    var s := ReadShape(cfg, q6);
    assert SafeKernel(s) || Q6Writeback.IntegerList(s.resolved) == Some([32, 2, 1]);
    hide ReadShape, CloseToZero, Q6Writeback.IntegerList, SafeKernel, Field;
  }

  /**
   * What a probe is recorded to say: the text of its own summary; without one the separate record, as it
   * is or as the probe's text; without that, that it was not run.
   */
  ghost predicate ProbeSays(cfg: Config, probe: Json, recorded: Json, text: string) {
    if probe.Obj? && Truthy(Field(probe, "summary")) then TextOf(cfg, Field(probe, "summary")) == text
    else if Truthy(recorded) then recorded == Str(text) || (probe.Obj? && TextOf(cfg, recorded) == text)
    else text == "not-run"
  }

  ghost predicate LayoutSays(cfg: Config, q6: Json, text: string) {
    ProbeSays(cfg, Field(q6, "q6_output_layout_probe"), Field(q6, "q6_output_layout_probe_summary"), text)
  }

  ghost predicate RowsSay(cfg: Config, q6: Json, text: string) {
    ProbeSays(cfg, Field(q6, "q6_row_provenance_probe"), Field(q6, "q6_row_provenance_probe_summary"), text)
  }

  /** A probe over at least sixteen mismatched rows that found values elsewhere at no common offset. */
  predicate WideProbe(probe: Json) {
    && CountOf(Field(probe, "mismatch_count")).Some? && CountOf(Field(probe, "mismatch_count")).value >= 16
    && CountOf(Field(probe, "found_elsewhere_count")).Some? && CountOf(Field(probe, "found_elsewhere_count")).value > 0
    && Field(probe, "consistent_relative_offset") == False
  }

  /** The sum over 32 lanes on the CPU is within a thousandth of the recorded value. */
  predicate CpuRepeats(q6: Json) {
    var delta := Field(q6, "q6_shader_like_abs_delta");
    IsNumber(delta) && -0.001 <= NumberOf(delta) <= 0.001
  }

  /** The classes an oracle mismatch can get. */
  predicate IsBlame(c: Class) {
    || c.NativeOutputLayout? || c.NativeOtherRow? || c.NativeDeviceExecution? || c.NativeLayoutInconclusive?
    || c.NativeReduction? || c.OracleMismatch?
  }

  /** The recorded evidence that points to each of them. */
  ghost predicate PointsTo(cfg: Config, q6: Json, c: Class)
    requires IsBlame(c)
  {
    var elsewhere := LayoutSays(cfg, q6, "canonical-mismatch-found-elsewhere");
    var unclear := LayoutSays(cfg, q6, "canonical-mismatch-inconclusive");
    var nowhere := LayoutSays(cfg, q6, "canonical-mismatch-not-found");
    var otherRow := RowsSay(cfg, q6, "other-row-match");
    var noFixedOffset := WideProbe(Field(q6, "q6_output_layout_probe"));
    match c
    case NativeOutputLayout => elsewhere
    case NativeOtherRow => otherRow && !elsewhere
    case NativeDeviceExecution => unclear && !otherRow && noFixedOffset && CpuRepeats(q6)
    case NativeLayoutInconclusive => unclear && !otherRow && !(noFixedOffset && CpuRepeats(q6))
    case NativeReduction => nowhere && !otherRow && CpuRepeats(q6)
    case OracleMismatch => !elsewhere && !otherRow && !unclear && !(nowhere && CpuRepeats(q6))
  }

  // ---------- the analysis follows the record ----------

  lemma SummarySays(cfg: Config, probe: Json, recorded: Json, text: string)
    ensures ProbeSummary(cfg, probe, recorded) == Str(text) <==> ProbeSays(cfg, probe, recorded, text)
  {
    hide Field;
  }

  lemma DeltaRepeats(q6: Json)
    ensures CloseToZero(Field(q6, "q6_shader_like_abs_delta")) <==> CpuRepeats(q6)
  {
    hide Field;
  }

  lemma WideIsRejected(summary: Json, probe: Json)
    ensures FixedOffsetRejected(summary, probe) <==> summary == Str("canonical-mismatch-inconclusive") && WideProbe(probe)
  {
    hide Field, CountOf;
  }

  /** What the two probes say about the texts the analysis asks for. */
  lemma ProbesSay(cfg: Config, q6: Json)
    ensures var layout := ProbeSummary(cfg, Field(q6, "q6_output_layout_probe"), Field(q6, "q6_output_layout_probe_summary"));
            var rows := ProbeSummary(cfg, Field(q6, "q6_row_provenance_probe"), Field(q6, "q6_row_provenance_probe_summary"));
            && (layout == Str("canonical-mismatch-found-elsewhere") <==> LayoutSays(cfg, q6, "canonical-mismatch-found-elsewhere"))
            && (layout == Str("canonical-mismatch-inconclusive") <==> LayoutSays(cfg, q6, "canonical-mismatch-inconclusive"))
            && (layout == Str("canonical-mismatch-not-found") <==> LayoutSays(cfg, q6, "canonical-mismatch-not-found"))
            && (rows == Str("other-row-match") <==> RowsSay(cfg, q6, "other-row-match"))
  {
    hide Field, ProbeSummary, ProbeSays;
    var layout, recorded := Field(q6, "q6_output_layout_probe"), Field(q6, "q6_output_layout_probe_summary");
    SummarySays(cfg, layout, recorded, "canonical-mismatch-found-elsewhere");
    SummarySays(cfg, layout, recorded, "canonical-mismatch-inconclusive");
    SummarySays(cfg, layout, recorded, "canonical-mismatch-not-found");
    SummarySays(cfg, Field(q6, "q6_row_provenance_probe"), Field(q6, "q6_row_provenance_probe_summary"), "other-row-match");
  }

  lemma MismatchPoints(cfg: Config, q6: Json, c: Class)
    requires ShapeClear(ReadShape(cfg, q6)) && SaysMismatch(q6) && IsBlame(c)
    ensures MismatchClass(cfg, q6) == c <==> PointsTo(cfg, q6, c)
  {
    ProbesSay(cfg, q6);
    NarrowDeltaSuffices(cfg, q6);
    DeltaRepeats(q6);
    var layout := ProbeSummary(cfg, Field(q6, "q6_output_layout_probe"), Field(q6, "q6_output_layout_probe_summary"));
    WideIsRejected(layout, Field(q6, "q6_output_layout_probe"));
    hide ProbeSummary, FixedOffsetRejected, ShaderLikeCleared, Field, WideProbe, ShapeClear, ReadShape, CloseToZero, SaysMismatch,
         LayoutSays, RowsSay, CpuRepeats;
  }

  /** The last stage passes on the analysis of a mismatch, and no other way leads to these classes. */
  lemma BlameFromMismatch(cfg: Config, data: Json, c: Class)
    requires IsBlame(c)
    requires Q6Stage(cfg, data).Classified? && Q6Of(data).Obj? && Truthy(Q6Of(data)) && !ShapeBlocked(ReadShape(cfg, Q6Of(data)))
    requires var verdict := Q6Writeback.Evidence(Q6Writeback.ReadQ6(Q6Of(data)));
             verdict.Some? && verdict.value.summary.Pass?
    ensures Q6Stage(cfg, data).report.class_ == c <==> SaysMismatch(Q6Of(data)) && MismatchClass(cfg, Q6Of(data)) == c
  {
    MatchIsNoMismatch(Q6Of(data));
    hide Q6Of, Q6Writeback.Evidence, Q6Writeback.ReadQ6, Comparison, CorrectnessSummary, MismatchClass, ShapeBlocked, ReadShape,
         CpuAvailable, Truthy, SaysMatch, SaysMismatch, Field;
  }

  lemma MatchIsNoMismatch(q6: Json)
    ensures !(SaysMatch(q6) && SaysMismatch(q6))
  {
    hide Field;
  }

  lemma OpenWhenCleared(cfg: Config, data: Json)
    requires Cleared(cfg, data)
    ensures Open(cfg, data, WritebackGate) && Open(cfg, data, ShapeGate) && Open(cfg, data, ReachedGate)
  {
    hide Open, WellShaped, SaysMatch, SaysMismatch, Q6Of;
  }

  lemma ClearedQ6(cfg: Config, data: Json)
    requires Cleared(cfg, data)
    ensures Q6Of(data).Obj? && Truthy(Q6Of(data))
    ensures !ShapeBlocked(ReadShape(cfg, Q6Of(data))) && ShapeClear(ReadShape(cfg, Q6Of(data)))
    ensures var verdict := Q6Writeback.Evidence(Q6Writeback.ReadQ6(Q6Of(data))); verdict.Some? && verdict.value.summary.Pass?
  {
    hide *;
    OpenWhenCleared(cfg, data);
    Q6Gates(cfg, data);
    PlainGates(cfg, data);
    WritebackAndShape(cfg, data);
  }

  lemma BlameWhenClear(cfg: Config, data: Json, c: Class)
    requires data.Obj? && Cleared(cfg, data) && IsBlame(c)
    requires Classify(cfg, data).Classified? && IsClear(Classify(cfg, data).report.class_)
    ensures Classify(cfg, data).report.class_ == c <==> SaysMismatch(Q6Of(data)) && PointsTo(cfg, Q6Of(data), c)
  {
    LastOrders();
    hide *;
    ClearedQ6(cfg, data);
    ClearIsLast(Classify(cfg, data).report.class_);
    LastStageReached(cfg, data);
    BlameFromMismatch(cfg, data, c);
    if SaysMismatch(Q6Of(data)) {
      MismatchPoints(cfg, Q6Of(data), c);
    }
  }

  lemma BlameIsClear(c: Class)
    requires IsBlame(c)
    ensures IsClear(c)
  {
  }

  /**
   * An artifact gets one of these classes exactly when every gate up to the writeback is open, the oracle
   * saw a mismatch and the recorded probes point there: values found elsewhere blame the layout, another
   * row that matches the row, a wide probe without a common offset the device, and so on.
   */
  lemma BlameExact(cfg: Config, data: Json, c: Class)
    requires data.Obj? && IsBlame(c)
    ensures Classify(cfg, data).Classified? && Classify(cfg, data).report.class_ == c <==>
            Cleared(cfg, data) && SaysMismatch(Q6Of(data)) && PointsTo(cfg, Q6Of(data), c)
  {
    hide *;
    ClearExact(cfg, data);
    BlameIsClear(c);
    if Classify(cfg, data).Classified? && IsClear(Classify(cfg, data).report.class_) {
      BlameWhenClear(cfg, data, c);
    }
  }

  /** A mismatch that is blamed on a layout, a row, the device or the reduction has a proven writeback. */
  lemma BlameNeedsWriteback(cfg: Config, data: Json)
    requires data.Obj? && Classify(cfg, data).Classified?
    requires ClosedGate(Classify(cfg, data).report.class_) == Some(MatchGate)
    ensures Q6Writeback.WritebackProven(Q6Writeback.ReadQ6(Q6Of(data)))
    ensures Q6Of(data).Obj? && ShapeClear(ReadShape(cfg, Q6Of(data)))
  {
    ClassNamesFirstClosedGate(cfg, data);
    LastGate();
    hide *;
    assert Open(cfg, data, WritebackGate) && Open(cfg, data, ShapeGate);
    WritebackAndShape(cfg, data);
  }

  lemma WritebackAndShape(cfg: Config, data: Json)
    requires Open(cfg, data, WritebackGate) && Open(cfg, data, ShapeGate)
    ensures Q6Writeback.WritebackProven(Q6Writeback.ReadQ6(Q6Of(data)))
    ensures Q6Of(data).Obj? && ShapeClear(ReadShape(cfg, Q6Of(data)))
  {
    Q6Gates(cfg, data);
    hide Q6Writeback.WritebackProven, Q6Writeback.ReadQ6, ShapeClear, ReadShape, Q6Of, ShapeBlocked, Q6Writeback.Evidence,
         SaysMatch, Truthy, PropagationOf, IsCompareArtifact, CorrectnessOf, Diagnostics, OracleSpoke, ExecutorObserved,
         IcdObserved, EvidenceWalk.MarkedSomewhere, MemoryError, ReadinessFalse, CompletionTimeout, SetupBlocker;
  }
}

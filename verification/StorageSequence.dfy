/** A sequence of storage snapshots: its phases, their order, and the law between them. */
module StorageSequence {
  import opened Options
  import opened Text
  import opened Json
  import opened StorageSnapshot

  datatype Name = Baseline | AfterBuild | AfterRebuild | AfterEdit | AfterPrune | Other(text: string)

  /** One raw phase; a name that is no non-empty text, or a snapshot that is no object, reads as absent. */
  datatype Phase = NotAnObject | Phase(name: Option<Name>, snapshot: Option<Snapshot>)

  /** The whole artifact: `metadata` says of each required key whether it is there. */
  datatype Sequence = Sequence(schemaOk: bool, metadata: Option<seq<bool>>, phases: Option<seq<Phase>>)

  datatype Problem =
    | WrongSchema
    | NoMetadata(entry: nat)
    | MalformedSequence
    | PhaseNotAnObject(index: nat)
    | NameRequired(index: nat)
    | DuplicatePhase(name: Name)
    | InPhase(name: Name, error: Error)
    | SnapshotRequired(name: Name)
    | PhasesMissing
    | PhasesOutOfOrder
    | NoSummary(name: Name)
    | NumberRequired(name: Name, key: Key)
    | BuildShrank
    | RebuildGrew
    | SharedGrew
    | UpperDidNotGrow
    | EditShrank
    | PruneGrew
    | NoWrittenContainer

  const REQUIRED := [Baseline, AfterBuild, AfterRebuild, AfterEdit, AfterPrune]

  const METADATA_KEYS := ["device", "build_sha", "package"]

  // ---------- reading ----------

  function NameOf(text: string): Name {
    if text == "baseline" then Baseline
    else if text == "after-build" then AfterBuild
    else if text == "after-rebuild" then AfterRebuild
    else if text == "after-edit" then AfterEdit
    else if text == "after-prune" then AfterPrune
    else Other(text)
  }

  function ReadName(value: Json): Option<Name> {
    if value.Str? && value.s != "" then Some(NameOf(value.s)) else None
  }

  function ReadPhase(render: Json -> string, value: Json): Phase {
    if !value.Obj? then NotAnObject
    else
      var snapshot := Field(value, "snapshot");
      Phase(ReadName(Field(value, "name")), if snapshot.Obj? then Some(ReadSnapshot(render, snapshot)) else None)
  }

  function ReadMetadata(value: Option<Json>): Option<seq<bool>> {
    var metadata := if value.Some? then value.value else Obj([]);
    if !metadata.Obj? then None
    else Some(seq(3, i requires 0 <= i < 3 =>
                    var entry := Field(metadata, METADATA_KEYS[i]); entry.Str? && Strip(entry.s) != ""))
  }

  function ReadSequence(render: Json -> string, value: Json): Sequence {
    var phases := Field(value, "phases");
    Sequence(Field(value, "schema") == Str("pdocker.storage.metrics.sequence.v1"),
             ReadMetadata(Get(value, "metadata")),
             if phases.List? then
               Some(seq(|phases.items|, i requires 0 <= i < |phases.items| => ReadPhase(render, phases.items[i])))
             else None)
  }

  // ---------- collecting the phases ----------

  datatype Collected = Collected(errors: seq<Problem>, phases: map<Name, Phase>, order: seq<Name>)

  function Reported(name: Name, errors: seq<Error>): (r: seq<Problem>)
    ensures |r| == |errors|
  {
    seq(|errors|, i requires 0 <= i < |errors| => InPhase(name, errors[i]))
  }

  /** What one raw phase adds. */
  function CollectOne(c: Collected, phase: Phase, index: nat): Collected {
    if phase.NotAnObject? then c.(errors := c.errors + [PhaseNotAnObject(index)])
    else if phase.name.None? then c.(errors := c.errors + [NameRequired(index)])
    else
      var name := phase.name.value;
      if name in c.phases then c.(errors := c.errors + [DuplicatePhase(name)])
      else
        Collected(
          c.errors + (if phase.snapshot.Some? then Reported(name, Errors(phase.snapshot.value)) else [SnapshotRequired(name)]),
          c.phases[name := phase], c.order + [name])
  }

  function Collect(phases: seq<Phase>, errors: seq<Problem>): Collected {
    if phases == [] then Collected(errors, map[], [])
    else CollectOne(Collect(phases[..|phases| - 1], errors), phases[|phases| - 1], |phases| - 1)
  }

  /** The loop over the raw phases. */
  method CollectPhases(raw: seq<Phase>, before: seq<Problem>)
    returns (errors: seq<Problem>, phases: map<Name, Phase>, order: seq<Name>)
    ensures Collected(errors, phases, order) == Collect(raw, before)
  {
    errors, phases, order := before, map[], [];
    for i := 0 to |raw|
      invariant Collected(errors, phases, order) == Collect(raw[..i], before)
    {
      assert raw[..i + 1][..i] == raw[..i];
      var phase := raw[i];
      if phase.NotAnObject? {
        errors := errors + [PhaseNotAnObject(i)];
      } else if phase.name.None? {
        errors := errors + [NameRequired(i)];
      } else {
        var name := phase.name.value;
        if name in phases {
          errors := errors + [DuplicatePhase(name)];
        } else {
          phases := phases[name := phase];
          order := order + [name];
          if phase.snapshot.Some? {
            var found := Validate(phase.snapshot.value);
            errors := errors + Reported(name, found);
          } else {
            errors := errors + [SnapshotRequired(name)];
          }
        }
      }
    }
    assert raw[..|raw|] == raw;
  }

  // ---------- comparing the required phases ----------

  /** `order.index(name)` */
  function IndexOf(order: seq<Name>, name: Name): (i: nat)
    requires name in order
    ensures i < |order| && order[i] == name && forall j :: 0 <= j < i ==> order[j] != name
  {
    if order[0] == name then 0 else 1 + IndexOf(order[1..], name)
  }

  /** The positions of the required phases are sorted. */
  predicate InRequiredOrder(order: seq<Name>)
    requires forall name :: name in REQUIRED ==> name in order
  {
    && IndexOf(order, Baseline) <= IndexOf(order, AfterBuild) <= IndexOf(order, AfterRebuild)
    && IndexOf(order, AfterRebuild) <= IndexOf(order, AfterEdit) <= IndexOf(order, AfterPrune)
  }

  function SummaryOf(phase: Phase): Option<Summary> {
    if phase.Phase? && phase.snapshot.Some? then phase.snapshot.value.system else None
  }

  function If(condition: bool, problem: Problem): seq<Problem> {
    if condition then [problem] else []
  }

  /** `_number` reports a number that is missing. */
  function NumberProblem(name: Name, summary: Summary, key: Key): seq<Problem> {
    If(!Numeric(summary.fields(key)), NumberRequired(name, key))
  }

  /** The summaries of the five required phases. */
  datatype Five = Five(baseline: Summary, build: Summary, rebuild: Summary, edit: Summary, prune: Summary)

  function NumberProblems(f: Five): seq<Problem> {
    NumberProblem(Baseline, f.baseline, UniqueBytes) + NumberProblem(AfterBuild, f.build, UniqueBytes)
    + NumberProblem(AfterRebuild, f.rebuild, UniqueBytes) + NumberProblem(AfterEdit, f.edit, UniqueBytes)
    + NumberProblem(AfterPrune, f.prune, UniqueBytes) + NumberProblem(AfterBuild, f.build, SharedLayerBytes)
    + NumberProblem(AfterRebuild, f.rebuild, SharedLayerBytes) + NumberProblem(AfterEdit, f.edit, ContainerUpperBytes)
    + NumberProblem(AfterRebuild, f.rebuild, ContainerUpperBytes)
  }

  function Amount(s: Summary, key: Key): real {
    Number(s.fields(key))
  }

  function TrendProblems(f: Five): seq<Problem> {
    If(Amount(f.build, UniqueBytes) < Amount(f.baseline, UniqueBytes), BuildShrank)
    + If(Amount(f.rebuild, UniqueBytes) > Amount(f.build, UniqueBytes), RebuildGrew)
    + If(Amount(f.rebuild, SharedLayerBytes) > Amount(f.build, SharedLayerBytes), SharedGrew)
    + If(Amount(f.edit, ContainerUpperBytes) <= Amount(f.rebuild, ContainerUpperBytes), UpperDidNotGrow)
    + If(Amount(f.edit, UniqueBytes) < Amount(f.rebuild, UniqueBytes), EditShrank)
    + If(Amount(f.prune, UniqueBytes) > Amount(f.edit, UniqueBytes), PruneGrew)
  }

  predicate WrittenRow(row: Option<Fields>) {
    row.Some? && Numeric(row.value(SizeRw)) && Number(row.value(SizeRw)) > 0.0
  }

  predicate Written(containers: Rows) {
    containers.Items? && exists i | 0 <= i < |containers.rows| :: WrittenRow(containers.rows[i])
  }

  /** The first required phase without a summary. */
  function FirstUnsummarized(phases: map<Name, Phase>, names: seq<Name>): Option<Name>
    requires forall name :: name in names ==> name in phases
  {
    if names == [] then None
    else if SummaryOf(phases[names[0]]).None? then Some(names[0])
    else FirstUnsummarized(phases, names[1..])
  }

  predicate AllPresent(phases: map<Name, Phase>) {
    forall name | name in REQUIRED :: name in phases
  }

  function FiveOf(phases: map<Name, Phase>): Five
    requires AllPresent(phases)
    requires forall name :: name in REQUIRED ==> SummaryOf(phases[name]).Some?
  {
    assert Baseline in REQUIRED && AfterBuild in REQUIRED && AfterRebuild in REQUIRED;
    assert AfterEdit in REQUIRED && AfterPrune in REQUIRED;
    Five(SummaryOf(phases[Baseline]).value, SummaryOf(phases[AfterBuild]).value, SummaryOf(phases[AfterRebuild]).value,
         SummaryOf(phases[AfterEdit]).value, SummaryOf(phases[AfterPrune]).value)
  }

  ghost predicate InStep(c: Collected) {
    forall name :: name in c.phases <==> name in c.order
  }

  /** The comparison of the collected phases; None when iterating over the edited containers raises. */
  function Compare(c: Collected): Option<seq<Problem>>
    requires InStep(c)
  {
    if !AllPresent(c.phases) then Some(c.errors + [PhasesMissing])
    else
      var ordered := c.errors + If(!InRequiredOrder(c.order), PhasesOutOfOrder);
      match FirstUnsummarized(c.phases, REQUIRED)
      case Some(name) => Some(ordered + [NoSummary(name)])
      case None =>
        AllSummarized(c.phases, REQUIRED);
        var five := FiveOf(c.phases);
        var containers := c.phases[AfterEdit].snapshot.value.containers;
        if containers.NotAList? && !containers.iterable then None
        else Some(ordered + NumberProblems(five) + TrendProblems(five) + If(!Written(containers), NoWrittenContainer))
  }

  lemma {:induction false} AllSummarized(phases: map<Name, Phase>, names: seq<Name>)
    requires forall name :: name in names ==> name in phases
    requires FirstUnsummarized(phases, names) == None
    ensures forall name :: name in names ==> SummaryOf(phases[name]).Some?
  {
    if names != [] {
      AllSummarized(phases, names[1..]);
      assert names == [names[0]] + names[1..];
    }
  }

  lemma {:induction false} NoneUnsummarized(phases: map<Name, Phase>, names: seq<Name>)
    requires forall name :: name in names ==> name in phases && SummaryOf(phases[name]).Some?
    ensures FirstUnsummarized(phases, names) == None
  {
    if names != [] {
      NoneUnsummarized(phases, names[1..]);
    }
  }

  /** The problems found before any phase is looked at; None when the sequence is malformed. */
  function HeaderProblems(q: Sequence): Option<seq<Problem>> {
    if q.metadata.None? || |q.metadata.value| != 3 || q.phases.None? then None
    else Some(If(!q.schemaOk, WrongSchema) + If(!q.metadata.value[0], NoMetadata(0)) + If(!q.metadata.value[1], NoMetadata(1))
              + If(!q.metadata.value[2], NoMetadata(2)))
  }

  /** `validate_sequence`; None when it raises. */
  method ValidateSequence(q: Sequence) returns (problems: Option<seq<Problem>>)
    ensures problems == Problems(q)
  {
    var header := HeaderProblems(q);
    if header.None? {
      return Some([MalformedSequence]);
    }
    var errors, phases, order := CollectPhases(q.phases.value, header.value);
    CollectedInOrder(q.phases.value, header.value);
    problems := Compare(Collected(errors, phases, order));
  }

  function Problems(q: Sequence): Option<seq<Problem>> {
    match HeaderProblems(q)
    case None => Some([MalformedSequence])
    case Some(header) =>
      CollectedInOrder(q.phases.value, header);
      Compare(Collect(q.phases.value, header))
  }

  lemma StaysInStep(c: Collected, phase: Phase, index: nat)
    requires InStep(c)
    ensures InStep(CollectOne(c, phase, index))
  {
    hide Reported, Errors;
  }

  lemma {:induction false} CollectedInOrder(phases: seq<Phase>, errors: seq<Problem>)
    ensures InStep(Collect(phases, errors))
  {
    hide CollectOne;
    if phases != [] {
      var k := |phases| - 1;
      CollectedInOrder(phases[..k], errors);
      StaysInStep(Collect(phases[..k], errors), phases[k], k);
    }
  }

  // ---------- what no problem means ----------

  predicate Named(phases: seq<Phase>) {
    forall i :: 0 <= i < |phases| ==> phases[i].Phase? && phases[i].name.Some?
  }

  ghost predicate PhaseSound(phase: Phase) {
    phase.Phase? && phase.name.Some? && phase.snapshot.Some? && SnapshotSound(phase.snapshot.value)
  }

  /** Every phase is named, no name is used twice, and every snapshot is sound. */
  ghost predicate Clean(phases: seq<Phase>) {
    && Named(phases)
    && (forall i :: 0 <= i < |phases| ==> PhaseSound(phases[i]))
    && (forall i, j :: 0 <= i < j < |phases| ==> phases[i].name != phases[j].name)
  }

  /** The collected phases are the given ones, under their names and in their order. */
  ghost predicate Gathered(c: Collected, phases: seq<Phase>)
    requires Named(phases)
  {
    && |c.order| == |phases|
    && (forall i :: 0 <= i < |phases| ==>
          && c.order[i] == phases[i].name.value
          && c.order[i] in c.phases && c.phases[c.order[i]] == phases[i])
    && (forall name :: name in c.phases ==> name in c.order)
  }

  lemma Known(c: Collected, phases: seq<Phase>, name: Name)
    requires Named(phases) && Gathered(c, phases)
    ensures name in c.phases <==> exists i :: 0 <= i < |phases| && phases[i].name == Some(name)
  {
    if name in c.phases {
      assert name in c.order;
      var i :| 0 <= i < |c.order| && c.order[i] == name;
      assert phases[i].name == Some(name);
    }
    if exists i :: 0 <= i < |phases| && phases[i].name == Some(name) {
      var i :| 0 <= i < |phases| && phases[i].name == Some(name);
      assert c.order[i] == name;
    }
  }

  lemma CleanWithNew(rest: seq<Phase>, last: Phase)
    requires Clean(rest) && PhaseSound(last) && forall i :: 0 <= i < |rest| ==> rest[i].name != last.name
    ensures Clean(rest + [last])
  {
    hide SnapshotSound;
  }

  lemma CleanPrefix(rest: seq<Phase>, last: Phase)
    requires Clean(rest + [last])
    ensures Clean(rest) && PhaseSound(last) && forall i :: 0 <= i < |rest| ==> rest[i].name != last.name
  {
    hide SnapshotSound;
    var phases := rest + [last];
    assert phases[|rest|] == last && forall i :: 0 <= i < |rest| ==> phases[i] == rest[i];
  }

  /** A phase adds no problem exactly when it is sound and its name is new. */
  lemma QuietPhase(c: Collected, last: Phase, k: nat)
    ensures var d := CollectOne(c, last, k);
            && |d.errors| >= |c.errors|
            && (d.errors == c.errors <==> PhaseSound(last) && last.name.value !in c.phases)
            && (d.errors == [] ==> c.errors == [])
            && (PhaseSound(last) && last.name.value !in c.phases ==>
                  d.phases == c.phases[last.name.value := last] && d.order == c.order + [last.name.value])
  {
    if last.Phase? && last.snapshot.Some? {
      ErrorsExact(last.snapshot.value);
    }
    hide SnapshotSound, Errors;
  }

  lemma GatheredWithNew(c: Collected, d: Collected, rest: seq<Phase>, last: Phase)
    requires Named(rest) && Gathered(c, rest) && last.Phase? && last.name.Some? && last.name.value !in c.phases
    requires d.phases == c.phases[last.name.value := last] && d.order == c.order + [last.name.value]
    ensures Gathered(d, rest + [last])
  {
    var phases := rest + [last];
    forall name | name in d.phases
      ensures name in d.order
    {
      if name == last.name.value {
        assert d.order[|c.order|] == name;
      } else {
        assert name in c.order;
      }
    }
  }

  lemma CleanCase(c: Collected, rest: seq<Phase>, last: Phase, k: nat)
    requires Clean(rest + [last]) && Gathers(c, rest)
    ensures Clean(rest) && CollectOne(c, last, k).errors == c.errors && Gathers(CollectOne(c, last, k), rest + [last])
  {
    CleanPrefix(rest, last);
    CleanIsNamed(rest);
    NewName(c, rest, last);
    QuietPhase(c, last, k);
    hide CollectOne, PhaseSound, Gathered, Clean, SnapshotSound;
    GatheredWithNew(c, CollectOne(c, last, k), rest, last);
  }

  lemma UncleanCase(c: Collected, rest: seq<Phase>, last: Phase, k: nat)
    requires !Clean(rest + [last]) && Clean(rest) && Gathers(c, rest)
    ensures CollectOne(c, last, k).errors != []
  {
    QuietPhase(c, last, k);
    if CollectOne(c, last, k).errors == [] {
      CleanIsNamed(rest);
      OldName(c, rest, last);
      CleanWithNew(rest, last);
    }
  }

  ghost predicate Gathers(c: Collected, phases: seq<Phase>) {
    Clean(phases) ==> Named(phases) && Gathered(c, phases)
  }

  /** Collecting finds no problem exactly in a clean list, and then keeps all of it. */
  lemma {:induction false} CollectExact(phases: seq<Phase>, errors: seq<Problem>)
    ensures Collect(phases, errors).errors == [] <==> errors == [] && Clean(phases)
    ensures Gathers(Collect(phases, errors), phases)
  {
    if phases != [] {
      var k := |phases| - 1;
      var rest, last := phases[..k], phases[k];
      var c := Collect(rest, errors);
      assert phases == rest + [last];
      assert Collect(phases, errors) == CollectOne(c, last, k);
      CollectExact(rest, errors);
      QuietPhase(c, last, k);
      if Clean(phases) {
        hide *;
        CleanCase(c, rest, last, k);
      } else {
        UncleanGathers(CollectOne(c, last, k), phases);
        hide *;
        if Clean(rest) {
          UncleanCase(c, rest, last, k);
        }
      }
    }
  }

  lemma UncleanGathers(c: Collected, phases: seq<Phase>)
    requires !Clean(phases)
    ensures Gathers(c, phases)
  {
  }

  lemma CleanIsNamed(phases: seq<Phase>)
    requires Clean(phases)
    ensures Named(phases)
  {
    hide PhaseSound;
  }

  lemma NewName(c: Collected, rest: seq<Phase>, last: Phase)
    requires Named(rest) && Gathered(c, rest) && PhaseSound(last) && forall i :: 0 <= i < |rest| ==> rest[i].name != last.name
    ensures last.Phase? && last.name.Some? && last.name.value !in c.phases
  {
    Known(c, rest, last.name.value);
  }

  lemma OldName(c: Collected, rest: seq<Phase>, last: Phase)
    requires Named(rest) && Gathered(c, rest) && PhaseSound(last) && last.name.value !in c.phases
    ensures forall i :: 0 <= i < |rest| ==> rest[i].name != last.name
  {
    Known(c, rest, last.name.value);
  }

  // ---------- the whole sequence ----------

  /** The phase of a name, in a clean list that has it. */
  ghost predicate IsAt(phases: seq<Phase>, i: nat, name: Name) {
    i < |phases| && phases[i].Phase? && phases[i].name == Some(name)
  }

  /** The unique, shared and upper bytes move from phase to phase as they should. */
  ghost predicate Trends(f: Five) {
    && Amount(f.baseline, UniqueBytes) <= Amount(f.build, UniqueBytes)
    && Amount(f.rebuild, UniqueBytes) <= Amount(f.build, UniqueBytes)
    && Amount(f.rebuild, SharedLayerBytes) <= Amount(f.build, SharedLayerBytes)
    && Amount(f.rebuild, ContainerUpperBytes) < Amount(f.edit, ContainerUpperBytes)
    && Amount(f.rebuild, UniqueBytes) <= Amount(f.edit, UniqueBytes)
    && Amount(f.prune, UniqueBytes) <= Amount(f.edit, UniqueBytes)
  }

  ghost predicate HeaderSound(q: Sequence) {
    && q.schemaOk
    && q.metadata.Some? && |q.metadata.value| == 3 && (forall i :: 0 <= i < 3 ==> q.metadata.value[i])
    && q.phases.Some?
  }

  /** The five required phases stand in this order, with the summaries and trends between them. */
  ghost predicate PhasesSound(phases: seq<Phase>, b: nat, u: nat, r: nat, e: nat, p: nat) {
    && b < u < r < e < p
    && IsAt(phases, b, Baseline) && IsAt(phases, u, AfterBuild) && IsAt(phases, r, AfterRebuild)
    && IsAt(phases, e, AfterEdit) && IsAt(phases, p, AfterPrune)
    && SummaryOf(phases[b]).Some? && SummaryOf(phases[u]).Some? && SummaryOf(phases[r]).Some?
    && SummaryOf(phases[e]).Some? && SummaryOf(phases[p]).Some?
    && Trends(Five(SummaryOf(phases[b]).value, SummaryOf(phases[u]).value, SummaryOf(phases[r]).value,
                   SummaryOf(phases[e]).value, SummaryOf(phases[p]).value))
    && phases[e].snapshot.Some? && Written(phases[e].snapshot.value.containers)
  }

  ghost predicate SequenceSound(q: Sequence) {
    && HeaderSound(q)
    && Clean(q.phases.value)
    && exists b: nat, u: nat, r: nat, e: nat, p: nat :: PhasesSound(q.phases.value, b, u, r, e, p)
  }

  lemma HeaderExact(q: Sequence)
    ensures HeaderProblems(q) == Some([]) <==> HeaderSound(q)
  {
  }

  /** In a clean collection every required number is there. */
  lemma NumbersPresent(phase: Phase)
    requires PhaseSound(phase)
    ensures SummaryOf(phase).Some?
    ensures forall key :: key in [UniqueBytes, SharedLayerBytes, ContainerUpperBytes] ==>
              Numeric(SummaryOf(phase).value.fields(key))
  {
    var f := SummaryOf(phase).value.fields;
    forall key | key in [UniqueBytes, SharedLayerBytes, ContainerUpperBytes]
      ensures Numeric(f(key))
    {
      assert key in REQUIRED_KEYS && key in SUMMARY_KEYS;
      CountedIsNumeric(f(key));
    }
    hide Numeric;
  }

  lemma TrendsExact(f: Five)
    ensures TrendProblems(f) == [] <==> Trends(f)
  {
    hide Amount;
  }

  lemma NumbersExact(f: Five)
    requires Numeric(f.baseline.fields(UniqueBytes)) && Numeric(f.build.fields(UniqueBytes))
    requires Numeric(f.rebuild.fields(UniqueBytes)) && Numeric(f.edit.fields(UniqueBytes)) && Numeric(f.prune.fields(UniqueBytes))
    requires Numeric(f.build.fields(SharedLayerBytes)) && Numeric(f.rebuild.fields(SharedLayerBytes))
    requires Numeric(f.edit.fields(ContainerUpperBytes)) && Numeric(f.rebuild.fields(ContainerUpperBytes))
    ensures NumberProblems(f) == []
  {
    hide Numeric;
  }

  /** Where the collected phase of a name stands in the list. */
  lemma FoundAt(c: Collected, phases: seq<Phase>, name: Name) returns (i: nat)
    requires Clean(phases) && Named(phases) && Gathered(c, phases) && name in c.order
    ensures IsAt(phases, i, name) && name in c.phases && c.phases[name] == phases[i] && IndexOf(c.order, name) == i
    ensures PhaseSound(phases[i])
  {
    hide PhaseSound;
    i := IndexOf(c.order, name);
  }

  lemma PlaceOf(c: Collected, phases: seq<Phase>, i: nat, name: Name)
    requires Clean(phases) && Named(phases) && Gathered(c, phases) && IsAt(phases, i, name)
    ensures name in c.order && name in c.phases && c.phases[name] == phases[i] && IndexOf(c.order, name) == i
    ensures PhaseSound(phases[i])
  {
    hide PhaseSound;
    assert c.order[i] == name;
    var j := IndexOf(c.order, name);
    assert phases[j].name == phases[i].name;
    assert j == i;
  }

  lemma SoundContainers(phase: Phase)
    requires PhaseSound(phase)
    ensures phase.snapshot.value.containers.Items?
  {
    hide SummarySound, ImageSound, ContainerSound;
  }

  /** The five summaries in a clean collection: nothing is missing, so only the trends decide. */
  lemma FiveFine(f: Five, b: Phase, u: Phase, r: Phase, e: Phase, p: Phase)
    requires PhaseSound(b) && PhaseSound(u) && PhaseSound(r) && PhaseSound(e) && PhaseSound(p)
    requires SummaryOf(b) == Some(f.baseline) && SummaryOf(u) == Some(f.build) && SummaryOf(r) == Some(f.rebuild)
    requires SummaryOf(e) == Some(f.edit) && SummaryOf(p) == Some(f.prune)
    ensures NumberProblems(f) == []
    ensures TrendProblems(f) == [] <==> Trends(f)
  {
    NumbersPresent(b);
    NumbersPresent(u);
    NumbersPresent(r);
    NumbersPresent(e);
    NumbersPresent(p);
    hide PhaseSound, Numeric, SummaryOf, Trends;
    NumbersExact(f);
    TrendsExact(f);
  }

  lemma RequiredNames()
    ensures forall name :: name in REQUIRED <==> name in {Baseline, AfterBuild, AfterRebuild, AfterEdit, AfterPrune}
  {
  }

  /** With every summary there and the edited containers a list, the comparison is its parts. */
  lemma ComparedParts(c: Collected)
    requires InStep(c) && AllPresent(c.phases)
    requires forall name :: name in REQUIRED ==> SummaryOf(c.phases[name]).Some?
    requires AfterEdit in c.phases && c.phases[AfterEdit].Phase? && c.phases[AfterEdit].snapshot.Some?
    requires c.phases[AfterEdit].snapshot.value.containers.Items?
    ensures Compare(c) == Some([]) <==>
            && c.errors == [] && InRequiredOrder(c.order)
            && NumberProblems(FiveOf(c.phases)) == [] && TrendProblems(FiveOf(c.phases)) == []
            && Written(c.phases[AfterEdit].snapshot.value.containers)
  {
    NoneUnsummarized(c.phases, REQUIRED);
    hide InRequiredOrder, FirstUnsummarized, FiveOf, NumberProblems, TrendProblems, Written, AllPresent, SummaryOf;
  }

  lemma ComparedPresent(c: Collected)
    requires InStep(c) && Compare(c) == Some([])
    ensures AllPresent(c.phases) && forall name :: name in REQUIRED ==> name in c.order
  {
    hide InRequiredOrder, FirstUnsummarized, FiveOf, NumberProblems, TrendProblems, Written;
  }

  /** The five phases as collected, with everything the comparison asks of them in place. */
  lemma FivePlaced(c: Collected, phases: seq<Phase>, b: nat, u: nat, r: nat, e: nat, p: nat)
    requires InStep(c) && AllPresent(c.phases)
    requires IsAt(phases, b, Baseline) && IsAt(phases, u, AfterBuild) && IsAt(phases, r, AfterRebuild)
    requires IsAt(phases, e, AfterEdit) && IsAt(phases, p, AfterPrune)
    requires PhaseSound(phases[b]) && PhaseSound(phases[u]) && PhaseSound(phases[r]) && PhaseSound(phases[e]) && PhaseSound(phases[p])
    requires forall i :: i in {b, u, r, e, p} ==>
               phases[i].name.value in c.phases && c.phases[phases[i].name.value] == phases[i]
    ensures forall name :: name in REQUIRED ==> SummaryOf(c.phases[name]).Some?
    ensures AfterEdit in c.phases && c.phases[AfterEdit] == phases[e] && phases[e].snapshot.Some?
    ensures phases[e].snapshot.value.containers.Items?
    ensures SummaryOf(phases[b]).Some? && SummaryOf(phases[u]).Some? && SummaryOf(phases[r]).Some?
    ensures SummaryOf(phases[e]).Some? && SummaryOf(phases[p]).Some?
    ensures FiveOf(c.phases) == Five(SummaryOf(phases[b]).value, SummaryOf(phases[u]).value, SummaryOf(phases[r]).value,
                                     SummaryOf(phases[e]).value, SummaryOf(phases[p]).value)
    ensures NumberProblems(FiveOf(c.phases)) == []
    ensures TrendProblems(FiveOf(c.phases)) == [] <==> Trends(FiveOf(c.phases))
  {
    RequiredNames();
    SoundContainers(phases[e]);
    NumbersPresent(phases[b]);
    NumbersPresent(phases[u]);
    NumbersPresent(phases[r]);
    NumbersPresent(phases[e]);
    NumbersPresent(phases[p]);
    SoundHasSnapshot(phases[e]);
    assert b in {b, u, r, e, p} && u in {b, u, r, e, p} && r in {b, u, r, e, p} && e in {b, u, r, e, p} && p in {b, u, r, e, p};
    hide PhaseSound, NumberProblems, TrendProblems, Trends, SummaryOf, Numeric;
    FiveFine(FiveOf(c.phases), phases[b], phases[u], phases[r], phases[e], phases[p]);
  }

  lemma SoundHasSnapshot(phase: Phase)
    requires PhaseSound(phase)
    ensures phase.Phase? && phase.snapshot.Some?
  {
    hide SnapshotSound;
  }

  lemma StrictlyOrdered(c: Collected, phases: seq<Phase>, b: nat, u: nat, r: nat, e: nat, p: nat)
    requires forall name :: name in REQUIRED ==> name in c.order
    requires InRequiredOrder(c.order)
    requires IsAt(phases, b, Baseline) && IsAt(phases, u, AfterBuild) && IsAt(phases, r, AfterRebuild)
    requires IsAt(phases, e, AfterEdit) && IsAt(phases, p, AfterPrune)
    requires Baseline in c.order && IndexOf(c.order, Baseline) == b
    requires AfterBuild in c.order && IndexOf(c.order, AfterBuild) == u
    requires AfterRebuild in c.order && IndexOf(c.order, AfterRebuild) == r
    requires AfterEdit in c.order && IndexOf(c.order, AfterEdit) == e
    requires AfterPrune in c.order && IndexOf(c.order, AfterPrune) == p
    ensures b < u < r < e < p
  {
    hide IndexOf;
  }

  lemma CompareFindsPhases(c: Collected, phases: seq<Phase>)
    requires Clean(phases) && Named(phases) && Gathered(c, phases) && InStep(c) && Compare(c) == Some([])
    ensures exists b: nat, u: nat, r: nat, e: nat, p: nat :: PhasesSound(phases, b, u, r, e, p)
  {
    ComparedPresent(c);
    RequiredNames();
    hide Clean, Named, Gathered, NumberProblems, TrendProblems, Written, Trends, Compare, PhaseSound, FiveOf, SummaryOf,
         InRequiredOrder, IndexOf, AllPresent;
    var b := FoundAt(c, phases, Baseline);
    var u := FoundAt(c, phases, AfterBuild);
    var r := FoundAt(c, phases, AfterRebuild);
    var e := FoundAt(c, phases, AfterEdit);
    var p := FoundAt(c, phases, AfterPrune);
    FivePlaced(c, phases, b, u, r, e, p);
    ComparedParts(c);
    StrictlyOrdered(c, phases, b, u, r, e, p);
    assert PhasesSound(phases, b, u, r, e, p);
  }

  lemma PhasesComparedFine(c: Collected, phases: seq<Phase>, b: nat, u: nat, r: nat, e: nat, p: nat)
    requires Clean(phases) && Named(phases) && Gathered(c, phases) && InStep(c) && c.errors == []
    requires PhasesSound(phases, b, u, r, e, p)
    ensures Compare(c) == Some([])
  {
    RequiredNames();
    hide Clean, Named, Gathered, NumberProblems, TrendProblems, Written, Trends, PhaseSound, Compare, FiveOf, SummaryOf;
    PlaceOf(c, phases, b, Baseline);
    PlaceOf(c, phases, u, AfterBuild);
    PlaceOf(c, phases, r, AfterRebuild);
    PlaceOf(c, phases, e, AfterEdit);
    PlaceOf(c, phases, p, AfterPrune);
    assert AllPresent(c.phases) && InRequiredOrder(c.order);
    FivePlaced(c, phases, b, u, r, e, p);
    ComparedParts(c);
  }

  /** The checks report nothing exactly for a sound sequence. */
  lemma SequenceExact(q: Sequence)
    ensures Problems(q) == Some([]) <==> SequenceSound(q)
  {
    HeaderExact(q);
    if HeaderProblems(q).Some? {
      var header := HeaderProblems(q).value;
      var phases := q.phases.value;
      var c := Collect(phases, header);
      CollectedInOrder(phases, header);
      CollectExact(phases, header);
      CompareKeepsErrors(c);
      assert Problems(q) == Compare(c);
      if header == [] && Clean(phases) {
        hide Compare, Clean, Gathered, Collect, HeaderSound, HeaderProblems, Problems, Named, PhasesSound;
        if Compare(c) == Some([]) {
          CompareFindsPhases(c, phases);
        }
        if SequenceSound(q) {
          var b: nat, u: nat, r: nat, e: nat, p: nat :| PhasesSound(phases, b, u, r, e, p);
          PhasesComparedFine(c, phases, b, u, r, e, p);
        }
      }
    }
  }

  lemma ComparisonRaises(c: Collected)
    requires InStep(c) && Compare(c) == None
    ensures AfterEdit in c.phases && c.phases[AfterEdit].Phase? && c.phases[AfterEdit].snapshot.Some?
    ensures var containers := c.phases[AfterEdit].snapshot.value.containers; containers.NotAList? && !containers.iterable
  {
    AllSummarized(c.phases, REQUIRED);
    RequiredNames();
    hide InRequiredOrder, FirstUnsummarized, FiveOf, NumberProblems, TrendProblems, Written;
  }

  /** Whenever the validation raises, problems it has already found are lost. */
  lemma RaiseHidesAnError(q: Sequence)
    requires Problems(q) == None
    ensures HeaderProblems(q).Some? && Collect(q.phases.value, HeaderProblems(q).value).errors != []
  {
    var header := HeaderProblems(q).value;
    var phases := q.phases.value;
    var c := Collect(phases, header);
    CollectedInOrder(phases, header);
    assert Problems(q) == Compare(c);
    ComparisonRaises(c);
    CollectExact(phases, header);
    if Clean(phases) {
      CleanIsNamed(phases);
      hide Clean, Collect, Compare, HeaderProblems, Problems, PhaseSound, Named;
      GatheredIsSound(c, phases, AfterEdit);
    }
  }

  // ---------- exactly when the validation raises ----------

  /** The phase that is collected under this name: the first one that carries it. */
  ghost predicate FirstAt(phases: seq<Phase>, i: nat, name: Name) {
    IsAt(phases, i, name) && forall j: nat :: j < i ==> !IsAt(phases, j, name)
  }

  lemma FirstInPrefix(phases: seq<Phase>, k: nat, i: nat, name: Name)
    requires i < k <= |phases|
    ensures FirstAt(phases[..k], i, name) <==> FirstAt(phases, i, name)
  {
    assert forall j: nat :: j <= i ==> (IsAt(phases[..k], j, name) <==> IsAt(phases, j, name));
  }

  lemma CollectOneName(c: Collected, phase: Phase, index: nat, name: Name)
    ensures var d := CollectOne(c, phase, index);
            && (name in c.phases ==> name in d.phases && d.phases[name] == c.phases[name])
            && (name !in c.phases ==> (name in d.phases <==> phase.Phase? && phase.name == Some(name)))
            && (name !in c.phases && name in d.phases ==> d.phases[name] == phase)
  {
    hide Reported, Errors;
  }

  /** Under each name the first phase that carries it is collected, whatever its snapshot holds. */
  lemma {:induction false} CollectedFirst(phases: seq<Phase>, errors: seq<Problem>, name: Name)
    ensures var c := Collect(phases, errors);
            && (name in c.phases <==> exists i: nat :: FirstAt(phases, i, name))
            && (forall i: nat :: FirstAt(phases, i, name) ==> c.phases[name] == phases[i])
  {
    hide CollectOne;
    if phases != [] {
      var k := |phases| - 1;
      var before := Collect(phases[..k], errors);
      CollectedFirst(phases[..k], errors, name);
      CollectOneName(before, phases[k], k, name);
      forall i: nat | i < k
        ensures FirstAt(phases[..k], i, name) <==> FirstAt(phases, i, name)
      {
        FirstInPrefix(phases, k, i, name);
      }
      LastIsFirst(phases, phases[..k], name, name in before.phases);
    }
  }

  /** The last phase is the first of its name exactly when no phase before it has that name. */
  lemma LastIsFirst(phases: seq<Phase>, rest: seq<Phase>, name: Name, earlier: bool)
    requires phases != [] && rest == phases[..|phases| - 1] && (earlier <==> exists i: nat :: FirstAt(rest, i, name))
    ensures FirstAt(phases, |phases| - 1, name) <==> !earlier && IsAt(phases, |phases| - 1, name)
  {
    var k := |phases| - 1;
    if earlier {
      var i: nat :| FirstAt(rest, i, name);
      assert IsAt(phases, i, name);
    } else if j: nat :| j < k && IsAt(phases, j, name) {
      var i := FirstOf(phases, j, name);
      FirstInPrefix(phases, k, i, name);
    }
  }

  lemma {:induction false} FirstOf(phases: seq<Phase>, j: nat, name: Name) returns (i: nat)
    requires IsAt(phases, j, name)
    ensures i <= j && FirstAt(phases, i, name)
  {
    if l: nat :| l < j && IsAt(phases, l, name) {
      i := FirstOf(phases, l, name);
    } else {
      i := j;
    }
  }

  /** The containers of this snapshot are neither a list nor anything else Python iterates over: a number, a truth value or null. */
  predicate Unlisted(phase: Phase) {
    && phase.Phase? && phase.snapshot.Some?
    && phase.snapshot.value.containers.NotAList? && !phase.snapshot.value.containers.iterable
  }

  /** What the comparison asks of the first phase of a required name before it iterates over the edited containers. */
  predicate ReachesEdit(phase: Phase, name: Name) {
    SummaryOf(phase).Some? && (name == AfterEdit ==> Unlisted(phase))
  }

  ghost predicate ReachedAt(phases: seq<Phase>, name: Name) {
    exists i: nat :: FirstAt(phases, i, name) && ReachesEdit(phases[i], name)
  }

  lemma ReachedInCollection(phases: seq<Phase>, errors: seq<Problem>, name: Name)
    ensures var c := Collect(phases, errors);
            ReachedAt(phases, name) <==> name in c.phases && ReachesEdit(c.phases[name], name)
  {
    hide ReachesEdit, Collect, FirstAt;
    CollectedFirst(phases, errors, name);
  }

  lemma CompareRaisesExact(c: Collected)
    requires InStep(c)
    ensures Compare(c) == None <==> forall name :: name in REQUIRED ==> name in c.phases && ReachesEdit(c.phases[name], name)
  {
    RequiredNames();
    if AllPresent(c.phases) {
      if FirstUnsummarized(c.phases, REQUIRED) == None {
        AllSummarized(c.phases, REQUIRED);
      } else if forall name :: name in REQUIRED ==> SummaryOf(c.phases[name]).Some? {
        NoneUnsummarized(c.phases, REQUIRED);
      }
      hide InRequiredOrder, FirstUnsummarized, FiveOf, NumberProblems, TrendProblems, Written, SummaryOf;
    }
  }

  /**
   * The validation raises exactly when the header can be read, every required name is carried by some
   * phase, the first phase of each has a summary, and the containers after the edit cannot be iterated.
   */
  lemma RaiseExact(q: Sequence)
    ensures Problems(q) == None <==>
            && q.metadata.Some? && |q.metadata.value| == 3 && q.phases.Some?
            && forall name :: name in REQUIRED ==> ReachedAt(q.phases.value, name)
  {
    if HeaderProblems(q).Some? {
      var header := HeaderProblems(q).value;
      var c := Collect(q.phases.value, header);
      CollectedInOrder(q.phases.value, header);
      assert Problems(q) == Compare(c);
      hide Compare, Collect, ReachedAt, ReachesEdit, Problems;
      CompareRaisesExact(c);
      forall name
        ensures ReachedAt(q.phases.value, name) <==> name in c.phases && ReachesEdit(c.phases[name], name)
      {
        ReachedInCollection(q.phases.value, header, name);
      }
    }
  }

  // ---------- one sequence that raises ----------

  /** A phase whose snapshot has an empty summary and null for its containers. */
  function NullPhase(name: string): Json {
    Obj([Member("name", Str(name)),
         Member("snapshot", Obj([Member("system_df", Obj([])), Member("containers", Null)]))])
  }

  function NullSequence(): Json {
    Obj([Member("phases", List([NullPhase("baseline"), NullPhase("after-build"), NullPhase("after-rebuild"),
                                NullPhase("after-edit"), NullPhase("after-prune")]))])
  }

  lemma ReadNullPhase(render: Json -> string, name: string)
    requires name != ""
    ensures var phase := ReadPhase(render, NullPhase(name));
            phase.Phase? && phase.name == Some(NameOf(name)) && SummaryOf(phase).Some? && Unlisted(phase)
  {
    hide NameOf, ReadNotes, ReadFields;
    var value := NullPhase(name);
    assert value.fields[1..][0].key == "snapshot" && value.fields[0].key != "snapshot";
    var snapshot := value.fields[1].value;
    assert Lookup(value.fields[1..], "snapshot") == Some(snapshot);
    assert snapshot.fields[1..][0].key == "containers" && snapshot.fields[0].key != "containers";
    assert Lookup(snapshot.fields[1..], "containers") == Some(Null);
  }

  lemma NamesOfPhases()
    ensures NameOf("baseline") == Baseline && NameOf("after-build") == AfterBuild && NameOf("after-rebuild") == AfterRebuild
    ensures NameOf("after-edit") == AfterEdit && NameOf("after-prune") == AfterPrune
  {
  }

  lemma ReadNullSequence(render: Json -> string)
    ensures var q := ReadSequence(render, NullSequence());
            && q.metadata.Some? && |q.metadata.value| == 3 && q.phases.Some?
            && q.phases.value == [
                 ReadPhase(render, NullPhase("baseline")), ReadPhase(render, NullPhase("after-build")),
                 ReadPhase(render, NullPhase("after-rebuild")), ReadPhase(render, NullPhase("after-edit")),
                 ReadPhase(render, NullPhase("after-prune"))]
  {
    hide ReadPhase, NullPhase;
    var value := NullSequence();
    assert value.fields[0].key == "phases" && value.fields[0].key != "metadata";
    assert value.fields[1..] == [];
    assert Field(value, "phases").items == value.fields[0].value.items;
  }

  /** Null containers everywhere: instead of reporting the wrong schema and the rest, the validation raises. */
  lemma NullContainersRaise(render: Json -> string)
    ensures Problems(ReadSequence(render, NullSequence())) == None
  {
    hide ReadPhase, NullPhase, ReadSequence, NullSequence, SummaryOf, Unlisted, NameOf, Problems;
    ReadNullSequence(render);
    NamesOfPhases();
    ReadNullPhase(render, "baseline");
    ReadNullPhase(render, "after-build");
    ReadNullPhase(render, "after-rebuild");
    ReadNullPhase(render, "after-edit");
    ReadNullPhase(render, "after-prune");
    var q := ReadSequence(render, NullSequence());
    RequiredNames();
    FiveReached(q.phases.value);
    RaiseExact(q);
  }

  lemma FiveReached(phases: seq<Phase>)
    requires |phases| == 5
    requires forall k :: 0 <= k < 5 ==> IsAt(phases, k, REQUIRED[k]) && SummaryOf(phases[k]).Some? && Unlisted(phases[k])
    ensures forall name :: name in REQUIRED ==> ReachedAt(phases, name)
  {
    hide SummaryOf, Unlisted;
    forall name | name in REQUIRED
      ensures ReachedAt(phases, name)
    {
      var k :| 0 <= k < 5 && REQUIRED[k] == name;
      assert FirstAt(phases, k, name);
    }
  }

  lemma GatheredIsSound(c: Collected, phases: seq<Phase>, name: Name)
    requires Clean(phases) && Named(phases) && Gathered(c, phases) && name in c.phases
    ensures PhaseSound(c.phases[name]) && c.phases[name].snapshot.value.containers.Items?
  {
    assert name in c.order;
    var i := FoundAt(c, phases, name);
    SoundContainers(phases[i]);
  }

  lemma CompareKeepsErrors(c: Collected)
    requires InStep(c)
    ensures Compare(c) == Some([]) ==> c.errors == []
  {
    hide InRequiredOrder, FirstUnsummarized, FiveOf, NumberProblems, TrendProblems, Written;
  }

  /**
   * The law between rebuild and edit: shared layers, volumes and the build cache together lose no
   * more than the containers' writable layers gain.
   */
  lemma EditConserves(q: Sequence) returns (rebuild: Summary, edit: Summary)
    requires Problems(q) == Some([])
    ensures exists r: nat, e: nat :: r < e && IsAt(q.phases.value, r, AfterRebuild) && IsAt(q.phases.value, e, AfterEdit)
              && SummaryOf(q.phases.value[r]) == Some(rebuild) && SummaryOf(q.phases.value[e]) == Some(edit)
    ensures Overlapped(rebuild) - Overlapped(edit) <= Amount(edit, ContainerUpperBytes) - Amount(rebuild, ContainerUpperBytes)
    ensures Amount(rebuild, ContainerUpperBytes) < Amount(edit, ContainerUpperBytes)
  {
    SequenceExact(q);
    hide Problems, Clean, Trends;
    var phases := q.phases.value;
    var b: nat, u: nat, r: nat, e: nat, p: nat :| PhasesSound(phases, b, u, r, e, p);
    rebuild, edit := SummaryOf(phases[r]).value, SummaryOf(phases[e]).value;
    assert IsAt(phases, r, AfterRebuild) && IsAt(phases, e, AfterEdit);
    CleanAt(phases, r);
    CleanAt(phases, e);
    UniqueIsSum(phases[r]);
    UniqueIsSum(phases[e]);
    TrendsBetween(Five(SummaryOf(phases[b]).value, SummaryOf(phases[u]).value, rebuild, edit, SummaryOf(phases[p]).value));
  }

  /** What is shared between images and containers, or kept beside them. */
  function Overlapped(s: Summary): real {
    Amount(s, SharedLayerBytes) + Amount(s, VolumeBytes) + Amount(s, BuildCacheBytes)
  }

  lemma CleanAt(phases: seq<Phase>, i: nat)
    requires Clean(phases) && i < |phases|
    ensures PhaseSound(phases[i])
  {
    hide PhaseSound;
  }

  lemma UniqueIsSum(phase: Phase)
    requires PhaseSound(phase)
    ensures SummaryOf(phase).Some?
    ensures var s := SummaryOf(phase).value; Amount(s, UniqueBytes) == Overlapped(s) + Amount(s, ContainerUpperBytes)
  {
    hide Number, ImageSound, ContainerSound;
  }

  lemma TrendsBetween(f: Five)
    requires Trends(f)
    ensures Amount(f.rebuild, UniqueBytes) <= Amount(f.edit, UniqueBytes)
    ensures Amount(f.rebuild, ContainerUpperBytes) < Amount(f.edit, ContainerUpperBytes)
  {
    hide Amount;
  }
}

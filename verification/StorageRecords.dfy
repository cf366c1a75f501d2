/** Sound storage snapshots and sequences in terms of the recorded JSON: which member of which object holds what. */
module StorageRecords {
  import opened Options
  import opened Text
  import opened Json
  import opened StorageSnapshot
  import StorageSequence

  /** When the member is there it holds a number that is not negative. */
  predicate CountedAt(value: Json, key: string) {
    Has(value, key) ==> IsNumber(Field(value, key)) && NumberOf(Field(value, key)) >= 0.0
  }

  /** The number a member holds; nothing else counts. */
  function Amount(value: Json, key: string): real {
    if IsNumber(Field(value, key)) then NumberOf(Field(value, key)) else 0.0
  }

  /** The notes, their keys included, say in any case of letters what they have to say. */
  predicate NotesRecorded(render: Json -> string, summary: Json) {
    var notes := Field(summary, "PdockerStorage");
    && notes.Obj?
    && var text := Lower(Join(" ", NotePairs(render, notes.fields)));
       && Contains(text, "shared") && Contains(text, "layer")
       && (Contains(text, "must not be added") || Contains(text, "do not add"))
       && (Contains(text, "upper") || Contains(text, "private"))
  }

  predicate SummaryCounted(v: Json) {
    && CountedAt(v, "SharedLayerBytes") && CountedAt(v, "ImageViewBytes") && CountedAt(v, "ContainerUpperBytes")
    && CountedAt(v, "UniqueBytes") && CountedAt(v, "TotalBytes") && CountedAt(v, "FreeBytes")
    && CountedAt(v, "RootfsViewBytes") && CountedAt(v, "VolumeBytes") && CountedAt(v, "BuildCacheBytes")
    && Has(v, "SharedLayerBytes") && Has(v, "ContainerUpperBytes") && Has(v, "UniqueBytes")
  }

  predicate SummaryAddsUp(v: Json) {
    && Amount(v, "UniqueBytes") ==
         Amount(v, "SharedLayerBytes") + Amount(v, "ContainerUpperBytes") + Amount(v, "VolumeBytes") + Amount(v, "BuildCacheBytes")
    && (Has(v, "ImageViewBytes") && Has(v, "TotalBytes") ==>
          Amount(v, "TotalBytes") != Amount(v, "UniqueBytes") + Amount(v, "ImageViewBytes"))
    && (Has(v, "TotalBytes") && Has(v, "FreeBytes") ==> Amount(v, "FreeBytes") <= Amount(v, "TotalBytes"))
    && (Has(v, "RootfsViewBytes") ==> Amount(v, "ContainerUpperBytes") <= Amount(v, "RootfsViewBytes"))
  }

  predicate ImageRecorded(v: Json) {
    && v.Obj?
    && Has(v, "VirtualSize") && Has(v, "SharedSize") && Has(v, "UniqueSize")
    && CountedAt(v, "VirtualSize") && CountedAt(v, "SharedSize") && CountedAt(v, "UniqueSize")
    && Amount(v, "SharedSize") + Amount(v, "UniqueSize") == Amount(v, "VirtualSize")
  }

  predicate ContainerRecorded(v: Json) {
    && v.Obj?
    && Has(v, "SizeRw") && CountedAt(v, "SizeRw") && CountedAt(v, "SizeRootFs")
    && (Has(v, "SizeRootFs") ==> Amount(v, "SizeRw") <= Amount(v, "SizeRootFs"))
  }

  predicate SnapshotRecorded(render: Json -> string, value: Json) {
    var summary, images, containers := Field(value, "system_df"), Field(value, "images"), Field(value, "containers");
    && summary.Obj? && SummaryCounted(summary) && NotesRecorded(render, summary) && SummaryAddsUp(summary)
    && images.List? && images.items != [] && (forall i :: 0 <= i < |images.items| ==> ImageRecorded(images.items[i]))
    && (Has(value, "containers") ==>
          containers.List? && forall i :: 0 <= i < |containers.items| ==> ContainerRecorded(containers.items[i]))
  }

  /** What one member is read as. */
  lemma Reads(v: Json, key: Key, name: string)
    requires Spelling(key) == name
    ensures var f := ReadFields(v)(key);
            && (Counted(f) <==> CountedAt(v, name))
            && (f.Some? <==> Has(v, name))
            && Number(f) == Amount(v, name)
  {
    hide Lookup, Spelling;
  }

  lemma CountedReads(v: Json)
    ensures KeysSound(ReadFields(v)) <==> SummaryCounted(v)
  {
    hide Counted, CountedAt, Has, ReadFields, Number, Amount, Spelling;
    SummarySpellings();
    Reads(v, SharedLayerBytes, "SharedLayerBytes");
    Reads(v, ImageViewBytes, "ImageViewBytes");
    Reads(v, ContainerUpperBytes, "ContainerUpperBytes");
    Reads(v, UniqueBytes, "UniqueBytes");
    Reads(v, TotalBytes, "TotalBytes");
    Reads(v, FreeBytes, "FreeBytes");
    Reads(v, RootfsViewBytes, "RootfsViewBytes");
    Reads(v, VolumeBytes, "VolumeBytes");
    Reads(v, BuildCacheBytes, "BuildCacheBytes");
    SummaryKeysAre(ReadFields(v));
  }

  lemma SummarySpellings()
    ensures Spelling(SharedLayerBytes) == "SharedLayerBytes" && Spelling(ImageViewBytes) == "ImageViewBytes"
    ensures Spelling(ContainerUpperBytes) == "ContainerUpperBytes" && Spelling(UniqueBytes) == "UniqueBytes"
    ensures Spelling(TotalBytes) == "TotalBytes" && Spelling(FreeBytes) == "FreeBytes"
    ensures Spelling(RootfsViewBytes) == "RootfsViewBytes" && Spelling(VolumeBytes) == "VolumeBytes"
    ensures Spelling(BuildCacheBytes) == "BuildCacheBytes"
  {
  }

  lemma SummaryKeysAre(f: Fields)
    ensures (forall key :: key in SUMMARY_KEYS ==> Counted(f(key))) <==>
            && Counted(f(SharedLayerBytes)) && Counted(f(ImageViewBytes)) && Counted(f(ContainerUpperBytes))
            && Counted(f(UniqueBytes)) && Counted(f(TotalBytes)) && Counted(f(FreeBytes))
            && Counted(f(RootfsViewBytes)) && Counted(f(VolumeBytes)) && Counted(f(BuildCacheBytes))
    ensures (forall key :: key in REQUIRED_KEYS ==> f(key).Some?) <==>
            f(SharedLayerBytes).Some? && f(ContainerUpperBytes).Some? && f(UniqueBytes).Some?
  {
    hide Counted;
    assert SharedLayerBytes in SUMMARY_KEYS && ImageViewBytes in SUMMARY_KEYS && ContainerUpperBytes in SUMMARY_KEYS;
    assert UniqueBytes in SUMMARY_KEYS && TotalBytes in SUMMARY_KEYS && FreeBytes in SUMMARY_KEYS;
    assert RootfsViewBytes in SUMMARY_KEYS && VolumeBytes in SUMMARY_KEYS && BuildCacheBytes in SUMMARY_KEYS;
    assert SharedLayerBytes in REQUIRED_KEYS && ContainerUpperBytes in REQUIRED_KEYS && UniqueBytes in REQUIRED_KEYS;
  }

  lemma NotesRead(render: Json -> string, summary: Json)
    ensures var notes := ReadNotes(render, Get(summary, "PdockerStorage"));
            notes.Some? && SharedNoted(notes.value) && OverlapNoted(notes.value) && UpperNoted(notes.value)
            <==> NotesRecorded(render, summary)
  {
    hide Lookup, Lower, Join, NotePairs;
  }

  lemma SumsRead(v: Json)
    ensures var f := ReadFields(v);
            && Number(f(UniqueBytes)) == Components(f)
            && (f(ImageViewBytes).Some? && f(TotalBytes).Some? ==>
                  Number(f(TotalBytes)) != Number(f(UniqueBytes)) + Number(f(ImageViewBytes)))
            && (f(TotalBytes).Some? && f(FreeBytes).Some? ==> Number(f(FreeBytes)) <= Number(f(TotalBytes)))
            && (f(RootfsViewBytes).Some? ==> Number(f(ContainerUpperBytes)) <= Number(f(RootfsViewBytes)))
            <==> SummaryAddsUp(v)
  {
    hide Number, Amount, Has, ReadFields, Counted, CountedAt, Spelling;
    SummarySpellings();
    Reads(v, SharedLayerBytes, "SharedLayerBytes");
    Reads(v, ImageViewBytes, "ImageViewBytes");
    Reads(v, ContainerUpperBytes, "ContainerUpperBytes");
    Reads(v, UniqueBytes, "UniqueBytes");
    Reads(v, TotalBytes, "TotalBytes");
    Reads(v, FreeBytes, "FreeBytes");
    Reads(v, RootfsViewBytes, "RootfsViewBytes");
    Reads(v, VolumeBytes, "VolumeBytes");
    Reads(v, BuildCacheBytes, "BuildCacheBytes");
  }

  lemma SummaryReads(render: Json -> string, v: Json)
    requires v.Obj?
    ensures SummarySound(Summary(ReadFields(v), ReadNotes(render, Get(v, "PdockerStorage")))) <==>
            SummaryCounted(v) && NotesRecorded(render, v) && SummaryAddsUp(v)
  {
    CountedReads(v);
    NotesRead(render, v);
    SumsRead(v);
    hide ReadFields, ReadNotes, Get, SummaryCounted, NotesRecorded, SummaryAddsUp, SharedNoted, OverlapNoted, UpperNoted, Components,
         Number, Counted;
  }

  lemma ImageReads(v: Json)
    ensures ReadRow(v).Some? && ImageSound(ReadRow(v).value) <==> ImageRecorded(v)
  {
    hide Number, Amount, Has, ReadFields, Counted, CountedAt, ImageSound, Spelling;
    if v.Obj? {
      RowSpellings();
      Reads(v, VirtualSize, "VirtualSize");
      Reads(v, SharedSize, "SharedSize");
      Reads(v, UniqueSize, "UniqueSize");
      ImageParts(ReadFields(v));
    }
  }

  lemma RowSpellings()
    ensures Spelling(VirtualSize) == "VirtualSize" && Spelling(SharedSize) == "SharedSize"
    ensures Spelling(UniqueSize) == "UniqueSize" && Spelling(SizeRw) == "SizeRw" && Spelling(SizeRootFs) == "SizeRootFs"
  {
  }

  lemma ImageParts(f: Fields)
    ensures ImageSound(f) <==>
            && f(VirtualSize).Some? && f(SharedSize).Some? && f(UniqueSize).Some?
            && Counted(f(VirtualSize)) && Counted(f(SharedSize)) && Counted(f(UniqueSize))
            && Number(f(SharedSize)) + Number(f(UniqueSize)) == Number(f(VirtualSize))
  {
    hide Counted, Number;
    assert VirtualSize in IMAGE_KEYS && SharedSize in IMAGE_KEYS && UniqueSize in IMAGE_KEYS;
  }

  lemma ContainerReads(v: Json)
    ensures ReadRow(v).Some? && ContainerSound(ReadRow(v).value) <==> ContainerRecorded(v)
  {
    hide Number, Amount, Has, ReadFields, Counted, CountedAt, Spelling;
    if v.Obj? {
      RowSpellings();
      Reads(v, SizeRw, "SizeRw");
      Reads(v, SizeRootFs, "SizeRootFs");
    }
  }

  lemma ImagesRead(items: seq<Json>)
    ensures var rows := ReadRows(Some(List(items)));
            && rows.Items? && |rows.rows| == |items|
            && ((forall i :: 0 <= i < |items| ==> rows.rows[i].Some? && ImageSound(rows.rows[i].value)) <==>
                forall i :: 0 <= i < |items| ==> ImageRecorded(items[i]))
  {
    hide ReadRow, ImageSound, ImageRecorded;
    var rows := ReadRows(Some(List(items))).rows;
    forall i | 0 <= i < |items|
      ensures rows[i].Some? && ImageSound(rows[i].value) <==> ImageRecorded(items[i])
    {
      ImageReads(items[i]);
    }
  }

  lemma ContainersRead(items: seq<Json>)
    ensures var rows := ReadRows(Some(List(items)));
            && rows.Items? && |rows.rows| == |items|
            && ((forall i :: 0 <= i < |items| ==> rows.rows[i].Some? && ContainerSound(rows.rows[i].value)) <==>
                forall i :: 0 <= i < |items| ==> ContainerRecorded(items[i]))
  {
    hide ReadRow, ContainerSound, ContainerRecorded;
    var rows := ReadRows(Some(List(items))).rows;
    forall i | 0 <= i < |items|
      ensures rows[i].Some? && ContainerSound(rows[i].value) <==> ContainerRecorded(items[i])
    {
      ContainerReads(items[i]);
    }
  }

  lemma Members(value: Json, key: string)
    ensures Get(value, key).Some? <==> Has(value, key)
    ensures Has(value, key) ==> Get(value, key) == Some(Field(value, key))
    ensures !Has(value, key) ==> Field(value, key) == Null
  {
  }

  /** The checks report nothing exactly when every member of the recorded snapshot holds what it must. */
  lemma SnapshotOnRecord(render: Json -> string, value: Json)
    ensures Errors(ReadSnapshot(render, value)) == [] <==> SnapshotRecorded(render, value)
  {
    hide Errors, SummarySound, ImageSound, ContainerSound, SummaryCounted, NotesRecorded, SummaryAddsUp, ImageRecorded,
         ContainerRecorded, ReadFields, ReadNotes, Get, Has, Field, ReadRow;
    ErrorsExact(ReadSnapshot(render, value));
    Members(value, "system_df");
    Members(value, "images");
    Members(value, "containers");
    if Field(value, "system_df").Obj? {
      SummaryReads(render, Field(value, "system_df"));
    }
    if Field(value, "images").List? {
      ImagesRead(Field(value, "images").items);
    }
    if Field(value, "containers").List? {
      ContainersRead(Field(value, "containers").items);
    }
  }

  // ---------- sequences ----------

  predicate NotBlank(value: Json) {
    value.Str? && Strip(value.s) != ""
  }

  predicate HeaderRecorded(value: Json) {
    var metadata := Field(value, "metadata");
    && Field(value, "schema") == Str("pdocker.storage.metrics.sequence.v1")
    && metadata.Obj?
    && NotBlank(Field(metadata, "device")) && NotBlank(Field(metadata, "build_sha")) && NotBlank(Field(metadata, "package"))
    && Field(value, "phases").List?
  }

  predicate PhaseRecorded(render: Json -> string, phase: Json) {
    && phase.Obj?
    && Field(phase, "name").Str? && Field(phase, "name") != Str("")
    && Field(phase, "snapshot").Obj? && SnapshotRecorded(render, Field(phase, "snapshot"))
  }

  predicate CleanRecorded(render: Json -> string, phases: seq<Json>) {
    && (forall i :: 0 <= i < |phases| ==> PhaseRecorded(render, phases[i]))
    && (forall i, j :: 0 <= i < j < |phases| ==> Field(phases[i], "name") != Field(phases[j], "name"))
  }

  predicate IsPhase(phases: seq<Json>, i: nat, name: string) {
    i < |phases| && Field(phases[i], "name") == Str(name)
  }

  /** A number of the summary of a phase. */
  function AmountIn(phase: Json, key: string): real {
    Amount(Field(Field(phase, "snapshot"), "system_df"), key)
  }

  predicate TrendsRecorded(b: Json, u: Json, r: Json, e: Json, p: Json) {
    && AmountIn(b, "UniqueBytes") <= AmountIn(u, "UniqueBytes")
    && AmountIn(r, "UniqueBytes") <= AmountIn(u, "UniqueBytes")
    && AmountIn(r, "SharedLayerBytes") <= AmountIn(u, "SharedLayerBytes")
    && AmountIn(r, "ContainerUpperBytes") < AmountIn(e, "ContainerUpperBytes")
    && AmountIn(r, "UniqueBytes") <= AmountIn(e, "UniqueBytes")
    && AmountIn(p, "UniqueBytes") <= AmountIn(e, "UniqueBytes")
  }

  /** Some container of the edited snapshot has written something. */
  predicate SomethingWritten(phase: Json) {
    var containers := Field(Field(phase, "snapshot"), "containers");
    containers.List? && exists i :: 0 <= i < |containers.items| && Amount(containers.items[i], "SizeRw") > 0.0
  }

  predicate OrderRecorded(phases: seq<Json>, b: nat, u: nat, r: nat, e: nat, p: nat) {
    && b < u < r < e < p
    && IsPhase(phases, b, "baseline") && IsPhase(phases, u, "after-build") && IsPhase(phases, r, "after-rebuild")
    && IsPhase(phases, e, "after-edit") && IsPhase(phases, p, "after-prune")
    && TrendsRecorded(phases[b], phases[u], phases[r], phases[e], phases[p])
    && SomethingWritten(phases[e])
  }

  ghost predicate SequenceRecorded(render: Json -> string, value: Json) {
    && HeaderRecorded(value)
    && CleanRecorded(render, Field(value, "phases").items)
    && exists b: nat, u: nat, r: nat, e: nat, p: nat :: OrderRecorded(Field(value, "phases").items, b, u, r, e, p)
  }

  lemma HeaderReads(render: Json -> string, value: Json)
    ensures StorageSequence.HeaderSound(StorageSequence.ReadSequence(render, value)) <==> HeaderRecorded(value)
  {
    Members(value, "metadata");
    hide Get, Has, Strip, StorageSequence.ReadPhase;
    var q := StorageSequence.ReadSequence(render, value);
    var metadata := Field(value, "metadata");
    hide Field;
    if q.metadata.Some? && metadata.Obj? {
      assert q.metadata.value[0] == NotBlank(Field(metadata, "device"));
      assert q.metadata.value[1] == NotBlank(Field(metadata, "build_sha"));
      assert q.metadata.value[2] == NotBlank(Field(metadata, "package"));
    } else if q.metadata.Some? {
      NoMembers("device");
      assert !q.metadata.value[0];
    }
  }

  lemma NoMembers(key: string)
    ensures Field(Obj([]), key) == Null
  {
  }

  lemma NamesDiffer(s: string, t: string)
    ensures StorageSequence.NameOf(s) == StorageSequence.NameOf(t) <==> s == t
  {
  }

  lemma RequiredNames(s: string)
    ensures StorageSequence.NameOf(s) == StorageSequence.Baseline <==> s == "baseline"
    ensures StorageSequence.NameOf(s) == StorageSequence.AfterBuild <==> s == "after-build"
    ensures StorageSequence.NameOf(s) == StorageSequence.AfterRebuild <==> s == "after-rebuild"
    ensures StorageSequence.NameOf(s) == StorageSequence.AfterEdit <==> s == "after-edit"
    ensures StorageSequence.NameOf(s) == StorageSequence.AfterPrune <==> s == "after-prune"
  {
  }

  lemma PhaseReads(render: Json -> string, phase: Json)
    ensures StorageSequence.PhaseSound(StorageSequence.ReadPhase(render, phase)) <==> PhaseRecorded(render, phase)
  {
    SnapshotOnRecord(render, Field(phase, "snapshot"));
    ErrorsExact(ReadSnapshot(render, Field(phase, "snapshot")));
    hide Field, Errors, ReadSnapshot, SnapshotSound, SnapshotRecorded, StorageSequence.NameOf;
  }

  function Phases(render: Json -> string, items: seq<Json>): (r: seq<StorageSequence.Phase>)
    ensures |r| == |items| && forall i :: 0 <= i < |items| ==> r[i] == StorageSequence.ReadPhase(render, items[i])
  {
    seq(|items|, i requires 0 <= i < |items| => StorageSequence.ReadPhase(render, items[i]))
  }

  lemma NameReads(render: Json -> string, phase: Json)
    requires PhaseRecorded(render, phase)
    ensures var read := StorageSequence.ReadPhase(render, phase);
            && read.Phase? && read.name == Some(StorageSequence.NameOf(Field(phase, "name").s))
            && read.snapshot == Some(ReadSnapshot(render, Field(phase, "snapshot")))
  {
    hide Field, ReadSnapshot, SnapshotRecorded, StorageSequence.NameOf;
  }

  lemma CleanReads(render: Json -> string, items: seq<Json>)
    ensures StorageSequence.Clean(Phases(render, items)) <==> CleanRecorded(render, items)
  {
    hide StorageSequence.PhaseSound, PhaseRecorded, StorageSequence.ReadPhase, Field, StorageSequence.NameOf;
    forall i | 0 <= i < |items|
      ensures StorageSequence.PhaseSound(Phases(render, items)[i]) <==> PhaseRecorded(render, items[i])
    {
      PhaseReads(render, items[i]);
    }
    if forall i :: 0 <= i < |items| ==> PhaseRecorded(render, items[i]) {
      PhasesAreNamed(render, items);
      forall i, j | 0 <= i < j < |items|
        ensures Phases(render, items)[i].name == Phases(render, items)[j].name <==>
                Field(items[i], "name") == Field(items[j], "name")
      {
        SameNameReads(render, items[i], items[j]);
      }
    } else {
      var i :| 0 <= i < |items| && !PhaseRecorded(render, items[i]);
      assert !StorageSequence.PhaseSound(Phases(render, items)[i]);
    }
  }

  lemma SameNameReads(render: Json -> string, a: Json, b: Json)
    requires PhaseRecorded(render, a) && PhaseRecorded(render, b)
    ensures StorageSequence.ReadPhase(render, a).Phase? && StorageSequence.ReadPhase(render, b).Phase?
    ensures StorageSequence.ReadPhase(render, a).name == StorageSequence.ReadPhase(render, b).name <==>
            Field(a, "name") == Field(b, "name")
  {
    NameReads(render, a);
    NameReads(render, b);
    NamesDiffer(Field(a, "name").s, Field(b, "name").s);
    hide Field, StorageSequence.ReadPhase, StorageSequence.NameOf, SnapshotRecorded, ReadSnapshot;
  }

  lemma PhasesAreNamed(render: Json -> string, items: seq<Json>)
    requires forall i :: 0 <= i < |items| ==> PhaseRecorded(render, items[i])
    ensures StorageSequence.Named(Phases(render, items))
  {
    hide PhaseRecorded, StorageSequence.ReadPhase, Field;
    forall i | 0 <= i < |items|
      ensures Phases(render, items)[i].Phase? && Phases(render, items)[i].name.Some?
    {
      NameReads(render, items[i]);
    }
  }

  lemma SummaryOfPhase(render: Json -> string, phase: Json)
    requires PhaseRecorded(render, phase)
    ensures var summary := StorageSequence.SummaryOf(StorageSequence.ReadPhase(render, phase));
            && summary.Some?
            && StorageSequence.Amount(summary.value, UniqueBytes) == AmountIn(phase, "UniqueBytes")
            && StorageSequence.Amount(summary.value, SharedLayerBytes) == AmountIn(phase, "SharedLayerBytes")
            && StorageSequence.Amount(summary.value, ContainerUpperBytes) == AmountIn(phase, "ContainerUpperBytes")
  {
    NameReads(render, phase);
    var snapshot := Field(phase, "snapshot");
    var v := Field(snapshot, "system_df");
    Members(snapshot, "system_df");
    SummarySpellings();
    Reads(v, UniqueBytes, "UniqueBytes");
    Reads(v, SharedLayerBytes, "SharedLayerBytes");
    Reads(v, ContainerUpperBytes, "ContainerUpperBytes");
    hide Field, Get, ReadFields, Number, Amount, Spelling, ReadNotes, ReadRows, StorageSequence.ReadPhase, StorageSequence.NameOf,
         SummaryCounted, NotesRecorded, SummaryAddsUp, ImageRecorded, ContainerRecorded;
  }

  lemma WrittenReads(render: Json -> string, phase: Json)
    requires PhaseRecorded(render, phase)
    ensures var read := StorageSequence.ReadPhase(render, phase);
            read.Phase? && read.snapshot.Some?
            && (StorageSequence.Written(read.snapshot.value.containers) <==> SomethingWritten(phase))
  {
    NameReads(render, phase);
    var snapshot := Field(phase, "snapshot");
    Members(snapshot, "containers");
    RecordedRows(render, snapshot);
    hide Field, Get, Has, ReadSnapshot, ReadRow, Number, Amount, StorageSequence.ReadPhase, StorageSequence.NameOf, SnapshotRecorded,
         StorageSequence.WrittenRow;
    var containers := Field(snapshot, "containers");
    if containers.List? {
      var rows := ReadRows(Some(containers)).rows;
      forall i | 0 <= i < |containers.items|
        ensures StorageSequence.WrittenRow(rows[i]) <==> Amount(containers.items[i], "SizeRw") > 0.0
      {
        RowWritten(containers.items[i]);
      }
    }
  }

  lemma RecordedRows(render: Json -> string, snapshot: Json)
    requires SnapshotRecorded(render, snapshot)
    ensures var containers := Field(snapshot, "containers");
            && (containers.List? || !Has(snapshot, "containers"))
            && ReadSnapshot(render, snapshot).containers ==
                 (if containers.List? then ReadRows(Some(containers)) else Items([]))
  {
    Members(snapshot, "containers");
    hide Field, Get, Has, ReadRow, ReadSummary, SummaryCounted, NotesRecorded, SummaryAddsUp, ImageRecorded, ContainerRecorded;
  }

  lemma RowWritten(v: Json)
    ensures StorageSequence.WrittenRow(ReadRow(v)) <==> Amount(v, "SizeRw") > 0.0
  {
    RowSpellings();
    Reads(v, SizeRw, "SizeRw");
    hide ReadFields, Spelling, Counted, CountedAt;
    if !v.Obj? {
      assert Field(v, "SizeRw") == Null;
    }
  }

  lemma PhaseIsNamed(render: Json -> string, items: seq<Json>, i: nat)
    requires i < |items| && PhaseRecorded(render, items[i])
    ensures StorageSequence.IsAt(Phases(render, items), i, StorageSequence.Baseline) <==> IsPhase(items, i, "baseline")
    ensures StorageSequence.IsAt(Phases(render, items), i, StorageSequence.AfterBuild) <==> IsPhase(items, i, "after-build")
    ensures StorageSequence.IsAt(Phases(render, items), i, StorageSequence.AfterRebuild) <==> IsPhase(items, i, "after-rebuild")
    ensures StorageSequence.IsAt(Phases(render, items), i, StorageSequence.AfterEdit) <==> IsPhase(items, i, "after-edit")
    ensures StorageSequence.IsAt(Phases(render, items), i, StorageSequence.AfterPrune) <==> IsPhase(items, i, "after-prune")
  {
    NameReads(render, items[i]);
    RequiredNames(Field(items[i], "name").s);
    hide StorageSequence.NameOf, StorageSequence.ReadPhase, SnapshotRecorded, Field, ReadSnapshot;
  }

  lemma OrderReads(render: Json -> string, items: seq<Json>, b: nat, u: nat, r: nat, e: nat, p: nat)
    requires forall i :: 0 <= i < |items| ==> PhaseRecorded(render, items[i])
    ensures StorageSequence.PhasesSound(Phases(render, items), b, u, r, e, p) <==> OrderRecorded(items, b, u, r, e, p)
  {
    hide StorageSequence.ReadPhase, PhaseRecorded, StorageSequence.SummaryOf, AmountIn, StorageSequence.Amount, SomethingWritten,
         StorageSequence.Written, StorageSequence.IsAt, IsPhase, Phases;
    if b < u < r < e < p < |items| {
      PhaseIsNamed(render, items, b);
      PhaseIsNamed(render, items, u);
      PhaseIsNamed(render, items, r);
      PhaseIsNamed(render, items, e);
      PhaseIsNamed(render, items, p);
      SummaryOfPhase(render, items[b]);
      SummaryOfPhase(render, items[u]);
      SummaryOfPhase(render, items[r]);
      SummaryOfPhase(render, items[e]);
      SummaryOfPhase(render, items[p]);
      WrittenReads(render, items[e]);
    } else {
      LastInRange(render, items, p);
    }
  }

  lemma LastInRange(render: Json -> string, items: seq<Json>, p: nat)
    ensures StorageSequence.IsAt(Phases(render, items), p, StorageSequence.AfterPrune) ==> p < |items|
    ensures IsPhase(items, p, "after-prune") ==> p < |items|
  {
  }

  /** The sequence checks report nothing exactly when every member of the recorded sequence holds what it must. */
  lemma SequenceOnRecord(render: Json -> string, value: Json)
    ensures StorageSequence.Problems(StorageSequence.ReadSequence(render, value)) == Some([]) <==> SequenceRecorded(render, value)
  {
    var q := StorageSequence.ReadSequence(render, value);
    StorageSequence.SequenceExact(q);
    HeaderReads(render, value);
    hide StorageSequence.Problems, StorageSequence.HeaderSound, HeaderRecorded, StorageSequence.ReadPhase, StorageSequence.Clean,
         CleanRecorded, StorageSequence.PhasesSound, OrderRecorded, StorageSequence.ReadMetadata;
    if HeaderRecorded(value) {
      HeaderHasPhases(value);
      var items := Field(value, "phases").items;
      assert q.phases == Some(Phases(render, items));
      CleanReads(render, items);
      if CleanRecorded(render, items) {
        CleanPhases(render, items);
        forall b: nat, u: nat, r: nat, e: nat, p: nat
          ensures StorageSequence.PhasesSound(Phases(render, items), b, u, r, e, p) <==> OrderRecorded(items, b, u, r, e, p)
        {
          OrderReads(render, items, b, u, r, e, p);
        }
      }
    }
  }

  lemma HeaderHasPhases(value: Json)
    requires HeaderRecorded(value)
    ensures Field(value, "phases").List?
  {
    hide Field;
  }

  lemma CleanPhases(render: Json -> string, items: seq<Json>)
    requires CleanRecorded(render, items)
    ensures forall i :: 0 <= i < |items| ==> PhaseRecorded(render, items[i])
  {
    hide PhaseRecorded, Field;
  }
}

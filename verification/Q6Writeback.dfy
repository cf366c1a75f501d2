/**
 * The Q6_K writeback check: it turns the compact diagnostics of one oracle
 * event into lists of findings and a verdict.
 */
module Q6Writeback {
  import opened Options
  import opened Text
  import opened Json

  datatype Reason =
    | ExpectedTrue
    | ExpectedFalse
    | ExpectedNonEmpty
    | NotAnObject
    | NoOverlap
    | BadSamples
    | SamplesAbsent(indices: seq<int>)
    | SampleDiffers(index: int, dispatched: real, written: real)
    | Listed
    | Absent
    | BadHash
    | FlaggedMismatch
    | HashesDiffer

  /** The part of the diagnostics a finding is about. */
  datatype Place =
    | Diagnostics
    | VerifiedAll
    | RowIndices
    | RowsVerified
    | Rows
    | RowAt(row: nat)
    | ListedMismatches
    | ListedUnknown
    | Bindings
    | BindingAt(binding: nat)

  /** The key of an item a finding is about. */
  datatype Key =
    | WholeItem
    | RowIndexed
    | SampleIndices
    | MatchesOracle
    | AfterDispatch
    | AfterWriteback
    | BothSnapshots
    | Index
    | BindingNumber
    | Writable
    | DispatchHash
    | AfterHash
    | WritebackVerified
    | WritebackMismatch

  datatype Finding = Finding(place: Place, key: Key, reason: Reason)

  datatype Verified = Verified(place: Place, dispatchHash: string, afterHash: string)

  datatype Summary = Pass | Mismatch | Unverified

  datatype Verdict = Verdict(
    summary: Summary,
    missing: seq<Finding>,
    mismatches: seq<Finding>,
    unknown: seq<Finding>,
    verified: seq<Verified>,
    verifiedCount: nat)

  const KEPT: nat := 16
  const INDICES_SHOWN: nat := 48

  function Cut<T>(s: seq<T>, n: nat): seq<T> {
    if |s| <= n then s else s[..n]
  }

  function Kept<T>(s: seq<T>): seq<T> {
    Cut(s, KEPT)
  }

  /** One item of the row-indexed evidence, key by key. */
  datatype Row =
    | NotARow
    | Row(indexed: Json, sampleIndices: Json, matchesOracle: Json, dispatched: Json, written: Json)

  /** One item of the writable bindings, key by key. */
  datatype Binding =
    | NotABinding
    | Binding(index: Json, number: Json, writable: Json, dispatchHash: Json, afterHash: Json, verified: Json, mismatch: Json)

  /** The Q6_K diagnostics; a list that is absent or not a list reads as empty. */
  datatype Q6 =
    | NotAnEvent
    | Q6(verifiedAll: Json, rowIndices: Json, rowsVerified: Json, rows: seq<Row>,
         listedMismatches: Json, listedUnknown: Json, bindings: seq<Binding>)

  function ReadRow(item: Json): Row {
    if !item.Obj? then NotARow
    else Row(Field(item, "q6_row_indexed"), Field(item, "q6_sample_indices"),
             Field(item, "row_indexed_samples_match_oracle"),
             Field(item, "f32_after_dispatch"), Field(item, "f32_after_writeback"))
  }

  function ReadBinding(item: Json): Binding {
    if !item.Obj? then NotABinding
    else Binding(Field(item, "index"), Field(item, "binding"), Field(item, "writable"),
                 Field(item, "gpu_after_dispatch_hash"), Field(item, "fd_after_hash"),
                 Field(item, "writeback_verified"), Field(item, "writeback_mismatch"))
  }

  /** A non-empty list, or nothing. */
  function ItemsOf(value: Json): seq<Json> {
    if value.List? then value.items else []
  }

  function ReadRows(items: seq<Json>): seq<Row> {
    seq(|items|, i requires 0 <= i < |items| => ReadRow(items[i]))
  }

  function ReadBindings(items: seq<Json>): seq<Binding> {
    seq(|items|, i requires 0 <= i < |items| => ReadBinding(items[i]))
  }

  function ReadQ6(value: Json): Q6 {
    if !value.Obj? then NotAnEvent
    else Q6(Field(value, "q6_writeback_verified_all"),
            Field(value, "q6_row_indexed_sample_indices"),
            Field(value, "q6_row_indexed_writeback_verified"),
            ReadRows(ItemsOf(Field(value, "q6_row_indexed_writeback_evidence"))),
            Field(value, "q6_writable_writeback_mismatches"),
            Field(value, "q6_writable_writeback_unknown"),
            ReadBindings(ItemsOf(Field(value, "q6_writable_bindings"))))
  }

  // ---------- reading the fields ----------

  /** All the values as integers, or None when one of them is not. */
  function Integers(items: seq<Json>): (r: Option<seq<int>>)
    ensures r.Some? ==> |r.value| == |items|
  {
    if items == [] then Some([])
    else match (IntOf(items[0]), Integers(items[1..]))
      case (Some(n), Some(rest)) => Some([n] + rest)
      case _ => None
  }

  /** A non-empty list whose items all convert to integers. */
  function IntegerList(value: Json): (r: Option<seq<int>>)
    ensures r.Some? ==> r.value != []
  {
    if value.List? && value.items != [] then Integers(value.items) else None
  }

  lemma {:induction false} IntegersAppend(items: seq<Json>, k: nat)
    requires k < |items|
    ensures Integers(items[..k + 1]) ==
            match (Integers(items[..k]), IntOf(items[k]))
            case (Some(done), Some(n)) => Some(done + [n])
            case _ => None
  {
    var init := items[..k + 1];
    if k == 0 {
      assert init == [items[0]] && init[1..] == [];
      assert items[..0] == [];
      match IntOf(items[0]) {
        case Some(n) => assert [n] + [] == [] + [n];
        case None =>
      }
    } else {
      assert init[0] == items[0] && init[1..] == items[1..][..k];
      assert items[..k][1..] == items[1..][..k - 1];
      IntegersAppend(items[1..], k - 1);
      match (IntOf(items[0]), Integers(items[1..][..k - 1]), IntOf(items[k])) {
        case (Some(n), Some(done), Some(m)) => assert [n] + (done + [m]) == ([n] + done) + [m];
        case _ =>
      }
    }
  }

  lemma {:induction false} IntegersPrefixFails(items: seq<Json>, k: nat)
    requires k <= |items| && Integers(items[..k]).None?
    ensures Integers(items).None?
    decreases |items| - k
  {
    if k == |items| {
      assert items[..k] == items;
    } else {
      IntegersAppend(items, k);
      IntegersPrefixFails(items, k + 1);
    }
  }

  method ReadIntegerList(value: Json) returns (r: Option<seq<int>>)
    ensures r == IntegerList(value)
  {
    if !value.List? || value.items == [] {
      return None;
    }
    var result: seq<int> := [];
    for k := 0 to |value.items|
      invariant Integers(value.items[..k]) == Some(result)
    {
      IntegersAppend(value.items, k);
      var n := IntOf(value.items[k]);
      if n.None? {
        IntegersPrefixFails(value.items, k + 1);
        return None;
      }
      result := result + [n.value];
    }
    assert value.items[..|value.items|] == value.items;
    return Some(result);
  }

  /** One f32 sample: an object with an integer index and a finite value. */
  function Sample(sample: Json): Option<(int, real)> {
    if !sample.Obj? then None
    else
      var index := IntOf(Field(sample, "index"));
      var v := Field(sample, "value");
      if index.None? || !IsNumber(v) then None else Some((index.value, NumberOf(v)))
  }

  /** Samples keyed by index; a repeated index keeps its last value. */
  function SamplesInto(items: seq<Json>, known: map<int, real>): Option<map<int, real>> {
    if items == [] then Some(known)
    else match Sample(items[0])
      case None => None
      case Some((index, v)) => SamplesInto(items[1..], known[index := v])
  }

  function SamplesByIndex(value: Json): Option<map<int, real>> {
    if value.List? && value.items != [] then SamplesInto(value.items, map[]) else None
  }

  method ReadSamples(value: Json) returns (r: Option<map<int, real>>)
    ensures r == SamplesByIndex(value)
  {
    if !value.List? || value.items == [] {
      return None;
    }
    var result: map<int, real> := map[];
    for k := 0 to |value.items|
      invariant SamplesInto(value.items[k..], result) == SamplesByIndex(value)
    {
      assert value.items[k..][0] == value.items[k] && value.items[k..][1..] == value.items[k + 1..];
      var sample := Sample(value.items[k]);
      if sample.None? {
        return None;
      }
      result := result[sample.value.0 := sample.value.1];
    }
    return Some(result);
  }

  const ZERO_HASH := "0x0000000000000000"

  predicate IsHexDigit(c: char) {
    IsDigit(c) || 'a' <= c <= 'f' || 'A' <= c <= 'F'
  }

  predicate ValidHash(value: Json): (valid: bool)
    ensures valid ==> value.Str?
  {
    && value.Str?
    && |value.s| == 18
    && value.s[0] == '0' && value.s[1] == 'x'
    && (forall i :: 2 <= i < 18 ==> IsHexDigit(value.s[i]))
    && Lower(value.s) != ZERO_HASH
  }

  /** `value in (False, None)`: equality, so a numeric zero is accepted too. */
  predicate FalseOrNone(value: Json) {
    value.Null? || value == False || value == Int(0) || value == Real(0.0)
  }

  /** The items a `for` loop visits in `value or []`; None is the TypeError. */
  function Iterated(value: Json): Option<seq<Json>> {
    if !Truthy(value) then Some([])
    else match value
      case List(items) => Some(items)
      case Obj(fields) => Some(seq(|fields|, i requires 0 <= i < |fields| => Str(fields[i].key)))
      case Str(s) => Some(seq(|s|, i requires 0 <= i < |s| => Str([s[i]])))
      case _ => None
  }

  // ---------- findings, one diagnostic item at a time ----------

  function When<T>(condition: bool, entry: T): seq<T> {
    if condition then [entry] else []
  }

  predicate Overlaps(samples: seq<int>, required: seq<int>) {
    exists s | s in samples :: s in required
  }

  /** The sample indices that one of the two snapshots does not hold. */
  function Gaps(samples: seq<int>, dispatched: map<int, real>, written: map<int, real>): (r: seq<int>)
    ensures r == [] <==> forall s :: s in samples ==> s in dispatched && s in written
  {
    if samples == [] then []
    else
      When(samples[0] !in dispatched || samples[0] !in written, samples[0])
      + Gaps(samples[1..], dispatched, written)
  }

  function Difference(place: Place, s: int, dispatched: map<int, real>, written: map<int, real>): seq<Finding> {
    if s in dispatched && s in written && dispatched[s] != written[s]
    then [Finding(place, BothSnapshots, SampleDiffers(s, dispatched[s], written[s]))]
    else []
  }

  function Differences(place: Place, samples: seq<int>, dispatched: map<int, real>, written: map<int, real>)
    : (r: seq<Finding>)
    ensures r == [] <==>
            forall s :: s in samples && s in dispatched && s in written ==> dispatched[s] == written[s]
  {
    if samples == [] then []
    else
      var k := |samples| - 1;
      assert samples == samples[..k] + [samples[k]];
      Differences(place, samples[..k], dispatched, written) + Difference(place, samples[k], dispatched, written)
  }

  /** What is wrong with the sample indices of a row item. */
  function IndexFindings(place: Place, samples: Option<seq<int>>, required: Option<seq<int>>): seq<Finding> {
    if samples.None? then [Finding(place, SampleIndices, ExpectedNonEmpty)]
    else When(required.Some? && !Overlaps(samples.value, required.value), Finding(place, SampleIndices, NoOverlap))
  }

  /** What is wrong with the snapshots of a row item. */
  function GapFindings(place: Place, samples: Option<seq<int>>, dispatched: Option<map<int, real>>, written: Option<map<int, real>>)
    : seq<Finding>
  {
    if samples.None? || dispatched.None? || written.None? then []
    else
      var gaps := Gaps(samples.value, dispatched.value, written.value);
      When(gaps != [], Finding(place, BothSnapshots, SamplesAbsent(Cut(gaps, INDICES_SHOWN))))
  }

  /** What a row-indexed evidence item lacks. */
  function RowMissing(row: Row, place: Place, required: Option<seq<int>>): seq<Finding> {
    if row.NotARow? then [Finding(place, WholeItem, NotAnObject)]
    else
      var samples := IntegerList(row.sampleIndices);
      var dispatched := SamplesByIndex(row.dispatched);
      var written := SamplesByIndex(row.written);
      When(row.indexed != True, Finding(place, RowIndexed, ExpectedTrue))
      + IndexFindings(place, samples, required)
      + When(row.matchesOracle != True, Finding(place, MatchesOracle, ExpectedTrue))
      + When(dispatched.None?, Finding(place, AfterDispatch, BadSamples))
      + When(written.None?, Finding(place, AfterWriteback, BadSamples))
      + GapFindings(place, samples, dispatched, written)
  }

  /** The samples of a row-indexed item that changed between dispatch and writeback. */
  function RowMismatches(row: Row, place: Place): seq<Finding> {
    if row.NotARow? then []
    else
      ChangeFindings(place, IntegerList(row.sampleIndices), SamplesByIndex(row.dispatched), SamplesByIndex(row.written))
  }

  function ChangeFindings(place: Place, samples: Option<seq<int>>, dispatched: Option<map<int, real>>, written: Option<map<int, real>>)
    : seq<Finding>
  {
    if samples.None? || dispatched.None? || written.None? then []
    else Differences(place, samples.value, dispatched.value, written.value)
  }

  function BindingMissing(item: Binding, place: Place): seq<Finding> {
    if item.NotABinding? then [Finding(place, WholeItem, NotAnObject)]
    else
      When(item.index.Null?, Finding(place, Index, Absent))
      + When(item.number.Null?, Finding(place, BindingNumber, Absent))
      + When(item.writable != True, Finding(place, Writable, ExpectedTrue))
      + When(!ValidHash(item.dispatchHash), Finding(place, DispatchHash, BadHash))
      + When(!ValidHash(item.afterHash), Finding(place, AfterHash, BadHash))
      + When(item.verified != True, Finding(place, WritebackVerified, ExpectedTrue))
      + When(item.mismatch != True && !FalseOrNone(item.mismatch), Finding(place, WritebackMismatch, ExpectedFalse))
  }

  /** Both hashes are valid and name the same contents, letter case aside. */
  predicate SameHash(dispatchHash: Json, afterHash: Json) {
    ValidHash(dispatchHash) && ValidHash(afterHash) && Lower(dispatchHash.s) == Lower(afterHash.s)
  }

  /** Both hashes are valid but name different contents. */
  predicate HashConflict(item: Binding) {
    && item.Binding?
    && ValidHash(item.dispatchHash) && ValidHash(item.afterHash)
    && Lower(item.dispatchHash.s) != Lower(item.afterHash.s)
  }

  function BindingMismatches(item: Binding, place: Place): seq<Finding> {
    if item.NotABinding? then []
    else
      When(item.mismatch == True, Finding(place, WritebackMismatch, FlaggedMismatch))
      + When(HashConflict(item), Finding(place, AfterHash, HashesDiffer))
  }

  /** A writable binding whose contents demonstrably reached the host. */
  predicate BindingProven(item: Binding) {
    && item.Binding?
    && !item.index.Null?
    && !item.number.Null?
    && item.writable == True
    && SameHash(item.dispatchHash, item.afterHash)
    && item.verified == True
    && FalseOrNone(item.mismatch)
  }

  function VerifiedEntry(item: Binding, place: Place): seq<Verified> {
    if BindingProven(item) then [Verified(place, item.dispatchHash.s, item.afterHash.s)] else []
  }

  // ---------- findings over a whole list ----------

  function RowsMissing(rows: seq<Row>, required: Option<seq<int>>): seq<Finding> {
    if rows == [] then []
    else
      var k := |rows| - 1;
      RowsMissing(rows[..k], required) + RowMissing(rows[k], RowAt(k), required)
  }

  function RowsMismatches(rows: seq<Row>): seq<Finding> {
    if rows == [] then []
    else
      var k := |rows| - 1;
      RowsMismatches(rows[..k]) + RowMismatches(rows[k], RowAt(k))
  }

  function BindingsMissing(items: seq<Binding>): seq<Finding> {
    if items == [] then []
    else
      var k := |items| - 1;
      BindingsMissing(items[..k]) + BindingMissing(items[k], BindingAt(k))
  }

  function BindingsMismatches(items: seq<Binding>): seq<Finding> {
    if items == [] then []
    else
      var k := |items| - 1;
      BindingsMismatches(items[..k]) + BindingMismatches(items[k], BindingAt(k))
  }

  function BindingsVerified(items: seq<Binding>): seq<Verified> {
    if items == [] then []
    else
      var k := |items| - 1;
      BindingsVerified(items[..k]) + VerifiedEntry(items[k], BindingAt(k))
  }

  function ListedFindings(items: seq<Json>, place: Place): (r: seq<Finding>)
    ensures |r| == |items|
  {
    seq(|items|, i => Finding(place, WholeItem, Listed))
  }

  function HeaderMissing(q6: Q6): seq<Finding>
    requires q6.Q6?
  {
    When(q6.verifiedAll != True, Finding(VerifiedAll, WholeItem, ExpectedTrue))
    + When(IntegerList(q6.rowIndices).None?, Finding(RowIndices, WholeItem, ExpectedNonEmpty))
    + When(q6.rowsVerified != True, Finding(RowsVerified, WholeItem, ExpectedTrue))
    + When(q6.rows == [], Finding(Rows, WholeItem, ExpectedNonEmpty))
  }

  function AllMissing(q6: Q6): seq<Finding>
    requires q6.Q6?
  {
    HeaderMissing(q6)
    + RowsMissing(q6.rows, IntegerList(q6.rowIndices))
    + When(q6.bindings == [], Finding(Bindings, WholeItem, ExpectedNonEmpty))
    + BindingsMissing(q6.bindings)
  }

  function AllMismatches(q6: Q6, listed: seq<Json>): seq<Finding>
    requires q6.Q6?
  {
    RowsMismatches(q6.rows) + ListedFindings(listed, ListedMismatches) + BindingsMismatches(q6.bindings)
  }

  function Summarize(missing: seq<Finding>, mismatches: seq<Finding>, unknown: seq<Finding>): Summary {
    if mismatches != [] then Mismatch
    else if missing != [] || unknown != [] then Unverified
    else Pass
  }

  /** The verdict on the diagnostics; None when the check raises on a value it cannot iterate. */
  function Evidence(q6: Q6): Option<Verdict> {
    if q6.NotAnEvent? then
      Some(Verdict(Unverified, [Finding(Diagnostics, WholeItem, NotAnObject)], [], [], [], 0))
    else
      match (Iterated(q6.listedMismatches), Iterated(q6.listedUnknown))
      case (Some(listed), Some(unlisted)) =>
        var missing := AllMissing(q6);
        var mismatches := AllMismatches(q6, listed);
        var unknown := ListedFindings(unlisted, ListedUnknown);
        var verified := BindingsVerified(q6.bindings);
        Some(Verdict(Summarize(missing, mismatches, unknown),
                     Kept(missing), Kept(mismatches), Kept(unknown), Kept(verified), |verified|))
      case _ => None
  }

  // ---------- the check as the script runs it ----------

  /** `entries.append(entry)` under a condition. */
  method Note<T>(entries: seq<T>, condition: bool, entry: T) returns (entries': seq<T>)
    ensures entries' == entries + When(condition, entry)
  {
    entries' := entries;
    if condition {
      entries' := entries' + [entry];
    }
  }

  lemma DifferencesNext(place: Place, samples: seq<int>, dispatched: map<int, real>, written: map<int, real>, k: nat)
    requires k < |samples|
    ensures Differences(place, samples[..k + 1], dispatched, written) ==
            Differences(place, samples[..k], dispatched, written) + Difference(place, samples[k], dispatched, written)
  {
    hide Difference;
    var longer := samples[..k + 1];
    assert longer[..k] == samples[..k] && longer[k] == samples[k];
  }

  method CheckSamples(place: Place, samples: seq<int>, dispatched: map<int, real>, written: map<int, real>)
    returns (differing: seq<Finding>)
    ensures differing == Differences(place, samples, dispatched, written)
  {
    hide Differences;
    differing := [];
    NoDifferences(place, dispatched, written);
    assert samples[..0] == [];
    for k := 0 to |samples|
      invariant differing == Differences(place, samples[..k], dispatched, written)
    {
      DifferencesNext(place, samples, dispatched, written, k);
      var s := samples[k];
      if s in dispatched && s in written {
        if dispatched[s] != written[s] {
          differing := differing + [Finding(place, BothSnapshots, SampleDiffers(s, dispatched[s], written[s]))];
        }
      }
    }
    assert samples[..|samples|] == samples;
  }

  lemma NoDifferences(place: Place, dispatched: map<int, real>, written: map<int, real>)
    ensures Differences(place, [], dispatched, written) == []
  {
  }

  method CheckRow(row: Row, place: Place, required: Option<seq<int>>)
    returns (missing: seq<Finding>, mismatches: seq<Finding>)
    ensures missing == RowMissing(row, place, required)
    ensures mismatches == RowMismatches(row, place)
  {
    if row.NotARow? {
      missing, mismatches := [Finding(place, WholeItem, NotAnObject)], [];
    } else {
      missing, mismatches := CheckRowObject(row, place, required);
    }
  }

  method CheckRowObject(row: Row, place: Place, required: Option<seq<int>>)
    returns (missing: seq<Finding>, mismatches: seq<Finding>)
    requires row.Row?
    ensures missing == RowMissing(row, place, required)
    ensures mismatches == RowMismatches(row, place)
  {
    hide IntegerList, SamplesByIndex, IndexFindings, GapFindings, ChangeFindings;
    var samples := ReadIntegerList(row.sampleIndices);
    missing := Note([], row.indexed != True, Finding(place, RowIndexed, ExpectedTrue));
    assert missing == When(row.indexed != True, Finding(place, RowIndexed, ExpectedTrue));
    var onIndices := CheckIndices(place, samples, required);
    missing := missing + onIndices;
    missing := Note(missing, row.matchesOracle != True, Finding(place, MatchesOracle, ExpectedTrue));
    var dispatched := ReadSamples(row.dispatched);
    var written := ReadSamples(row.written);
    missing := Note(missing, dispatched.None?, Finding(place, AfterDispatch, BadSamples));
    missing := Note(missing, written.None?, Finding(place, AfterWriteback, BadSamples));
    var onGaps := CheckGaps(place, samples, dispatched, written);
    missing := missing + onGaps;
    mismatches := CheckChanges(place, samples, dispatched, written);
  }

  method CheckChanges(place: Place, samples: Option<seq<int>>, dispatched: Option<map<int, real>>, written: Option<map<int, real>>)
    returns (mismatches: seq<Finding>)
    ensures mismatches == ChangeFindings(place, samples, dispatched, written)
  {
    hide Differences;
    mismatches := [];
    if samples.Some? && dispatched.Some? && written.Some? {
      mismatches := CheckSamples(place, samples.value, dispatched.value, written.value);
    }
  }

  method CheckGaps(place: Place, samples: Option<seq<int>>, dispatched: Option<map<int, real>>, written: Option<map<int, real>>)
    returns (missing: seq<Finding>)
    ensures missing == GapFindings(place, samples, dispatched, written)
  {
    missing := [];
    if samples.Some? && dispatched.Some? && written.Some? {
      var gaps := Gaps(samples.value, dispatched.value, written.value);
      if gaps != [] {
        missing := [Finding(place, BothSnapshots, SamplesAbsent(Cut(gaps, INDICES_SHOWN)))];
      }
    }
  }

  method CheckIndices(place: Place, samples: Option<seq<int>>, required: Option<seq<int>>) returns (missing: seq<Finding>)
    ensures missing == IndexFindings(place, samples, required)
  {
    missing := [];
    if samples.None? {
      missing := [Finding(place, SampleIndices, ExpectedNonEmpty)];
    } else if required.Some? && !Overlaps(samples.value, required.value) {
      missing := [Finding(place, SampleIndices, NoOverlap)];
    }
  }

  method CheckBinding(item: Binding, place: Place)
    returns (missing: seq<Finding>, mismatches: seq<Finding>, verified: seq<Verified>)
    ensures missing == BindingMissing(item, place)
    ensures mismatches == BindingMismatches(item, place)
    ensures verified == VerifiedEntry(item, place)
  {
    if item.NotABinding? {
      missing, mismatches, verified := [Finding(place, WholeItem, NotAnObject)], [], [];
    } else {
      missing := CheckBindingKeys(item, place);
      mismatches, verified := CheckBindingContents(item, place);
    }
  }

  method CheckBindingKeys(item: Binding, place: Place) returns (missing: seq<Finding>)
    requires item.Binding?
    ensures missing == BindingMissing(item, place)
  {
    hide ValidHash, FalseOrNone;
    missing := Note([], item.index.Null?, Finding(place, Index, Absent));
    assert missing == When(item.index.Null?, Finding(place, Index, Absent));
    missing := Note(missing, item.number.Null?, Finding(place, BindingNumber, Absent));
    missing := Note(missing, item.writable != True, Finding(place, Writable, ExpectedTrue));
    var dispatchValid, afterValid := ValidHash(item.dispatchHash), ValidHash(item.afterHash);
    missing := Note(missing, !dispatchValid, Finding(place, DispatchHash, BadHash));
    missing := Note(missing, !afterValid, Finding(place, AfterHash, BadHash));
    missing := Note(missing, item.verified != True, Finding(place, WritebackVerified, ExpectedTrue));
    missing := Note(missing, item.mismatch != True && !FalseOrNone(item.mismatch),
                    Finding(place, WritebackMismatch, ExpectedFalse));
  }

  method CheckBindingContents(item: Binding, place: Place) returns (mismatches: seq<Finding>, verified: seq<Verified>)
    requires item.Binding?
    ensures mismatches == BindingMismatches(item, place)
    ensures verified == VerifiedEntry(item, place)
  {
    hide ValidHash, FalseOrNone;
    mismatches, verified := [], [];
    mismatches := Note(mismatches, item.mismatch == True, Finding(place, WritebackMismatch, FlaggedMismatch));
    var conflict, same := CompareHashes(item.dispatchHash, item.afterHash);
    mismatches := Note(mismatches, conflict, Finding(place, AfterHash, HashesDiffer));
    if !item.index.Null? && !item.number.Null? && item.writable == True && same
       && item.verified == True && FalseOrNone(item.mismatch)
    {
      verified := [Verified(place, item.dispatchHash.s, item.afterHash.s)];
    }
  }

  /** The two uses of a pair of hashes: a conflict, or proof of a faithful writeback. */
  method CompareHashes(dispatchHash: Json, afterHash: Json) returns (conflict: bool, same: bool)
    ensures same == SameHash(dispatchHash, afterHash)
    ensures conflict == (ValidHash(dispatchHash) && ValidHash(afterHash) && !same)
  {
    hide ValidHash;
    var bothValid := ValidHash(dispatchHash) && ValidHash(afterHash);
    conflict := bothValid && Lower(dispatchHash.s) != Lower(afterHash.s);
    same := bothValid && Lower(dispatchHash.s) == Lower(afterHash.s);
  }

  method CheckRows(rows: seq<Row>, required: Option<seq<int>>)
    returns (missing: seq<Finding>, mismatches: seq<Finding>)
    ensures missing == RowsMissing(rows, required)
    ensures mismatches == RowsMismatches(rows)
  {
    missing, mismatches := [], [];
    for k := 0 to |rows|
      invariant missing == RowsMissing(rows[..k], required)
      invariant mismatches == RowsMismatches(rows[..k])
    {
      assert rows[..k + 1][..k] == rows[..k];
      var lacking, changed := CheckRow(rows[k], RowAt(k), required);
      missing, mismatches := missing + lacking, mismatches + changed;
    }
    assert rows[..|rows|] == rows;
  }

  method CheckBindings(items: seq<Binding>)
    returns (missing: seq<Finding>, mismatches: seq<Finding>, verified: seq<Verified>)
    ensures missing == BindingsMissing(items)
    ensures mismatches == BindingsMismatches(items)
    ensures verified == BindingsVerified(items)
  {
    missing, mismatches, verified := [], [], [];
    for k := 0 to |items|
      invariant missing == BindingsMissing(items[..k])
      invariant mismatches == BindingsMismatches(items[..k])
      invariant verified == BindingsVerified(items[..k])
    {
      assert items[..k + 1][..k] == items[..k];
      var lacking, clashing, proven := CheckBinding(items[k], BindingAt(k));
      missing, mismatches, verified := missing + lacking, mismatches + clashing, verified + proven;
    }
    assert items[..|items|] == items;
  }

  /** `_q6_writeback_evidence`: the findings in the order the script collects them. */
  method CheckWriteback(q6: Q6) returns (verdict: Option<Verdict>)
    ensures verdict == Evidence(q6)
  {
    if q6.NotAnEvent? {
      return Some(Verdict(Unverified, [Finding(Diagnostics, WholeItem, NotAnObject)], [], [], [], 0));
    }
    hide IntegerList, RowsMissing, RowsMismatches, BindingsMissing, BindingsMismatches, Iterated;
    var missing := Note([], q6.verifiedAll != True, Finding(VerifiedAll, WholeItem, ExpectedTrue));
    var required := ReadIntegerList(q6.rowIndices);
    missing := Note(missing, required.None?, Finding(RowIndices, WholeItem, ExpectedNonEmpty));
    missing := Note(missing, q6.rowsVerified != True, Finding(RowsVerified, WholeItem, ExpectedTrue));
    missing := Note(missing, q6.rows == [], Finding(Rows, WholeItem, ExpectedNonEmpty));
    assert missing == HeaderMissing(q6);
    var rowsLacking, mismatches := CheckRows(q6.rows, required);
    missing := missing + rowsLacking;

    var listed := Iterated(q6.listedMismatches);
    if listed.None? {
      return None;
    }
    mismatches := mismatches + ListedFindings(listed.value, ListedMismatches);
    var unlisted := Iterated(q6.listedUnknown);
    if unlisted.None? {
      return None;
    }
    var unknown := ListedFindings(unlisted.value, ListedUnknown);

    missing := Note(missing, q6.bindings == [], Finding(Bindings, WholeItem, ExpectedNonEmpty));
    var lacking, clashing, verified := CheckBindings(q6.bindings);
    missing, mismatches := missing + lacking, mismatches + clashing;
    assert missing == AllMissing(q6);
    return Some(Verdict(Summarize(missing, mismatches, unknown),
                        Kept(missing), Kept(mismatches), Kept(unknown), Kept(verified), |verified|));
  }

  // ---------- the declarative meaning of the verdict ----------

  /** A row item with oracle rows among its samples, all of them equal after dispatch and after writeback. */
  ghost predicate RowProven(row: Row, required: seq<int>) {
    && row.Row?
    && row.indexed == True
    && row.matchesOracle == True
    && var samples := IntegerList(row.sampleIndices);
       var dispatched := SamplesByIndex(row.dispatched);
       var written := SamplesByIndex(row.written);
       && samples.Some? && dispatched.Some? && written.Some?
       && (exists s :: s in samples.value && s in required)
       && (forall s :: s in samples.value ==>
             s in dispatched.value && s in written.value && dispatched.value[s] == written.value[s])
  }

  /** Two snapshots of a row item disagree about a sample they both hold. */
  ghost predicate RowChanged(row: Row) {
    && row.Row?
    && var samples := IntegerList(row.sampleIndices);
       var dispatched := SamplesByIndex(row.dispatched);
       var written := SamplesByIndex(row.written);
       && samples.Some? && dispatched.Some? && written.Some?
       && exists s :: s in samples.value && s in dispatched.value && s in written.value
                      && dispatched.value[s] != written.value[s]
  }

  /** Everything a claimable Q6_K writeback must show. */
  ghost predicate WritebackProven(q6: Q6) {
    && q6.Q6?
    && q6.verifiedAll == True
    && q6.rowsVerified == True
    && !Truthy(q6.listedMismatches)
    && !Truthy(q6.listedUnknown)
    && var required := IntegerList(q6.rowIndices);
       && required.Some?
       && q6.rows != []
       && (forall k :: 0 <= k < |q6.rows| ==> RowProven(q6.rows[k], required.value))
       && q6.bindings != []
       && (forall k :: 0 <= k < |q6.bindings| ==> BindingProven(q6.bindings[k]))
  }

  /** A contradiction in the diagnostics themselves. */
  ghost predicate WritebackContradicted(q6: Q6) {
    && q6.Q6?
    && (|| (exists k :: 0 <= k < |q6.rows| && RowChanged(q6.rows[k]))
        || Truthy(q6.listedMismatches)
        || (exists k :: 0 <= k < |q6.bindings| && BindingContradicted(q6.bindings[k])))
  }

  predicate BindingContradicted(item: Binding) {
    item.Binding? && (item.mismatch == True || HashConflict(item))
  }

  lemma RowFindings(row: Row, place: Place, required: seq<int>)
    ensures RowMissing(row, place, Some(required)) == [] && RowMismatches(row, place) == []
            <==> RowProven(row, required)
    ensures RowMismatches(row, place) != [] <==> RowChanged(row)
  {
  }

  lemma BindingFindings(item: Binding, place: Place)
    ensures BindingMissing(item, place) == [] && BindingMismatches(item, place) == [] <==> BindingProven(item)
    ensures BindingMismatches(item, place) != [] <==> BindingContradicted(item)
  {
  }

  lemma {:induction false} RowsFindings(rows: seq<Row>, required: seq<int>)
    ensures RowsMissing(rows, Some(required)) == [] && RowsMismatches(rows) == []
            <==> forall k :: 0 <= k < |rows| ==> RowProven(rows[k], required)
    ensures RowsMismatches(rows) != [] <==> exists k :: 0 <= k < |rows| && RowChanged(rows[k])
  {
    hide RowProven, RowChanged, RowMissing, RowMismatches;
    if rows != [] {
      var k := |rows| - 1;
      RowsFindings(rows[..k], required);
      RowFindings(rows[k], RowAt(k), required);
      assert forall i :: 0 <= i < k ==> rows[..k][i] == rows[i];
    }
  }

  lemma {:induction false} BindingsFindings(items: seq<Binding>)
    ensures BindingsMissing(items) == [] && BindingsMismatches(items) == []
            <==> forall k :: 0 <= k < |items| ==> BindingProven(items[k])
    ensures BindingsMismatches(items) != [] <==>
            exists k :: 0 <= k < |items| && BindingContradicted(items[k])
  {
    hide BindingProven, BindingContradicted, BindingMissing, BindingMismatches;
    if items != [] {
      var k := |items| - 1;
      BindingsFindings(items[..k]);
      BindingFindings(items[k], BindingAt(k));
      assert forall i :: 0 <= i < k ==> items[..k][i] == items[i];
    }
  }

  /** The number of bindings that are proven. */
  function CountProven(items: seq<Binding>): nat {
    if items == [] then 0
    else CountProven(items[..|items| - 1]) + (if BindingProven(items[|items| - 1]) then 1 else 0)
  }

  lemma {:induction false} VerifiedLength(items: seq<Binding>)
    ensures |BindingsVerified(items)| == CountProven(items) <= |items|
    ensures CountProven(items) == |items| <==> forall k :: 0 <= k < |items| ==> BindingProven(items[k])
  {
    hide BindingProven;
    if items != [] {
      var k := |items| - 1;
      VerifiedLength(items[..k]);
      assert forall i :: 0 <= i < k ==> items[..k][i] == items[i];
    }
  }

  lemma NothingListed(value: Json)
    requires Iterated(value).Some?
    ensures Iterated(value).value == [] <==> !Truthy(value)
  {
  }

  /** Only a true number or boolean cannot be iterated. */
  lemma IterationRaises(value: Json)
    ensures Iterated(value).None? ==> Truthy(value)
  {
  }

  /** A value that is neither false nor empty and that Python does not iterate over. */
  predicate Scalar(value: Json) {
    value == True || (value.Int? && value.n != 0) || (value.Real? && value.r != 0.0)
  }

  /** The check raises exactly on diagnostics that record a scalar where findings should be listed. */
  lemma EvidenceRaisesExact(q6: Q6)
    ensures Evidence(q6).None? <==> q6.Q6? && (Scalar(q6.listedMismatches) || Scalar(q6.listedUnknown))
  {
    if q6.Q6? {
      IteratedExact(q6.listedMismatches);
      IteratedExact(q6.listedUnknown);
    }
    hide Iterated, Scalar;
  }

  lemma IteratedExact(value: Json)
    ensures Iterated(value).None? <==> Scalar(value)
  {
  }

  /** The concatenated lists are empty exactly when every part is. */
  lemma NoFindings(q6: Q6, listed: seq<Json>)
    requires q6.Q6?
    ensures AllMissing(q6) == [] <==>
            && HeaderMissing(q6) == []
            && RowsMissing(q6.rows, IntegerList(q6.rowIndices)) == []
            && q6.bindings != []
            && BindingsMissing(q6.bindings) == []
    ensures AllMismatches(q6, listed) == [] <==>
            RowsMismatches(q6.rows) == [] && listed == [] && BindingsMismatches(q6.bindings) == []
    ensures HeaderMissing(q6) == [] <==>
            q6.verifiedAll == True && IntegerList(q6.rowIndices).Some? && q6.rowsVerified == True && q6.rows != []
  {
  }

  /** The verdict is pass exactly when the writeback is proven, and then every binding is counted. */
  lemma PassMeansProven(q6: Q6)
    ensures Evidence(q6).Some? && Evidence(q6).value.summary == Pass <==> WritebackProven(q6)
    ensures WritebackProven(q6) ==> Evidence(q6).value.verifiedCount == |q6.bindings|
  {
    hide RowProven, BindingProven, RowsMissing, RowsMismatches, BindingsMissing, BindingsMismatches, BindingsVerified,
         AllMissing, AllMismatches, HeaderMissing, IntegerList, CountProven;
    if q6.Q6? {
      IterationRaises(q6.listedMismatches);
      IterationRaises(q6.listedUnknown);
    }
    hide Iterated;
    if q6.Q6? && Iterated(q6.listedMismatches).Some? && Iterated(q6.listedUnknown).Some? {
      NothingListed(q6.listedMismatches);
      NothingListed(q6.listedUnknown);
      NoFindings(q6, Iterated(q6.listedMismatches).value);
      var required := IntegerList(q6.rowIndices);
      if required.Some? {
        RowsFindings(q6.rows, required.value);
      }
      BindingsFindings(q6.bindings);
      VerifiedLength(q6.bindings);
    }
  }

  /** The verdict is mismatch exactly when the diagnostics contradict themselves. */
  lemma MismatchMeansContradicted(q6: Q6)
    requires Evidence(q6).Some?
    ensures Evidence(q6).value.summary == Mismatch <==> WritebackContradicted(q6)
  {
    if q6.Q6? {
      NothingListed(q6.listedMismatches);
      NoFindings(q6, Iterated(q6.listedMismatches).value);
      RowsFindings(q6.rows, []);
      BindingsFindings(q6.bindings);
    }
  }

  /** Whatever the verdict, the reported count is exact although the reported list is cut. */
  lemma CountIsExact(q6: Q6)
    requires Evidence(q6).Some? && q6.Q6?
    ensures Evidence(q6).value.verifiedCount == CountProven(q6.bindings)
    ensures |Evidence(q6).value.verified| <= KEPT
  {
    hide AllMissing, AllMismatches, BindingsVerified, Iterated;
    VerifiedLength(q6.bindings);
  }
}

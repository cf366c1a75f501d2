/**
 * The verdict on the Q6_K writeback in terms of the recorded diagnostics: which member of which object
 * has to hold what.
 */
module Q6Evidence {
  import opened Options
  import opened Text
  import opened Json
  import opened Q6Writeback

  // ---------- recorded lists ----------

  /** A non-empty list of values that all convert to integers. */
  predicate IndexList(value: Json) {
    value.List? && value.items != [] && forall k :: 0 <= k < |value.items| ==> IntOf(value.items[k]).Some?
  }

  /** One of the items converts to this integer. */
  ghost predicate Lists(value: Json, index: int) {
    value.List? && exists k :: 0 <= k < |value.items| && IntOf(value.items[k]) == Some(index)
  }

  predicate IsSample(item: Json) {
    item.Obj? && IntOf(Field(item, "index")).Some? && IsNumber(Field(item, "value"))
  }

  predicate IsSampleOf(item: Json, index: int) {
    IsSample(item) && IntOf(Field(item, "index")) == Some(index)
  }

  /** A sample of this index that holds this value. */
  predicate Holds(item: Json, index: int, v: real) {
    IsSampleOf(item, index) && NumberOf(Field(item, "value")) == v
  }

  /** A non-empty list of samples. */
  predicate SampleList(value: Json) {
    value.List? && value.items != [] && forall k :: 0 <= k < |value.items| ==> IsSample(value.items[k])
  }

  /** The last sample of this index holds this value. */
  ghost predicate LastIs(items: seq<Json>, index: int, v: real) {
    exists k :: 0 <= k < |items| && Holds(items[k], index, v)
                && forall later :: k < later < |items| ==> !IsSampleOf(items[later], index)
  }

  /** A recorded snapshot shows this value for this index. */
  ghost predicate Shows(value: Json, index: int, v: real) {
    value.List? && LastIs(value.items, index, v)
  }

  lemma {:induction false} IntegersExact(items: seq<Json>)
    ensures Integers(items).Some? <==> forall k :: 0 <= k < |items| ==> IntOf(items[k]).Some?
    ensures Integers(items).Some? ==> forall k :: 0 <= k < |items| ==> IntOf(items[k]) == Some(Integers(items).value[k])
  {
    hide IntOf;
    if items != [] {
      var rest := items[1..];
      IntegersExact(rest);
      assert forall k :: 1 <= k < |items| ==> items[k] == rest[k - 1];
      if Integers(items).Some? {
        forall k | 0 <= k < |items|
          ensures IntOf(items[k]) == Some(Integers(items).value[k])
        {
          if k > 0 {
            assert IntOf(rest[k - 1]) == Some(Integers(rest).value[k - 1]);
          }
        }
      } else {
        assert IntOf(items[0]).None? || !forall k :: 0 <= k < |rest| ==> IntOf(rest[k]).Some?;
      }
    }
  }

  lemma IndexListExact(value: Json, index: int)
    ensures IntegerList(value).Some? <==> IndexList(value)
    ensures IntegerList(value).Some? ==> (index in IntegerList(value).value <==> Lists(value, index))
  {
    hide IntOf;
    if value.List? {
      IntegersExact(value.items);
    }
    hide Integers;
  }

  /** The samples of a list go over those known before. */
  lemma {:induction false} SamplesIntoExact(items: seq<Json>, known: map<int, real>)
    ensures SamplesInto(items, known).Some? <==> forall k :: 0 <= k < |items| ==> IsSample(items[k])
  {
    SampleExact();
    hide Sample, IsSample;
    if items != [] {
      assert forall k :: 1 <= k < |items| ==> items[k] == items[1..][k - 1];
      if Sample(items[0]).Some? {
        SamplesIntoExact(items[1..], known[Sample(items[0]).value.0 := Sample(items[0]).value.1]);
      }
    }
  }

  lemma SampleExact()
    ensures forall item :: Sample(item).Some? <==> IsSample(item)
    ensures forall item :: IsSample(item) ==>
              && IsSampleOf(item, Sample(item).value.0)
              && forall index :: IsSampleOf(item, index) ==> index == Sample(item).value.0
    ensures forall item, index, v :: Holds(item, index, v) <==> Sample(item) == Some((index, v))
  {
    hide IntOf, Field;
  }

  ghost predicate Unsampled(items: seq<Json>, index: int) {
    forall k :: 0 <= k < |items| ==> !IsSampleOf(items[k], index)
  }

  lemma LastOfRest(items: seq<Json>, index: int, v: real)
    requires items != []
    ensures LastIs(items, index, v) <==>
            || LastIs(items[1..], index, v)
            || (Unsampled(items[1..], index) && Holds(items[0], index, v))
  {
    hide IsSampleOf, Holds;
    var rest := items[1..];
    assert forall k :: 1 <= k < |items| ==> items[k] == rest[k - 1];
    if LastIs(rest, index, v) {
      var k :| 0 <= k < |rest| && Holds(rest[k], index, v)
               && forall later :: k < later < |rest| ==> !IsSampleOf(rest[later], index);
      assert items[k + 1] == rest[k];
    }
    if LastIs(items, index, v) {
      var k :| 0 <= k < |items| && Holds(items[k], index, v)
               && forall later :: k < later < |items| ==> !IsSampleOf(items[later], index);
      if k > 0 {
        assert rest[k - 1] == items[k];
        assert forall later :: k - 1 < later < |rest| ==> rest[later] == items[later + 1];
      } else {
        assert forall later :: 0 <= later < |rest| ==> rest[later] == items[later + 1];
      }
    }
  }

  lemma UnsampledRest(items: seq<Json>, index: int)
    requires items != []
    ensures Unsampled(items, index) <==> Unsampled(items[1..], index) && !IsSampleOf(items[0], index)
  {
    hide IsSampleOf;
    assert forall k :: 1 <= k < |items| ==> items[k] == items[1..][k - 1];
  }

  lemma {:induction false} SamplesKeepTheLast(items: seq<Json>, known: map<int, real>, index: int, v: real)
    requires SamplesInto(items, known).Some?
    ensures var read := SamplesInto(items, known).value;
            index in read && read[index] == v <==>
            LastIs(items, index, v) || (Unsampled(items, index) && index in known && known[index] == v)
  {
    SampleExact();
    hide Sample, IsSample, IsSampleOf, Holds;
    if items != [] {
      var (i, w) := Sample(items[0]).value;
      SamplesKeepTheLast(items[1..], known[i := w], index, v);
      LastOfRest(items, index, v);
      UnsampledRest(items, index);
      hide LastIs, Unsampled;
    }
  }

  /** Reading the samples gives what the snapshot shows. */
  lemma SamplesExact(value: Json, index: int, v: real)
    ensures SamplesByIndex(value).Some? <==> SampleList(value)
    ensures SampleList(value) ==>
              (index in SamplesByIndex(value).value && SamplesByIndex(value).value[index] == v <==> Shows(value, index, v))
  {
    hide SamplesInto, IsSample, LastIs;
    if value.List? {
      SamplesIntoExact(value.items, map[]);
      if SampleList(value) {
        SamplesKeepTheLast(value.items, map[], index, v);
      }
    }
  }

  // ---------- one row of the evidence ----------

  /** After dispatch and after writeback the last sample of this index holds the same value. */
  ghost predicate Preserved(item: Json, index: int) {
    exists v :: Shows(Field(item, "f32_after_dispatch"), index, v) && Shows(Field(item, "f32_after_writeback"), index, v)
  }

  /** After dispatch and after writeback the last samples of this index hold different values. */
  ghost predicate Changed(item: Json, index: int) {
    exists v, w :: v != w && Shows(Field(item, "f32_after_dispatch"), index, v)
                   && Shows(Field(item, "f32_after_writeback"), index, w)
  }

  /** The two snapshots and the indices of an item can be read. */
  ghost predicate Readable(item: Json) {
    && IndexList(Field(item, "q6_sample_indices"))
    && SampleList(Field(item, "f32_after_dispatch"))
    && SampleList(Field(item, "f32_after_writeback"))
  }

  /** An item whose samples, some of them among the wanted rows, are kept by the writeback. */
  ghost predicate RowRecorded(item: Json, wanted: Json) {
    && item.Obj?
    && Field(item, "q6_row_indexed") == True
    && Field(item, "row_indexed_samples_match_oracle") == True
    && Readable(item)
    && (exists index :: Lists(Field(item, "q6_sample_indices"), index) && Lists(wanted, index))
    && (forall index :: Lists(Field(item, "q6_sample_indices"), index) ==> Preserved(item, index))
  }

  ghost predicate RowContradicted(item: Json) {
    item.Obj? && Readable(item) && exists index :: Lists(Field(item, "q6_sample_indices"), index) && Changed(item, index)
  }

  lemma RowMembers(item: Json)
    requires item.Obj?
    ensures var row := ReadRow(item);
            && row.Row?
            && row.indexed == Field(item, "q6_row_indexed")
            && row.sampleIndices == Field(item, "q6_sample_indices")
            && row.matchesOracle == Field(item, "row_indexed_samples_match_oracle")
            && row.dispatched == Field(item, "f32_after_dispatch")
            && row.written == Field(item, "f32_after_writeback")
  {
    hide Field;
  }

  predicate RowReads(row: Row) {
    && row.Row? && IntegerList(row.sampleIndices).Some?
    && SamplesByIndex(row.dispatched).Some? && SamplesByIndex(row.written).Some?
  }

  lemma ReadableExact(item: Json)
    requires item.Obj?
    ensures Readable(item) <==> RowReads(ReadRow(item))
  {
    RowMembers(item);
    IndexListExact(Field(item, "q6_sample_indices"), 0);
    SamplesExact(Field(item, "f32_after_dispatch"), 0, 0.0);
    SamplesExact(Field(item, "f32_after_writeback"), 0, 0.0);
    hide ReadRow, IntegerList, SamplesByIndex, IndexList, SampleList, Field, Shows, Lists;
  }

  lemma ReadableMeans(item: Json)
    ensures Readable(item) <==>
            && IndexList(Field(item, "q6_sample_indices"))
            && SampleList(Field(item, "f32_after_dispatch")) && SampleList(Field(item, "f32_after_writeback"))
  {
    hide IndexList, SampleList, Field;
  }

  /** What the two snapshots say about one index. */
  lemma IndexReads(item: Json, index: int)
    requires item.Obj? && RowReads(ReadRow(item))
    ensures var row := ReadRow(item);
            var dispatched, written := SamplesByIndex(row.dispatched).value, SamplesByIndex(row.written).value;
            && (index in IntegerList(row.sampleIndices).value <==> Lists(Field(item, "q6_sample_indices"), index))
            && (index in dispatched && index in written && dispatched[index] == written[index] <==> Preserved(item, index))
            && (index in dispatched && index in written && dispatched[index] != written[index] <==> Changed(item, index))
  {
    RowMembers(item);
    ReadableExact(item);
    ReadableMeans(item);
    IndexListExact(Field(item, "q6_sample_indices"), index);
    hide ReadRow, IntegerList, SamplesByIndex, Lists, Shows, Readable, SampleList, IndexList, Field;
    forall v
      ensures var read := SamplesByIndex(Field(item, "f32_after_dispatch")).value;
              index in read && read[index] == v <==> Shows(Field(item, "f32_after_dispatch"), index, v)
    {
      SamplesExact(Field(item, "f32_after_dispatch"), index, v);
    }
    forall v
      ensures var read := SamplesByIndex(Field(item, "f32_after_writeback")).value;
              index in read && read[index] == v <==> Shows(Field(item, "f32_after_writeback"), index, v)
    {
      SamplesExact(Field(item, "f32_after_writeback"), index, v);
    }
    var dispatched, written := SamplesByIndex(ReadRow(item).dispatched).value, SamplesByIndex(ReadRow(item).written).value;
    if index in dispatched && index in written {
      assert Shows(Field(item, "f32_after_dispatch"), index, dispatched[index]);
      assert Shows(Field(item, "f32_after_writeback"), index, written[index]);
    }
  }

  lemma RowExact(item: Json, wanted: Json)
    requires IntegerList(wanted).Some?
    ensures RowProven(ReadRow(item), IntegerList(wanted).value) <==> RowRecorded(item, wanted)
  {
    if item.Obj? {
      RowMembers(item);
      ReadableExact(item);
      hide ReadRow, IntegerList, SamplesByIndex, Lists, Readable, Field, Preserved;
      if RowReads(ReadRow(item)) {
        forall index
          ensures index in IntegerList(wanted).value <==> Lists(wanted, index)
        {
          IndexListExact(wanted, index);
        }
        forall index
          ensures var row := ReadRow(item);
                  var dispatched, written := SamplesByIndex(row.dispatched).value, SamplesByIndex(row.written).value;
                  && (index in IntegerList(row.sampleIndices).value <==> Lists(Field(item, "q6_sample_indices"), index))
                  && (index in dispatched && index in written && dispatched[index] == written[index] <==> Preserved(item, index))
        {
          IndexReads(item, index);
        }
      }
    }
  }

  lemma RowChangeExact(item: Json)
    ensures RowChanged(ReadRow(item)) <==> RowContradicted(item)
  {
    if item.Obj? {
      RowMembers(item);
      ReadableExact(item);
      hide ReadRow, IntegerList, SamplesByIndex, Lists, Readable, Field, Changed;
      if RowReads(ReadRow(item)) {
        forall index
          ensures var row := ReadRow(item);
                  var dispatched, written := SamplesByIndex(row.dispatched).value, SamplesByIndex(row.written).value;
                  && (index in IntegerList(row.sampleIndices).value <==> Lists(Field(item, "q6_sample_indices"), index))
                  && (index in dispatched && index in written && dispatched[index] != written[index]
                      <==> Changed(item, index))
        {
          IndexReads(item, index);
        }
      }
    }
  }

  // ---------- one writable binding ----------

  /** Both hashes are real, and the same but for letter case. */
  predicate HashesAgree(item: Json) {
    var dispatched, after := Field(item, "gpu_after_dispatch_hash"), Field(item, "fd_after_hash");
    ValidHash(dispatched) && ValidHash(after) && Lower(dispatched.s) == Lower(after.s)
  }

  predicate HashesDisagree(item: Json) {
    var dispatched, after := Field(item, "gpu_after_dispatch_hash"), Field(item, "fd_after_hash");
    ValidHash(dispatched) && ValidHash(after) && Lower(dispatched.s) != Lower(after.s)
  }

  predicate BindingRecorded(item: Json) {
    && item.Obj?
    && Field(item, "index") != Null
    && Field(item, "binding") != Null
    && Field(item, "writable") == True
    && HashesAgree(item)
    && Field(item, "writeback_verified") == True
    && Field(item, "writeback_mismatch") in [Null, False, Int(0), Real(0.0)]
  }

  predicate BindingRefuted(item: Json) {
    item.Obj? && (Field(item, "writeback_mismatch") == True || HashesDisagree(item))
  }

  lemma BindingExact(item: Json)
    ensures BindingProven(ReadBinding(item)) <==> BindingRecorded(item)
    ensures BindingContradicted(ReadBinding(item)) <==> BindingRefuted(item)
  {
    hide Field, ValidHash, Lower;
  }

  // ---------- the whole diagnostics ----------

  function ItemsAt(q6: Json, key: string): seq<Json> {
    if Field(q6, key).List? then Field(q6, key).items else []
  }

  /** Everything a passing verdict needs, member by member. */
  ghost predicate Recorded(q6: Json) {
    && q6.Obj?
    && Field(q6, "q6_writeback_verified_all") == True
    && Field(q6, "q6_row_indexed_writeback_verified") == True
    && !Truthy(Field(q6, "q6_writable_writeback_mismatches"))
    && !Truthy(Field(q6, "q6_writable_writeback_unknown"))
    && IndexList(Field(q6, "q6_row_indexed_sample_indices"))
    && RowsRecorded(ItemsAt(q6, "q6_row_indexed_writeback_evidence"), Field(q6, "q6_row_indexed_sample_indices"))
    && BindingsRecorded(ItemsAt(q6, "q6_writable_bindings"))
  }

  ghost predicate RowsRecorded(items: seq<Json>, wanted: Json) {
    items != [] && forall k :: 0 <= k < |items| ==> RowRecorded(items[k], wanted)
  }

  predicate BindingsRecorded(items: seq<Json>) {
    items != [] && forall k :: 0 <= k < |items| ==> BindingRecorded(items[k])
  }

  /** What makes the verdict a mismatch. */
  ghost predicate Refuted(q6: Json) {
    && q6.Obj?
    && (|| AnyRowContradicted(ItemsAt(q6, "q6_row_indexed_writeback_evidence"))
        || Truthy(Field(q6, "q6_writable_writeback_mismatches"))
        || AnyBindingRefuted(ItemsAt(q6, "q6_writable_bindings")))
  }

  ghost predicate AnyRowContradicted(items: seq<Json>) {
    exists k :: 0 <= k < |items| && RowContradicted(items[k])
  }

  predicate AnyBindingRefuted(items: seq<Json>) {
    exists k :: 0 <= k < |items| && BindingRefuted(items[k])
  }

  lemma Q6Members(q6: Json)
    requires q6.Obj?
    ensures var read := ReadQ6(q6);
            && read.Q6?
            && read.verifiedAll == Field(q6, "q6_writeback_verified_all")
            && read.rowIndices == Field(q6, "q6_row_indexed_sample_indices")
            && read.rowsVerified == Field(q6, "q6_row_indexed_writeback_verified")
            && read.listedMismatches == Field(q6, "q6_writable_writeback_mismatches")
            && read.listedUnknown == Field(q6, "q6_writable_writeback_unknown")
            && read.rows == ReadRows(ItemsAt(q6, "q6_row_indexed_writeback_evidence"))
            && read.bindings == ReadBindings(ItemsAt(q6, "q6_writable_bindings"))
  {
    hide Field, ReadRow, ReadBinding;
  }

  lemma RowsExact(items: seq<Json>, wanted: Json)
    requires IntegerList(wanted).Some?
    ensures (ReadRows(items) != [] && forall k :: 0 <= k < |items| ==> RowProven(ReadRows(items)[k], IntegerList(wanted).value))
            <==> RowsRecorded(items, wanted)
  {
    hide ReadRow, RowProven, RowRecorded, IntegerList, IndexList;
    forall k | 0 <= k < |items|
      ensures RowProven(ReadRows(items)[k], IntegerList(wanted).value) <==> RowRecorded(items[k], wanted)
    {
      RowExact(items[k], wanted);
    }
  }

  lemma RowChangesExact(items: seq<Json>)
    ensures (exists k :: 0 <= k < |items| && RowChanged(ReadRows(items)[k])) <==> AnyRowContradicted(items)
  {
    hide ReadRow, RowChanged, RowContradicted;
    forall k | 0 <= k < |items|
      ensures RowChanged(ReadRows(items)[k]) <==> RowContradicted(items[k])
    {
      RowChangeExact(items[k]);
    }
  }

  lemma BindingsExact(items: seq<Json>)
    ensures (ReadBindings(items) != [] && forall k :: 0 <= k < |items| ==> BindingProven(ReadBindings(items)[k]))
            <==> BindingsRecorded(items)
    ensures (exists k :: 0 <= k < |items| && BindingContradicted(ReadBindings(items)[k])) <==> AnyBindingRefuted(items)
  {
    hide ReadBinding, BindingProven, BindingRecorded, BindingContradicted, BindingRefuted;
    forall k | 0 <= k < |items|
      ensures BindingProven(ReadBindings(items)[k]) <==> BindingRecorded(items[k])
      ensures BindingContradicted(ReadBindings(items)[k]) <==> BindingRefuted(items[k])
    {
      BindingExact(items[k]);
    }
  }

  lemma ProvenOnRecord(q6: Json)
    ensures WritebackProven(ReadQ6(q6)) <==> Recorded(q6)
  {
    if q6.Obj? {
      var wanted := Field(q6, "q6_row_indexed_sample_indices");
      Q6Members(q6);
      IndexListExact(wanted, 0);
      if IntegerList(wanted).Some? {
        RowsExact(ItemsAt(q6, "q6_row_indexed_writeback_evidence"), wanted);
      }
      BindingsExact(ItemsAt(q6, "q6_writable_bindings"));
    }
    hide ReadQ6, Field, IntegerList, IndexList, RowProven, BindingProven, RowsRecorded, BindingsRecorded, ItemsAt, Truthy,
         ReadRow, ReadBinding;
  }

  lemma ContradictedOnRecord(q6: Json)
    ensures WritebackContradicted(ReadQ6(q6)) <==> Refuted(q6)
  {
    if q6.Obj? {
      Q6Members(q6);
      RowChangesExact(ItemsAt(q6, "q6_row_indexed_writeback_evidence"));
      BindingsExact(ItemsAt(q6, "q6_writable_bindings"));
    }
    hide ReadQ6, Field, RowChanged, BindingContradicted, AnyRowContradicted, AnyBindingRefuted, ItemsAt, Truthy, ReadRow, ReadBinding;
  }

  /**
   * The verdict on recorded diagnostics. It is pass exactly when every flag, row and binding is recorded
   * as it must be, mismatch exactly when a kept sample changed, a mismatch is listed or a binding is
   * refuted, and there is none exactly when a scalar is recorded in place of a list of findings.
   */
  lemma VerdictOnRecord(q6: Json)
    ensures var verdict := Evidence(ReadQ6(q6));
            && (verdict.Some? && verdict.value.summary == Pass <==> Recorded(q6))
            && (verdict.Some? ==> (verdict.value.summary == Mismatch <==> Refuted(q6)))
            && (verdict.None? <==>
                  q6.Obj? && (Scalar(Field(q6, "q6_writable_writeback_mismatches"))
                              || Scalar(Field(q6, "q6_writable_writeback_unknown"))))
  {
    PassMeansProven(ReadQ6(q6));
    if Evidence(ReadQ6(q6)).Some? {
      MismatchMeansContradicted(ReadQ6(q6));
    }
    EvidenceRaisesExact(ReadQ6(q6));
    ProvenOnRecord(q6);
    ContradictedOnRecord(q6);
    if q6.Obj? {
      Q6Members(q6);
    }
    NotAnObjectReads(q6);
    hide *;
  }

  lemma NotAnObjectReads(q6: Json)
    ensures ReadQ6(q6).Q6? <==> q6.Obj?
  {
    hide Field, ReadRow, ReadBinding;
  }
}

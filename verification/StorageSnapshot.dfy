/** One storage metric snapshot: the checks that collect its errors, and what no errors means. */
module StorageSnapshot {
  import opened Options
  import opened Text
  import opened Json

  datatype Key =
    | SharedLayerBytes
    | ImageViewBytes
    | ContainerUpperBytes
    | UniqueBytes
    | TotalBytes
    | FreeBytes
    | RootfsViewBytes
    | VolumeBytes
    | BuildCacheBytes
    | VirtualSize
    | SharedSize
    | UniqueSize
    | SizeRw
    | SizeRootFs

  datatype Place = System | ImageAt(image: nat) | ContainerAt(container: nat)

  datatype Error =
    | NotNumeric(place: Place, key: Key)
    | Negative(place: Place, key: Key)
    | Required(place: Place, key: Key)
    | NoSharedNote
    | NoOverlapNote
    | NoUpperNote
    | UniqueNotSum
    | ViewsCountedTwice
    | FreeOverTotal
    | RootfsUnderUpper
    | NoImages
    | SizesDoNotAdd(image: nat)
    | RootfsUnderRw(container: nat)
    | Malformed

  /** The fields of one object by key; an absent key is None. */
  type Fields = Key -> Option<Json>

  predicate Numeric(f: Option<Json>) {
    f.Some? && IsNumber(f.value)
  }

  function Number(f: Option<Json>): real {
    if Numeric(f) then NumberOf(f.value) else 0.0
  }

  /** A present value is a number and not negative. */
  predicate Counted(f: Option<Json>) {
    f.Some? ==> IsNumber(f.value) && NumberOf(f.value) >= 0.0
  }

  /** `system_df`: its numbers, and the text of its notes unless they are not an object. */
  datatype Summary = Summary(fields: Fields, notes: Option<string>)

  datatype Rows = NotAList(iterable: bool) | Items(rows: seq<Option<Fields>>)

  datatype Snapshot = Snapshot(system: Option<Summary>, images: Rows, containers: Rows)

  const SUMMARY_KEYS := [
    SharedLayerBytes, ImageViewBytes, ContainerUpperBytes, UniqueBytes, TotalBytes, FreeBytes, RootfsViewBytes,
    VolumeBytes, BuildCacheBytes
  ]
  const REQUIRED_KEYS := [SharedLayerBytes, ContainerUpperBytes, UniqueBytes]
  const IMAGE_KEYS := [VirtualSize, SharedSize, UniqueSize]
  const CONTAINER_KEYS := [SizeRw, SizeRootFs]

  // ---------- reading ----------

  function Spelling(key: Key): string {
    match key
    case SharedLayerBytes => "SharedLayerBytes"
    case ImageViewBytes => "ImageViewBytes"
    case ContainerUpperBytes => "ContainerUpperBytes"
    case UniqueBytes => "UniqueBytes"
    case TotalBytes => "TotalBytes"
    case FreeBytes => "FreeBytes"
    case RootfsViewBytes => "RootfsViewBytes"
    case VolumeBytes => "VolumeBytes"
    case BuildCacheBytes => "BuildCacheBytes"
    case VirtualSize => "VirtualSize"
    case SharedSize => "SharedSize"
    case UniqueSize => "UniqueSize"
    case SizeRw => "SizeRw"
    case SizeRootFs => "SizeRootFs"
  }

  function Get(value: Json, key: string): Option<Json> {
    if value.Obj? then Lookup(value.fields, key) else None
  }

  function ReadFields(value: Json): Fields {
    (key: Key) => Get(value, Spelling(key))
  }

  function NotePairs(render: Json -> string, fields: seq<Member>): seq<string> {
    if fields == [] then [] else [fields[0].key + " " + render(fields[0].value)] + NotePairs(render, fields[1..])
  }

  /** The joined, lower-cased notes; without notes, the empty text. */
  function ReadNotes(render: Json -> string, notes: Option<Json>): Option<string> {
    if notes.None? then Some("")
    else if !notes.value.Obj? then None
    else Some(Lower(Join(" ", NotePairs(render, notes.value.fields))))
  }

  function ReadSummary(render: Json -> string, value: Option<Json>): Option<Summary> {
    if value.None? || !value.value.Obj? then None
    else Some(Summary(ReadFields(value.value), ReadNotes(render, Get(value.value, "PdockerStorage"))))
  }

  function ReadRow(value: Json): Option<Fields> {
    if value.Obj? then Some(ReadFields(value)) else None
  }

  function ReadRows(value: Option<Json>): Rows {
    if value.None? then Items([])
    else if value.value.List? then
      var items := value.value.items;
      Items(seq(|items|, i requires 0 <= i < |items| => ReadRow(items[i])))
    else NotAList(value.value.Str? || value.value.Obj?)
  }

  function ReadSnapshot(render: Json -> string, value: Json): Snapshot {
    Snapshot(ReadSummary(render, Get(value, "system_df")), ReadRows(Get(value, "images")), ReadRows(Get(value, "containers")))
  }

  // ---------- what the checks collect ----------

  /** The errors one check collects, and whether it got to its end. */
  datatype Outcome = Outcome(errors: seq<Error>, whole: bool)

  function When(condition: bool, error: Error): seq<Error> {
    if condition then [error] else []
  }

  /** `check_nonnegative_number` of a present value. */
  function NumberErrors(place: Place, key: Key, f: Option<Json>): seq<Error> {
    if f.None? then []
    else if !IsNumber(f.value) then [NotNumeric(place, key)]
    else When(NumberOf(f.value) < 0.0, Negative(place, key))
  }

  function KeyErrors(place: Place, fields: Fields, keys: seq<Key>): seq<Error> {
    if keys == [] then []
    else
      var k := |keys| - 1;
      KeyErrors(place, fields, keys[..k]) + NumberErrors(place, keys[k], fields(keys[k]))
  }

  function MissingErrors(place: Place, fields: Fields, keys: seq<Key>): seq<Error> {
    if keys == [] then []
    else
      var k := |keys| - 1;
      MissingErrors(place, fields, keys[..k]) + When(fields(keys[k]).None?, Required(place, keys[k]))
  }

  predicate SharedNoted(text: string) {
    Contains(text, "shared") && Contains(text, "layer")
  }

  predicate OverlapNoted(text: string) {
    Contains(text, "must not be added") || Contains(text, "do not add")
  }

  predicate UpperNoted(text: string) {
    Contains(text, "upper") || Contains(text, "private")
  }

  function NoteErrors(text: string): seq<Error> {
    When(!SharedNoted(text), NoSharedNote) + When(!OverlapNoted(text), NoOverlapNote) + When(!UpperNoted(text), NoUpperNote)
  }

  /** The unique bytes the components add up to; a component that is not a number counts as nothing. */
  function Components(fields: Fields): real {
    Number(fields(SharedLayerBytes)) + Number(fields(ContainerUpperBytes)) + Number(fields(VolumeBytes))
    + Number(fields(BuildCacheBytes))
  }

  /** `f == expected`; Python compares booleans as 0 and 1. */
  predicate Equals(f: Option<Json>, expected: real) {
    if f.Some? && f.value.Bool? then (if f.value.b then 1.0 else 0.0) == expected
    else Numeric(f) && Number(f) == expected
  }

  function SumErrors(fields: Fields): seq<Error> {
    When(Numeric(fields(SharedLayerBytes)) && Numeric(fields(ContainerUpperBytes))
           && !Equals(fields(UniqueBytes), Components(fields)), UniqueNotSum)
    + When(Numeric(fields(UniqueBytes)) && Numeric(fields(ImageViewBytes))
             && Equals(fields(TotalBytes), Number(fields(UniqueBytes)) + Number(fields(ImageViewBytes))), ViewsCountedTwice)
    + When(Numeric(fields(TotalBytes)) && Numeric(fields(FreeBytes))
             && Number(fields(FreeBytes)) > Number(fields(TotalBytes)), FreeOverTotal)
    + When(Numeric(fields(RootfsViewBytes)) && Numeric(fields(ContainerUpperBytes))
             && Number(fields(RootfsViewBytes)) < Number(fields(ContainerUpperBytes)), RootfsUnderUpper)
  }

  /** `check_summary` */
  function SummaryErrors(system: Option<Summary>): Outcome {
    if system.None? then Outcome([], false)
    else
      var s := system.value;
      var first := KeyErrors(System, s.fields, SUMMARY_KEYS) + MissingErrors(System, s.fields, REQUIRED_KEYS);
      if s.notes.None? then Outcome(first, false)
      else Outcome(first + NoteErrors(s.notes.value) + SumErrors(s.fields), true)
  }

  /** A number must be there: its own errors when present, otherwise that it is missing. */
  function ImageKeyErrors(place: Place, fields: Fields, keys: seq<Key>): seq<Error> {
    if keys == [] then []
    else
      var k := |keys| - 1;
      ImageKeyErrors(place, fields, keys[..k])
      + (if fields(keys[k]).Some? then NumberErrors(place, keys[k], fields(keys[k])) else [Required(place, keys[k])])
  }

  predicate SizesAdd(fields: Fields) {
    Numeric(fields(VirtualSize)) && Numeric(fields(SharedSize)) && Numeric(fields(UniqueSize)) ==>
      Number(fields(SharedSize)) + Number(fields(UniqueSize)) == Number(fields(VirtualSize))
  }

  function ImageErrors(fields: Fields, i: nat): seq<Error> {
    ImageKeyErrors(ImageAt(i), fields, IMAGE_KEYS) + When(!SizesAdd(fields), SizesDoNotAdd(i))
  }

  /** The errors up to the first row that is not an object, and whether there is none. */
  function ImagesErrors(rows: seq<Option<Fields>>): Outcome {
    if rows == [] then Outcome([], true)
    else
      var k := |rows| - 1;
      var before := ImagesErrors(rows[..k]);
      if !before.whole || rows[k].None? then Outcome(before.errors, false)
      else Outcome(before.errors + ImageErrors(rows[k].value, k), true)
  }

  predicate RootfsHolds(fields: Fields) {
    Numeric(fields(SizeRw)) && Numeric(fields(SizeRootFs)) ==> Number(fields(SizeRw)) <= Number(fields(SizeRootFs))
  }

  function ContainerErrors(fields: Fields, i: nat): seq<Error> {
    When(fields(SizeRw).None?, Required(ContainerAt(i), SizeRw)) + KeyErrors(ContainerAt(i), fields, CONTAINER_KEYS)
    + When(!RootfsHolds(fields), RootfsUnderRw(i))
  }

  function ContainersErrors(rows: seq<Option<Fields>>): Outcome {
    if rows == [] then Outcome([], true)
    else
      var k := |rows| - 1;
      var before := ContainersErrors(rows[..k]);
      if !before.whole || rows[k].None? then Outcome(before.errors, false)
      else Outcome(before.errors + ContainerErrors(rows[k].value, k), true)
  }

  /** `validate`: the errors of the three checks in turn, ended by the first malformed value. */
  function Errors(s: Snapshot): seq<Error> {
    var system := SummaryErrors(s.system);
    if !system.whole || s.images.NotAList? then system.errors + [Malformed]
    else
      var images := ImagesErrors(s.images.rows);
      var upToImages := system.errors + When(s.images.rows == [], NoImages) + images.errors;
      if !images.whole || s.containers.NotAList? then upToImages + [Malformed]
      else
        var containers := ContainersErrors(s.containers.rows);
        upToImages + containers.errors + (if containers.whole then [] else [Malformed])
  }

  // ---------- the checks as the script runs them ----------

  method CheckKeys(place: Place, fields: Fields, keys: seq<Key>, errors: seq<Error>) returns (errors': seq<Error>)
    ensures errors' == errors + KeyErrors(place, fields, keys)
  {
    errors' := errors;
    for i := 0 to |keys|
      invariant errors' == errors + KeyErrors(place, fields, keys[..i])
    {
      assert keys[..i + 1][..i] == keys[..i];
      if fields(keys[i]).Some? {
        errors' := errors' + NumberErrors(place, keys[i], fields(keys[i]));
      }
    }
    assert keys[..|keys|] == keys;
  }

  method CheckRequired(place: Place, fields: Fields, keys: seq<Key>, errors: seq<Error>) returns (errors': seq<Error>)
    ensures errors' == errors + MissingErrors(place, fields, keys)
  {
    errors' := errors;
    for i := 0 to |keys|
      invariant errors' == errors + MissingErrors(place, fields, keys[..i])
    {
      assert keys[..i + 1][..i] == keys[..i];
      if fields(keys[i]).None? {
        errors' := errors' + [Required(place, keys[i])];
      }
    }
    assert keys[..|keys|] == keys;
  }

  method CheckSummary(system: Option<Summary>) returns (errors: seq<Error>, whole: bool)
    ensures Outcome(errors, whole) == SummaryErrors(system)
  {
    errors := [];
    if system.None? {
      return errors, false;
    }
    var s := system.value;
    errors := CheckKeys(System, s.fields, SUMMARY_KEYS, errors);
    assert errors == KeyErrors(System, s.fields, SUMMARY_KEYS);
    errors := CheckRequired(System, s.fields, REQUIRED_KEYS, errors);
    if s.notes.None? {
      return errors, false;
    }
    errors := errors + NoteErrors(s.notes.value);
    errors := errors + SumErrors(s.fields);
    whole := true;
  }

  method CheckImageKeys(place: Place, fields: Fields) returns (errors: seq<Error>)
    ensures errors == ImageKeyErrors(place, fields, IMAGE_KEYS)
  {
    errors := [];
    for i := 0 to |IMAGE_KEYS|
      invariant errors == ImageKeyErrors(place, fields, IMAGE_KEYS[..i])
    {
      assert IMAGE_KEYS[..i + 1][..i] == IMAGE_KEYS[..i];
      var key := IMAGE_KEYS[i];
      if fields(key).Some? {
        errors := errors + NumberErrors(place, key, fields(key));
      } else {
        errors := errors + [Required(place, key)];
      }
    }
    assert IMAGE_KEYS[..|IMAGE_KEYS|] == IMAGE_KEYS;
  }

  method CheckImages(rows: seq<Option<Fields>>) returns (errors: seq<Error>, whole: bool)
    ensures Outcome(errors, whole) == ImagesErrors(rows)
  {
    errors, whole := [], true;
    hide ImageKeyErrors, SizesAdd;
    for i := 0 to |rows|
      invariant whole && Outcome(errors, true) == ImagesErrors(rows[..i])
    {
      assert rows[..i + 1][..i] == rows[..i];
      if rows[i].None? {
        ImagesStop(rows, i);
        return errors, false;
      }
      ghost var before := errors;
      var found := CheckImageKeys(ImageAt(i), rows[i].value);
      errors := errors + found;
      if !SizesAdd(rows[i].value) {
        errors := errors + [SizesDoNotAdd(i)];
      }
      assert errors == before + ImageErrors(rows[i].value, i);
    }
    assert rows[..|rows|] == rows;
  }

  lemma {:induction false} ImagesStop(rows: seq<Option<Fields>>, i: nat)
    requires i < |rows| && rows[i].None? && ImagesErrors(rows[..i]).whole
    ensures ImagesErrors(rows) == Outcome(ImagesErrors(rows[..i]).errors, false)
  {
    var k := |rows| - 1;
    if i < k {
      assert rows[..k][..i] == rows[..i];
      ImagesStop(rows[..k], i);
    }
  }

  method CheckContainers(rows: seq<Option<Fields>>) returns (errors: seq<Error>, whole: bool)
    ensures Outcome(errors, whole) == ContainersErrors(rows)
  {
    errors, whole := [], true;
    hide KeyErrors, RootfsHolds;
    for i := 0 to |rows|
      invariant whole && Outcome(errors, true) == ContainersErrors(rows[..i])
    {
      assert rows[..i + 1][..i] == rows[..i];
      if rows[i].None? {
        ContainersStop(rows, i);
        return errors, false;
      }
      var fields := rows[i].value;
      ghost var before := errors;
      if fields(SizeRw).None? {
        errors := errors + [Required(ContainerAt(i), SizeRw)];
      }
      errors := CheckKeys(ContainerAt(i), fields, CONTAINER_KEYS, errors);
      if !RootfsHolds(fields) {
        errors := errors + [RootfsUnderRw(i)];
      }
      assert errors == before + ContainerErrors(fields, i);
    }
    assert rows[..|rows|] == rows;
  }

  lemma {:induction false} ContainersStop(rows: seq<Option<Fields>>, i: nat)
    requires i < |rows| && rows[i].None? && ContainersErrors(rows[..i]).whole
    ensures ContainersErrors(rows) == Outcome(ContainersErrors(rows[..i]).errors, false)
  {
    var k := |rows| - 1;
    if i < k {
      assert rows[..k][..i] == rows[..i];
      ContainersStop(rows[..k], i);
    }
  }

  /** `validate` */
  method Validate(s: Snapshot) returns (errors: seq<Error>)
    ensures errors == Errors(s)
  {
    hide SummaryErrors, ImagesErrors, ContainersErrors;
    var whole: bool;
    errors, whole := CheckSummary(s.system);
    if !whole || s.images.NotAList? {
      return errors + [Malformed];
    }
    if s.images.rows == [] {
      errors := errors + [NoImages];
    }
    var more: seq<Error>;
    more, whole := CheckImages(s.images.rows);
    errors := errors + more;
    if !whole || s.containers.NotAList? {
      return errors + [Malformed];
    }
    more, whole := CheckContainers(s.containers.rows);
    errors := errors + more;
    if !whole {
      errors := errors + [Malformed];
    }
  }

  // ---------- what no errors means ----------

  /** The unique bytes are exactly their components, and nothing overlapping is added to them. */
  ghost predicate SummarySound(s: Summary) {
    var f := s.fields;
    && (forall key :: key in SUMMARY_KEYS ==> Counted(f(key)))
    && (forall key :: key in REQUIRED_KEYS ==> f(key).Some?)
    && s.notes.Some? && SharedNoted(s.notes.value) && OverlapNoted(s.notes.value) && UpperNoted(s.notes.value)
    && Number(f(UniqueBytes)) == Components(f)
    && (f(ImageViewBytes).Some? && f(TotalBytes).Some? ==>
          Number(f(TotalBytes)) != Number(f(UniqueBytes)) + Number(f(ImageViewBytes)))
    && (f(TotalBytes).Some? && f(FreeBytes).Some? ==> Number(f(FreeBytes)) <= Number(f(TotalBytes)))
    && (f(RootfsViewBytes).Some? ==> Number(f(ContainerUpperBytes)) <= Number(f(RootfsViewBytes)))
  }

  ghost predicate ImageSound(f: Fields) {
    && (forall key :: key in IMAGE_KEYS ==> f(key).Some? && Counted(f(key)))
    && Number(f(SharedSize)) + Number(f(UniqueSize)) == Number(f(VirtualSize))
  }

  ghost predicate ContainerSound(f: Fields) {
    && f(SizeRw).Some? && Counted(f(SizeRw)) && Counted(f(SizeRootFs))
    && (f(SizeRootFs).Some? ==> Number(f(SizeRw)) <= Number(f(SizeRootFs)))
  }

  ghost predicate SnapshotSound(s: Snapshot) {
    && s.system.Some? && SummarySound(s.system.value)
    && s.images.Items? && s.images.rows != []
    && (forall i :: 0 <= i < |s.images.rows| ==> s.images.rows[i].Some? && ImageSound(s.images.rows[i].value))
    && s.containers.Items?
    && (forall i :: 0 <= i < |s.containers.rows| ==> s.containers.rows[i].Some? && ContainerSound(s.containers.rows[i].value))
  }

  lemma NumberFine(place: Place, key: Key, f: Option<Json>)
    ensures NumberErrors(place, key, f) == [] <==> Counted(f)
  {
  }

  lemma {:induction false} KeysFine(place: Place, fields: Fields, keys: seq<Key>)
    ensures KeyErrors(place, fields, keys) == [] <==> forall key :: key in keys ==> Counted(fields(key))
  {
    if keys != [] {
      var k := |keys| - 1;
      KeysFine(place, fields, keys[..k]);
      NumberFine(place, keys[k], fields(keys[k]));
      hide NumberErrors, Counted;
      assert keys == keys[..k] + [keys[k]];
    }
  }

  lemma {:induction false} NothingMissing(place: Place, fields: Fields, keys: seq<Key>)
    ensures MissingErrors(place, fields, keys) == [] <==> forall key :: key in keys ==> fields(key).Some?
  {
    if keys != [] {
      var k := |keys| - 1;
      NothingMissing(place, fields, keys[..k]);
      assert keys == keys[..k] + [keys[k]];
    }
  }

  lemma {:induction false} ImageKeysFine(place: Place, fields: Fields, keys: seq<Key>)
    ensures ImageKeyErrors(place, fields, keys) == [] <==> forall key :: key in keys ==> fields(key).Some? && Counted(fields(key))
  {
    if keys != [] {
      var k := |keys| - 1;
      ImageKeysFine(place, fields, keys[..k]);
      NumberFine(place, keys[k], fields(keys[k]));
      hide NumberErrors, Counted;
      assert keys == keys[..k] + [keys[k]];
    }
  }

  lemma CountedIsNumeric(f: Option<Json>)
    requires Counted(f)
    ensures f.Some? <==> Numeric(f)
    ensures f.Some? ==> !f.value.Bool?
  {
  }

  lemma SumFine(fields: Fields)
    requires forall key :: key in SUMMARY_KEYS ==> Counted(fields(key))
    requires forall key :: key in REQUIRED_KEYS ==> fields(key).Some?
    ensures SumErrors(fields) == [] <==>
            && Number(fields(UniqueBytes)) == Components(fields)
            && (fields(ImageViewBytes).Some? && fields(TotalBytes).Some? ==>
                  Number(fields(TotalBytes)) != Number(fields(UniqueBytes)) + Number(fields(ImageViewBytes)))
            && (fields(TotalBytes).Some? && fields(FreeBytes).Some? ==> Number(fields(FreeBytes)) <= Number(fields(TotalBytes)))
            && (fields(RootfsViewBytes).Some? ==> Number(fields(ContainerUpperBytes)) <= Number(fields(RootfsViewBytes)))
  {
    forall key | key in SUMMARY_KEYS
      ensures fields(key).Some? <==> Numeric(fields(key))
      ensures fields(key).Some? ==> !fields(key).value.Bool?
    {
      CountedIsNumeric(fields(key));
    }
    assert SharedLayerBytes in SUMMARY_KEYS && ImageViewBytes in SUMMARY_KEYS && ContainerUpperBytes in SUMMARY_KEYS;
    assert UniqueBytes in SUMMARY_KEYS && TotalBytes in SUMMARY_KEYS && FreeBytes in SUMMARY_KEYS && RootfsViewBytes in SUMMARY_KEYS;
    assert SharedLayerBytes in REQUIRED_KEYS && ContainerUpperBytes in REQUIRED_KEYS && UniqueBytes in REQUIRED_KEYS;
    hide Numeric, Number, Components, Counted;
  }

  lemma NotesFine(text: string)
    ensures NoteErrors(text) == [] <==> SharedNoted(text) && OverlapNoted(text) && UpperNoted(text)
  {
    hide SharedNoted, OverlapNoted, UpperNoted;
  }

  lemma AllEmpty(a: seq<Error>, b: seq<Error>, c: seq<Error>, d: seq<Error>)
    ensures a + b + c + d == [] <==> a == [] && b == [] && c == [] && d == []
  {
    assert |a + b + c + d| == |a| + |b| + |c| + |d|;
  }

  ghost predicate KeysSound(f: Fields) {
    (forall key :: key in SUMMARY_KEYS ==> Counted(f(key))) && forall key :: key in REQUIRED_KEYS ==> f(key).Some?
  }

  lemma KeysExact(f: Fields)
    ensures KeyErrors(System, f, SUMMARY_KEYS) == [] && MissingErrors(System, f, REQUIRED_KEYS) == [] <==> KeysSound(f)
  {
    KeysFine(System, f, SUMMARY_KEYS);
    NothingMissing(System, f, REQUIRED_KEYS);
    hide KeyErrors, MissingErrors, Counted;
  }

  /** What is asked of a summary beyond its keys. */
  lemma SoundParts(s: Summary)
    ensures SummarySound(s) <==>
            && KeysSound(s.fields) && s.notes.Some? && NoteErrors(s.notes.value) == [] && SumErrors(s.fields) == []
  {
    if s.notes.Some? {
      NotesFine(s.notes.value);
    }
    if KeysSound(s.fields) {
      SumFine(s.fields);
    }
    hide NoteErrors, SumErrors, Counted, Numeric, Number, Components, SharedNoted, OverlapNoted, UpperNoted;
  }

  lemma SummaryExact(system: Option<Summary>)
    ensures SummaryErrors(system) == Outcome([], true) <==> system.Some? && SummarySound(system.value)
  {
    hide KeyErrors, MissingErrors, NoteErrors, SumErrors, SummarySound, KeysSound;
    if system.Some? {
      SoundParts(system.value);
      KeysExact(system.value.fields);
      if system.value.notes.Some? {
        AllEmpty(KeyErrors(System, system.value.fields, SUMMARY_KEYS), MissingErrors(System, system.value.fields, REQUIRED_KEYS),
                 NoteErrors(system.value.notes.value), SumErrors(system.value.fields));
      }
    }
  }

  lemma ImageExact(fields: Fields, i: nat)
    ensures ImageErrors(fields, i) == [] <==> ImageSound(fields)
  {
    ImageKeysFine(ImageAt(i), fields, IMAGE_KEYS);
    hide ImageKeyErrors;
    if forall key :: key in IMAGE_KEYS ==> fields(key).Some? && Counted(fields(key)) {
      assert VirtualSize in IMAGE_KEYS && SharedSize in IMAGE_KEYS && UniqueSize in IMAGE_KEYS;
    }
  }

  lemma ContainerExact(fields: Fields, i: nat)
    ensures ContainerErrors(fields, i) == [] <==> ContainerSound(fields)
  {
    KeysFine(ContainerAt(i), fields, CONTAINER_KEYS);
    hide KeyErrors;
    assert SizeRw in CONTAINER_KEYS && SizeRootFs in CONTAINER_KEYS;
  }

  lemma {:induction false} ImagesExact(rows: seq<Option<Fields>>)
    ensures ImagesErrors(rows) == Outcome([], true) <==> forall i :: 0 <= i < |rows| ==> rows[i].Some? && ImageSound(rows[i].value)
  {
    hide ImageErrors, ImageSound;
    if rows != [] {
      var k := |rows| - 1;
      ImagesExact(rows[..k]);
      var before := ImagesErrors(rows[..k]);
      assert forall i :: 0 <= i < k ==> rows[..k][i] == rows[i];
      if rows[k].Some? {
        ImageExact(rows[k].value, k);
        assert before.errors + ImageErrors(rows[k].value, k) == [] <==> before.errors == [] && ImageErrors(rows[k].value, k) == [];
      }
    }
  }

  lemma {:induction false} ContainersExact(rows: seq<Option<Fields>>)
    ensures ContainersErrors(rows) == Outcome([], true) <==> forall i :: 0 <= i < |rows| ==> rows[i].Some? && ContainerSound(rows[i].value)
  {
    hide ContainerErrors, ContainerSound;
    if rows != [] {
      var k := |rows| - 1;
      ContainersExact(rows[..k]);
      var before := ContainersErrors(rows[..k]);
      assert forall i :: 0 <= i < k ==> rows[..k][i] == rows[i];
      if rows[k].Some? {
        ContainerExact(rows[k].value, k);
        assert before.errors + ContainerErrors(rows[k].value, k) == [] <==> before.errors == [] && ContainerErrors(rows[k].value, k) == [];
      }
    }
  }

  /** The checks report nothing exactly for a sound snapshot. */
  lemma ErrorsExact(s: Snapshot)
    ensures Errors(s) == [] <==> SnapshotSound(s)
  {
    SummaryExact(s.system);
    if s.images.Items? {
      ImagesExact(s.images.rows);
    }
    if s.containers.Items? {
      ContainersExact(s.containers.rows);
    }
    hide SummaryErrors, ImagesErrors, ContainersErrors, SummarySound, ImageSound, ContainerSound;
  }
}

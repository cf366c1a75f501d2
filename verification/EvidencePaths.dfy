/** Where the walks find their markers: every reported entry has an address, and the report is in order. */
module EvidencePaths {
  import opened Options
  import opened Text
  import opened Json
  import opened EvidenceWalk

  /** A field, by the child positions that lead to it from the root. */
  type Address = seq<nat>

  ghost predicate MarkedField(probe: Probe, value: Json, a: Address) {
    a != [] && MarkedAt(probe, value, a[..|a| - 1], a[|a| - 1])
  }

  /** The path of an address as the report spells it, after the root. */
  function Spelled(value: Json, a: Address): string
    decreases |a|
  {
    if a == [] then ""
    else match value
      case Obj(fields) =>
        if a[0] < |fields| then "." + fields[a[0]].key + Spelled(fields[a[0]].value, a[1..]) else ""
      case List(items) =>
        if a[0] < |items| then "[" + Digits(a[0]) + "]" + Spelled(items[a[0]], a[1..]) else ""
      case _ => ""
  }

  /** What the report holds of a marker: its text, or the flag. */
  function Recorded(value: Option<Json>): string {
    if value.Some? && value.value.Str? then value.value.s else "True"
  }

  function Entry(value: Json, a: Address, path: string): Evidence {
    Evidence(path + Spelled(value, a), Recorded(At(value, a)))
  }

  /** A field comes before what it contains, and that before the next field. */
  predicate Before(a: Address, b: Address)
    decreases |a|
  {
    b != [] && (a == [] || a[0] < b[0] || (a[0] == b[0] && Before(a[1..], b[1..])))
  }

  predicate Ordered(found: seq<Address>) {
    forall i, j :: 0 <= i < j < |found| ==> Before(found[i], found[j])
  }

  function Under(k: nat, found: seq<Address>): (r: seq<Address>)
    ensures |r| == |found| && forall j :: 0 <= j < |found| ==> r[j] == [k] + found[j]
  {
    seq(|found|, j requires 0 <= j < |found| => [k] + found[j])
  }

  /** The addresses of all marked fields below a value. */
  function Found(probe: Probe, value: Json): seq<Address>
    decreases value, 0, 0
  {
    match value
    case Obj(fields) => FoundFields(probe, fields, 0)
    case List(items) => FoundItems(probe, items, 0)
    case _ => []
  }

  function Own(probe: Probe, field: Member, k: nat): seq<Address> {
    if Marker(probe, field.key, field.value).Some? then [[k]] else []
  }

  function FoundFields(probe: Probe, fields: seq<Member>, k: nat): seq<Address>
    requires k <= |fields|
    decreases fields, |fields| - k, 0
  {
    if k == |fields| then []
    else Own(probe, fields[k], k) + Under(k, Found(probe, fields[k].value)) + FoundFields(probe, fields, k + 1)
  }

  function FoundItems(probe: Probe, items: seq<Json>, k: nat): seq<Address>
    requires k <= |items|
    decreases items, |items| - k, 0
  {
    if k == |items| then [] else Under(k, Found(probe, items[k])) + FoundItems(probe, items, k + 1)
  }

  // ---------- the entries ----------

  ghost predicate Lists(entries: seq<Evidence>, value: Json, found: seq<Address>, path: string) {
    |entries| == |found| && forall j :: 0 <= j < |found| ==> entries[j] == Entry(value, found[j], path)
  }

  lemma ListsJoin(a: seq<Evidence>, b: seq<Evidence>, value: Json, f: seq<Address>, g: seq<Address>, path: string)
    requires Lists(a, value, f, path) && Lists(b, value, g, path)
    ensures Lists(a + b, value, f + g, path)
  {
    hide Entry;
  }

  lemma FieldEntry(fields: seq<Member>, k: nat, a: Address, path: string)
    requires k < |fields|
    ensures Entry(Obj(fields), [k] + a, path) == Entry(fields[k].value, a, FieldPath(path, fields[k].key))
  {
    assert ([k] + a)[1..] == a;
    var rest := Spelled(fields[k].value, a);
    assert path + ("." + fields[k].key + rest) == path + "." + fields[k].key + rest;
  }

  lemma ItemEntry(items: seq<Json>, k: nat, a: Address, path: string)
    requires k < |items|
    ensures Entry(List(items), [k] + a, path) == Entry(items[k], a, ItemPath(path, k))
  {
    assert ([k] + a)[1..] == a;
    var rest := Spelled(items[k], a);
    assert path + ("[" + Digits(k) + "]" + rest) == path + "[" + Digits(k) + "]" + rest;
  }

  lemma UnderField(entries: seq<Evidence>, fields: seq<Member>, k: nat, found: seq<Address>, path: string)
    requires k < |fields| && Lists(entries, fields[k].value, found, FieldPath(path, fields[k].key))
    ensures Lists(entries, Obj(fields), Under(k, found), path)
  {
    hide Entry;
    forall j | 0 <= j < |found|
      ensures entries[j] == Entry(Obj(fields), Under(k, found)[j], path)
    {
      FieldEntry(fields, k, found[j], path);
    }
  }

  lemma UnderItem(entries: seq<Evidence>, items: seq<Json>, k: nat, found: seq<Address>, path: string)
    requires k < |items| && Lists(entries, items[k], found, ItemPath(path, k))
    ensures Lists(entries, List(items), Under(k, found), path)
  {
    hide Entry;
    forall j | 0 <= j < |found|
      ensures entries[j] == Entry(List(items), Under(k, found)[j], path)
    {
      ItemEntry(items, k, found[j], path);
    }
  }

  lemma OwnEntry(probe: Probe, fields: seq<Member>, k: nat, path: string)
    requires k < |fields|
    ensures Lists(MarkerEntry(probe, fields[k].key, fields[k].value, FieldPath(path, fields[k].key)),
                  Obj(fields), Own(probe, fields[k], k), path)
  {
    FieldEntry(fields, k, [], path);
    assert [k] + [] == [k];
    hide ContainsAny, Lower;
    var here := FieldPath(path, fields[k].key);
    assert here + "" == here;
  }

  lemma {:induction false} EntriesAt(probe: Probe, value: Json, path: string)
    ensures Lists(AllMarkers(probe, value, path), value, Found(probe, value), path)
    decreases value, 0, 0
  {
    match value
    case Obj(fields) =>
      FieldEntries(probe, fields, 0, path);
      assert fields[0..] == fields;
    case List(items) =>
      ItemEntries(probe, items, 0, path);
      assert items[0..] == items;
    case _ =>
  }

  lemma {:induction false} FieldEntries(probe: Probe, fields: seq<Member>, k: nat, path: string)
    requires k <= |fields|
    ensures Lists(FieldMarkers(probe, fields[k..], path), Obj(fields), FoundFields(probe, fields, k), path)
    decreases fields, |fields| - k, 0
  {
    hide Lists, Own, MarkerEntry, Under;
    if k == |fields| {
      NoEntries(Obj(fields), path);
    } else {
      var here := FieldPath(path, fields[k].key);
      var own, below := MarkerEntry(probe, fields[k].key, fields[k].value, here), AllMarkers(probe, fields[k].value, here);
      var found := Found(probe, fields[k].value);
      OwnEntry(probe, fields, k, path);
      EntriesAt(probe, fields[k].value, here);
      UnderField(below, fields, k, found, path);
      FieldEntries(probe, fields, k + 1, path);
      ListsJoin(own, below, Obj(fields), Own(probe, fields[k], k), Under(k, found), path);
      ListsJoin(own + below, FieldMarkers(probe, fields[k + 1..], path), Obj(fields),
                Own(probe, fields[k], k) + Under(k, found), FoundFields(probe, fields, k + 1), path);
      assert fields[k..][0] == fields[k] && fields[k..][1..] == fields[k + 1..];
    }
  }

  lemma {:induction false} ItemEntries(probe: Probe, items: seq<Json>, k: nat, path: string)
    requires k <= |items|
    ensures Lists(ItemMarkers(probe, items[k..], k, path), List(items), FoundItems(probe, items, k), path)
    decreases items, |items| - k, 0
  {
    hide Lists, Under;
    if k == |items| {
      NoEntries(List(items), path);
    } else {
      var below := AllMarkers(probe, items[k], ItemPath(path, k));
      EntriesAt(probe, items[k], ItemPath(path, k));
      UnderItem(below, items, k, Found(probe, items[k]), path);
      ItemEntries(probe, items, k + 1, path);
      ListsJoin(below, ItemMarkers(probe, items[k + 1..], k + 1, path), List(items), Under(k, Found(probe, items[k])),
                FoundItems(probe, items, k + 1), path);
      assert items[k..][0] == items[k] && items[k..][1..] == items[k + 1..];
    }
  }

  lemma NoEntries(value: Json, path: string)
    ensures Lists([], value, [], path)
  {
  }

  // ---------- which addresses ----------

  lemma MarkedBelow(probe: Probe, value: Json, a: Address)
    ensures MarkedField(probe, value, a) <==>
            && a != []
            && match value
               case Obj(fields) =>
                 && a[0] < |fields|
                 && (if |a| == 1 then Marker(probe, fields[a[0]].key, fields[a[0]].value).Some?
                     else MarkedField(probe, fields[a[0]].value, a[1..]))
               case List(items) => a[0] < |items| && |a| > 1 && MarkedField(probe, items[a[0]], a[1..])
               case _ => false
  {
    hide Marker;
    if |a| > 1 {
      assert a[..|a| - 1][0] == a[0] && a[..|a| - 1][1..] == a[1..][..|a| - 2];
    } else if |a| == 1 {
      assert a[..0] == [];
    }
  }

  lemma InUnder(k: nat, found: seq<Address>, a: Address)
    ensures a in Under(k, found) <==> a != [] && a[0] == k && a[1..] in found
  {
    if a != [] && a[0] == k && a[1..] in found {
      var j :| 0 <= j < |found| && found[j] == a[1..];
      assert Under(k, found)[j] == a;
    }
    if a in Under(k, found) {
      var j :| 0 <= j < |found| && Under(k, found)[j] == a;
      assert a[1..] == found[j];
    }
  }

  lemma {:induction false} FoundExact(probe: Probe, value: Json, a: Address)
    ensures a in Found(probe, value) <==> MarkedField(probe, value, a)
    decreases value, 0, 0
  {
    MarkedBelow(probe, value, a);
    hide MarkedField, Marker;
    match value
    case Obj(fields) => FoundFieldsExact(probe, fields, 0, a);
    case List(items) => FoundItemsExact(probe, items, 0, a);
    case _ =>
  }

  lemma NotEmptyAddress(probe: Probe, value: Json)
    ensures !MarkedField(probe, value, [])
  {
  }

  lemma {:induction false} FoundFieldsExact(probe: Probe, fields: seq<Member>, k: nat, a: Address)
    requires k <= |fields|
    ensures a in FoundFields(probe, fields, k) <==>
            && a != [] && k <= a[0] < |fields|
            && (if |a| == 1 then Marker(probe, fields[a[0]].key, fields[a[0]].value).Some?
                else MarkedField(probe, fields[a[0]].value, a[1..]))
    decreases fields, |fields| - k, 0
  {
    hide MarkedField, Marker;
    if k < |fields| {
      FoundFieldsExact(probe, fields, k + 1, a);
      InUnder(k, Found(probe, fields[k].value), a);
      if a != [] {
        FoundExact(probe, fields[k].value, a[1..]);
        NotEmptyAddress(probe, fields[k].value);
      }
      assert a in Own(probe, fields[k], k) <==> a == [k] && Marker(probe, fields[k].key, fields[k].value).Some?;
      assert a == [k] <==> |a| == 1 && a[0] == k;
    }
  }

  lemma {:induction false} FoundItemsExact(probe: Probe, items: seq<Json>, k: nat, a: Address)
    requires k <= |items|
    ensures a in FoundItems(probe, items, k) <==>
            a != [] && k <= a[0] < |items| && |a| > 1 && MarkedField(probe, items[a[0]], a[1..])
    decreases items, |items| - k, 0
  {
    hide MarkedField;
    if k < |items| {
      FoundItemsExact(probe, items, k + 1, a);
      InUnder(k, Found(probe, items[k]), a);
      if a != [] {
        FoundExact(probe, items[k], a[1..]);
        NotEmptyAddress(probe, items[k]);
      }
    }
  }

  // ---------- in which order ----------

  ghost predicate StartFrom(found: seq<Address>, k: nat) {
    forall j :: 0 <= j < |found| ==> found[j] != [] && k <= found[j][0]
  }

  lemma UnderOrdered(k: nat, found: seq<Address>)
    requires Ordered(found)
    ensures Ordered(Under(k, found)) && StartFrom(Under(k, found), k)
  {
    var r := Under(k, found);
    forall i, j | 0 <= i < j < |r|
      ensures Before(r[i], r[j])
    {
      assert r[i][1..] == found[i] && r[j][1..] == found[j];
    }
  }

  /** Addresses under one position come before those that start at a later one. */
  lemma OrderedJoin(f: seq<Address>, g: seq<Address>, k: nat)
    requires Ordered(f) && Ordered(g) && StartFrom(g, k + 1)
    requires forall j :: 0 <= j < |f| ==> f[j] != [] && f[j][0] == k
    ensures Ordered(f + g)
  {
    forall i, j | 0 <= i < j < |f + g|
      ensures Before((f + g)[i], (f + g)[j])
    {
      if i < |f| && j >= |f| {
        assert (f + g)[j] == g[j - |f|];
      }
    }
  }

  lemma FirstOrdered(first: Address, rest: seq<Address>)
    requires Ordered(rest) && forall j :: 0 <= j < |rest| ==> Before(first, rest[j])
    ensures Ordered([first] + rest)
  {
    hide Before;
    forall i, j | 0 <= i < j < |[first] + rest|
      ensures Before(([first] + rest)[i], ([first] + rest)[j])
    {
      assert ([first] + rest)[j] == rest[j - 1];
    }
  }

  lemma OwnFirst(own: seq<Address>, k: nat, found: seq<Address>)
    requires own == [] || own == [[k]]
    requires Ordered(found) && [] !in found
    ensures var r := own + Under(k, found);
            Ordered(r) && forall j :: 0 <= j < |r| ==> r[j] != [] && r[j][0] == k
  {
    UnderOrdered(k, found);
    var under := Under(k, found);
    if own == [[k]] {
      forall j | 0 <= j < |under|
        ensures Before([k], under[j])
      {
        assert under[j][1..] == found[j] && [k][1..] == [];
      }
      hide Ordered, Before;
      FirstOrdered([k], under);
    } else {
      assert own + under == under;
    }
  }

  lemma {:induction false} FoundOrdered(probe: Probe, value: Json)
    ensures Ordered(Found(probe, value)) && [] !in Found(probe, value)
    decreases value, 0, 0
  {
    match value
    case Obj(fields) => FieldsOrdered(probe, fields, 0);
    case List(items) => ItemsOrdered(probe, items, 0);
    case _ =>
  }

  lemma {:induction false} FieldsOrdered(probe: Probe, fields: seq<Member>, k: nat)
    requires k <= |fields|
    ensures Ordered(FoundFields(probe, fields, k)) && StartFrom(FoundFields(probe, fields, k), k)
    decreases fields, |fields| - k, 0
  {
    hide Ordered;
    if k < |fields| {
      var own, found := Own(probe, fields[k], k), Found(probe, fields[k].value);
      FoundOrdered(probe, fields[k].value);
      OwnFirst(own, k, found);
      FieldsOrdered(probe, fields, k + 1);
      OrderedJoin(own + Under(k, found), FoundFields(probe, fields, k + 1), k);
    } else {
      NothingOrdered();
    }
  }

  lemma NothingOrdered()
    ensures Ordered([])
  {
  }

  lemma {:induction false} ItemsOrdered(probe: Probe, items: seq<Json>, k: nat)
    requires k <= |items|
    ensures Ordered(FoundItems(probe, items, k)) && StartFrom(FoundItems(probe, items, k), k)
    decreases items, |items| - k, 0
  {
    hide Ordered;
    if k < |items| {
      var found := Found(probe, items[k]);
      FoundOrdered(probe, items[k]);
      OwnFirst([], k, found);
      assert [] + Under(k, found) == Under(k, found);
      ItemsOrdered(probe, items, k + 1);
      OrderedJoin(Under(k, found), FoundItems(probe, items, k + 1), k);
    } else {
      NothingOrdered();
    }
  }

  // ---------- the report ----------

  /** These are all the marked fields, in order. */
  ghost predicate AllMarked(probe: Probe, data: Json, found: seq<Address>) {
    && Ordered(found)
    && forall a :: a in found <==> MarkedField(probe, data, a)
  }

  /**
   * A walk reports the first sixteen of all marked fields, a field before what it contains and in the
   * order of the artifact, each under its spelled-out path with its text.
   */
  lemma ReportExact(probe: Probe, data: Json)
    ensures var found := Found(probe, data);
            && AllMarked(probe, data, found)
            && |Report(probe, data)| == (if |found| <= BOUND then |found| else BOUND)
            && forall j :: 0 <= j < |Report(probe, data)| ==> Report(probe, data)[j] == Entry(data, found[j], "$")
  {
    EntriesAt(probe, data, "$");
    FoundOrdered(probe, data);
    hide MarkedField, Entry, Found, AllMarkers, Ordered;
    forall a: Address
      ensures a in Found(probe, data) <==> MarkedField(probe, data, a)
    {
      FoundExact(probe, data, a);
    }
  }
}

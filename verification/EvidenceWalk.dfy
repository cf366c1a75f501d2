/**
 * The two bounded walks that look for fail-closed markers anywhere in a compare
 * artifact. Each stops as soon as sixteen entries have been recorded.
 */
module EvidenceWalk {
  import opened Options
  import opened Text
  import opened Json

  const BOUND: nat := 16

  datatype Evidence = Evidence(path: string, value: string)

  /** What a walk looks for: text fields holding a token, and possibly a flag field set to true. */
  datatype Probe = Probe(keys: seq<string>, tokens: seq<string>, flag: Option<string>)

  const FAIL_CLOSED_TOKENS := [
    "cpu-oracle-required", "oracle_fail_closed", "oracle-fail-closed", "oracle-pending"
  ]

  function UnsupportedWork(tokens: seq<string>): Probe {
    Probe(
      ["status", "latest_status", "error", "blocker_class", "classification", "diagnostic_interpretation"],
      tokens, None)
  }

  function OracleFailClosed(): Probe {
    Probe(
      ["status", "latest_status", "stage", "fail_stage", "error", "blocker_class", "classification",
       "diagnostic_interpretation"],
      FAIL_CLOSED_TOKENS, Some("oracle_fail_closed"))
  }

  /** The recorded value when the field itself is a marker. */
  function Marker(probe: Probe, key: string, child: Json): Option<string> {
    if probe.flag == Some(key) && child == True then Some("True")
    else if key in probe.keys && child.Str? && ContainsAny(Lower(child.s), probe.tokens) then Some(child.s)
    else None
  }

  function MarkerEntry(probe: Probe, key: string, child: Json, path: string): seq<Evidence> {
    match Marker(probe, key, child)
    case Some(text) => [Evidence(path, text)]
    case None => []
  }

  function FieldPath(path: string, key: string): string {
    path + "." + key
  }

  function ItemPath(path: string, index: nat): string {
    path + "[" + Digits(index) + "]"
  }

  /** All markers below a value in pre-order: a field before what it contains. */
  function AllMarkers(probe: Probe, value: Json, path: string): seq<Evidence>
    decreases value, 1
  {
    match value
    case Obj(fields) => FieldMarkers(probe, fields, path)
    case List(items) => ItemMarkers(probe, items, 0, path)
    case _ => []
  }

  function FieldMarkers(probe: Probe, fields: seq<Member>, path: string): seq<Evidence>
    decreases fields, 0
  {
    if fields == [] then []
    else OneField(probe, fields[0], path) + FieldMarkers(probe, fields[1..], path)
  }

  /** A field's own marker comes before the markers inside its value. */
  function OneField(probe: Probe, field: Member, path: string): seq<Evidence>
    decreases field, 0
  {
    var here := FieldPath(path, field.key);
    MarkerEntry(probe, field.key, field.value, here) + AllMarkers(probe, field.value, here)
  }

  function ItemMarkers(probe: Probe, items: seq<Json>, first: nat, path: string): seq<Evidence>
    decreases items, 0
  {
    if items == [] then []
    else AllMarkers(probe, items[0], ItemPath(path, first)) + ItemMarkers(probe, items[1..], first + 1, path)
  }

  function Bounded(all: seq<Evidence>): seq<Evidence> {
    if |all| <= BOUND then all else all[..BOUND]
  }

  /** The evidence a walk reports for a whole artifact. */
  function Report(probe: Probe, data: Json): seq<Evidence> {
    Bounded(AllMarkers(probe, data, "$"))
  }

  // ---------- the walks as the script runs them ----------

  class Walk {
    var evidence: seq<Evidence>

    constructor ()
      ensures evidence == []
    {
      evidence := [];
    }

    /** One field of the unsupported-work walk: record it, then descend, unless the bound is reached. */
    method FieldUnsupported(probe: Probe, field: Member, path: string)
      requires |evidence| < BOUND && probe.flag == None
      modifies this
      ensures evidence == Bounded(old(evidence) + OneField(probe, field, path))
      decreases field, 0
    {
      var Member(key, child) := field;
      var here := FieldPath(path, key);
      ghost var own, below := MarkerEntry(probe, key, child, here), AllMarkers(probe, child, here);
      BoundedStep(evidence, own, below);
      EmptySuffix(evidence);
      if key in probe.keys && child.Str? {
        var lowered := Lower(child.s);
        if ContainsAny(lowered, probe.tokens) {
          evidence := evidence + [Evidence(here, child.s)];
          if |evidence| >= BOUND {
            BoundedFull(evidence, below);
            return;
          }
        }
      }
      VisitUnsupported(probe, child, here);
    }

    /** `visit` of `_unsupported_gpu_work_evidence`. */
    method VisitUnsupported(probe: Probe, value: Json, path: string)
      requires |evidence| <= BOUND && probe.flag == None
      modifies this
      ensures evidence == Bounded(old(evidence) + AllMarkers(probe, value, path))
      decreases value, 1
    {
      ghost var goal := Bounded(evidence + AllMarkers(probe, value, path));
      if |evidence| >= BOUND {
        BoundedFull(evidence, AllMarkers(probe, value, path));
        return;
      }
      match value
      case Obj(fields) =>
        assert fields[0..] == fields;
        for i := 0 to |fields|
          invariant |evidence| < BOUND
          invariant goal == Bounded(evidence + FieldMarkers(probe, fields[i..], path))
        {
          ghost var rest := FieldMarkers(probe, fields[i + 1..], path);
          assert fields[i..][0] == fields[i] && fields[i..][1..] == fields[i + 1..];
          BoundedStep(evidence, OneField(probe, fields[i], path), rest);
          FieldUnsupported(probe, fields[i], path);
          if |evidence| >= BOUND {
            BoundedFull(evidence, rest);
            return;
          }
        }
        EmptySuffix(evidence);
      case List(items) =>
        assert items[0..] == items;
        for i := 0 to |items|
          invariant |evidence| < BOUND
          invariant goal == Bounded(evidence + ItemMarkers(probe, items[i..], i, path))
        {
          ghost var rest := ItemMarkers(probe, items[i + 1..], i + 1, path);
          assert items[i..][0] == items[i] && items[i..][1..] == items[i + 1..];
          BoundedStep(evidence, AllMarkers(probe, items[i], ItemPath(path, i)), rest);
          VisitUnsupported(probe, items[i], ItemPath(path, i));
          if |evidence| >= BOUND {
            BoundedFull(evidence, rest);
            return;
          }
        }
        EmptySuffix(evidence);
      case _ =>
        EmptySuffix(evidence);
    }

    /** Append unless the bound is reached. */
    method Add(path: string, text: string)
      requires |evidence| <= BOUND
      modifies this
      ensures evidence == Bounded(old(evidence) + [Evidence(path, text)])
    {
      if |evidence| < BOUND {
        evidence := evidence + [Evidence(path, text)];
      } else {
        BoundedFull(evidence, [Evidence(path, text)]);
      }
    }

    /** One field of the oracle walk: the flag field is tested before the text fields. */
    method FieldOracle(probe: Probe, field: Member, path: string)
      requires |evidence| <= BOUND
      modifies this
      ensures evidence == Bounded(old(evidence) + OneField(probe, field, path))
      decreases field, 0
    {
      var Member(key, child) := field;
      var here := FieldPath(path, key);
      ghost var own, below := MarkerEntry(probe, key, child, here), AllMarkers(probe, child, here);
      BoundedStep(evidence, own, below);
      EmptySuffix(evidence);
      if probe.flag == Some(key) && child == True {
        Add(here, "True");
      } else if key in probe.keys && child.Str? {
        var lowered := Lower(child.s);
        if ContainsAny(lowered, probe.tokens) {
          Add(here, child.s);
        }
      }
      if |evidence| >= BOUND {
        BoundedFull(evidence, below);
        return;
      }
      VisitOracle(probe, child, here);
    }

    /** `visit` of `_oracle_fail_closed_evidence`. */
    method VisitOracle(probe: Probe, value: Json, path: string)
      requires |evidence| <= BOUND
      modifies this
      ensures evidence == Bounded(old(evidence) + AllMarkers(probe, value, path))
      decreases value, 1
    {
      ghost var goal := Bounded(evidence + AllMarkers(probe, value, path));
      if |evidence| >= BOUND {
        BoundedFull(evidence, AllMarkers(probe, value, path));
        return;
      }
      match value
      case Obj(fields) =>
        assert fields[0..] == fields;
        for i := 0 to |fields|
          invariant |evidence| < BOUND
          invariant goal == Bounded(evidence + FieldMarkers(probe, fields[i..], path))
        {
          ghost var rest := FieldMarkers(probe, fields[i + 1..], path);
          assert fields[i..][0] == fields[i] && fields[i..][1..] == fields[i + 1..];
          BoundedStep(evidence, OneField(probe, fields[i], path), rest);
          FieldOracle(probe, fields[i], path);
          if |evidence| >= BOUND {
            BoundedFull(evidence, rest);
            return;
          }
        }
        EmptySuffix(evidence);
      case List(items) =>
        assert items[0..] == items;
        for i := 0 to |items|
          invariant |evidence| < BOUND
          invariant goal == Bounded(evidence + ItemMarkers(probe, items[i..], i, path))
        {
          ghost var rest := ItemMarkers(probe, items[i + 1..], i + 1, path);
          assert items[i..][0] == items[i] && items[i..][1..] == items[i + 1..];
          BoundedStep(evidence, AllMarkers(probe, items[i], ItemPath(path, i)), rest);
          VisitOracle(probe, items[i], ItemPath(path, i));
          if |evidence| >= BOUND {
            BoundedFull(evidence, rest);
            return;
          }
        }
        EmptySuffix(evidence);
      case _ =>
        EmptySuffix(evidence);
    }
  }

  lemma EmptySuffix(a: seq<Evidence>)
    ensures a + [] == a
  {
  }

  /** Once the bound is reached nothing further is kept. */
  lemma BoundedFull(a: seq<Evidence>, b: seq<Evidence>)
    requires |a| == BOUND
    ensures Bounded(a + b) == a
  {
    assert (a + b)[..BOUND] == a;
  }

  /** Cutting early never loses an entry that belongs to the first sixteen. */
  lemma BoundedStep(a: seq<Evidence>, b: seq<Evidence>, c: seq<Evidence>)
    ensures Bounded(a + (b + c)) == Bounded(Bounded(a + b) + c)
  {
    assert a + (b + c) == (a + b) + c;
    if |a + b| > BOUND {
      assert (a + b + c)[..BOUND] == (a + b)[..BOUND];
      assert ((a + b)[..BOUND] + c)[..BOUND] == (a + b)[..BOUND];
    }
  }

  /** `_unsupported_gpu_work_evidence` */
  method UnsupportedEvidence(tokens: seq<string>, data: Json) returns (evidence: seq<Evidence>)
    ensures evidence == Report(UnsupportedWork(tokens), data)
  {
    var walk := new Walk();
    walk.VisitUnsupported(UnsupportedWork(tokens), data, "$");
    evidence := walk.evidence;
    EmptyPrefix(AllMarkers(UnsupportedWork(tokens), data, "$"));
  }

  /** `_oracle_fail_closed_evidence` */
  method OracleEvidence(data: Json) returns (evidence: seq<Evidence>)
    ensures evidence == Report(OracleFailClosed(), data)
  {
    var walk := new Walk();
    walk.VisitOracle(OracleFailClosed(), data, "$");
    evidence := walk.evidence;
    EmptyPrefix(AllMarkers(OracleFailClosed(), data, "$"));
  }

  lemma EmptyPrefix(a: seq<Evidence>)
    ensures [] + a == a
  {
  }

  // ---------- what an empty report means ----------

  /** The value reached by following child positions from the root. */
  function At(value: Json, address: seq<nat>): Option<Json>
    decreases |address|
  {
    if address == [] then Some(value)
    else match value
      case Obj(fields) => if address[0] < |fields| then At(fields[address[0]].value, address[1..]) else None
      case List(items) => if address[0] < |items| then At(items[address[0]], address[1..]) else None
      case _ => None
  }

  /** The object at an address carries a marker in its i-th field. */
  ghost predicate MarkedAt(probe: Probe, value: Json, address: seq<nat>, i: nat) {
    match At(value, address)
    case Some(Obj(fields)) => i < |fields| && Marker(probe, fields[i].key, fields[i].value).Some?
    case _ => false
  }

  ghost predicate MarkedSomewhere(probe: Probe, value: Json) {
    exists address, i :: MarkedAt(probe, value, address, i)
  }

  /** A walk reports nothing exactly when no object at any depth carries a marker. */
  lemma EmptyReportMeansUnmarked(probe: Probe, data: Json)
    ensures Report(probe, data) == [] <==> !MarkedSomewhere(probe, data)
  {
    if MarkedSomewhere(probe, data) {
      var address, i :| MarkedAt(probe, data, address, i);
      MarkedIsFound(probe, data, "$", address, i);
    }
    if AllMarkers(probe, data, "$") != [] {
      var address, i := FoundIsMarked(probe, data, "$");
    }
  }

  lemma {:induction false} MarkedIsFound(probe: Probe, value: Json, path: string, address: seq<nat>, i: nat)
    requires MarkedAt(probe, value, address, i)
    ensures AllMarkers(probe, value, path) != []
    decreases |address|
  {
    match value
    case Obj(fields) =>
      var k := if address == [] then i else address[0];
      FieldMarkersSplit(probe, fields, path, k);
      if address != [] {
        MarkedIsFound(probe, fields[k].value, FieldPath(path, fields[k].key), address[1..], i);
      }
    case List(items) =>
      ItemMarkersSplit(probe, items, 0, path, address[0]);
      MarkedIsFound(probe, items[address[0]], ItemPath(path, address[0]), address[1..], i);
    case _ =>
      assert false;
  }

  /** What one field contributes is part of what its object contributes. */
  lemma {:induction false} FieldMarkersSplit(probe: Probe, fields: seq<Member>, path: string, k: nat)
    requires k < |fields|
    ensures var here := FieldPath(path, fields[k].key);
            |FieldMarkers(probe, fields, path)| >=
              |MarkerEntry(probe, fields[k].key, fields[k].value, here)| + |AllMarkers(probe, fields[k].value, here)|
  {
    if k > 0 {
      FieldMarkersSplit(probe, fields[1..], path, k - 1);
    }
  }

  lemma {:induction false} ItemMarkersSplit(probe: Probe, items: seq<Json>, first: nat, path: string, k: nat)
    requires k < |items|
    ensures |ItemMarkers(probe, items, first, path)| >= |AllMarkers(probe, items[k], ItemPath(path, first + k))|
  {
    if k > 0 {
      ItemMarkersSplit(probe, items[1..], first + 1, path, k - 1);
    }
  }

  lemma {:induction false} FoundIsMarked(probe: Probe, value: Json, path: string) returns (address: seq<nat>, i: nat)
    requires AllMarkers(probe, value, path) != []
    ensures MarkedAt(probe, value, address, i)
    decreases value, 1
  {
    match value
    case Obj(fields) =>
      var k, rest, j := FieldFound(probe, fields, path);
      if Marker(probe, fields[k].key, fields[k].value).Some? {
        address, i := [], k;
      } else {
        address, i := [k] + rest, j;
        assert address[1..] == rest;
      }
    case List(items) =>
      var k, rest, j := ItemFound(probe, items, 0, path);
      address, i := [k] + rest, j;
      assert address[1..] == rest;
    case _ =>
      assert false;
  }

  lemma {:induction false} FieldFound(probe: Probe, fields: seq<Member>, path: string)
    returns (k: nat, rest: seq<nat>, i: nat)
    requires FieldMarkers(probe, fields, path) != []
    ensures k < |fields|
    ensures Marker(probe, fields[k].key, fields[k].value).Some? || MarkedAt(probe, fields[k].value, rest, i)
    decreases fields, 0
  {
    var Member(key, child) := fields[0];
    var here := FieldPath(path, key);
    k, rest, i := 0, [], 0;
    if Marker(probe, key, child).None? {
      if AllMarkers(probe, child, here) != [] {
        rest, i := FoundIsMarked(probe, child, here);
      } else {
        k, rest, i := FieldFound(probe, fields[1..], path);
        k := k + 1;
      }
    }
  }

  lemma {:induction false} ItemFound(probe: Probe, items: seq<Json>, first: nat, path: string)
    returns (k: nat, rest: seq<nat>, i: nat)
    requires ItemMarkers(probe, items, first, path) != []
    ensures k < |items| && MarkedAt(probe, items[k], rest, i)
    decreases items, 0
  {
    if AllMarkers(probe, items[0], ItemPath(path, first)) != [] {
      k := 0;
      rest, i := FoundIsMarked(probe, items[0], ItemPath(path, first));
    } else {
      k, rest, i := ItemFound(probe, items[1..], first + 1, path);
      k := k + 1;
    }
  }
}

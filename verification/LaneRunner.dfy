/** The lane runner: nested loops over lanes and commands that stop at the first failure. */
module LaneRunner {

  /** What running a command came to. */
  datatype Outcome = Outcome(exitCode: int, artifacts: seq<string>)

  datatype Result = Result(lane: string, id: string, outcome: Outcome)

  datatype Status = Pass | Fail

  /** A lane is the identifiers of its commands. */
  type Lanes = map<string, seq<string>>

  predicate Failed(r: Result) {
    r.outcome.exitCode != 0
  }

  // ---------- the flat list ----------

  /** The commands of one lane, as the results they have when the first of them is the k-th to run. */
  function LaneResults(lane: string, ids: seq<string>, k: nat, outcome: nat -> Outcome): (r: seq<Result>)
    ensures |r| == |ids|
  {
    seq(|ids|, i requires 0 <= i < |ids| => Result(lane, ids[i], outcome(k + i)))
  }

  /** All commands of the selected lanes in order, each with the result it has if it is reached. */
  function Flat(lanes: Lanes, selected: seq<string>, outcome: nat -> Outcome): seq<Result>
    requires forall name :: name in selected ==> name in lanes
  {
    if selected == [] then []
    else
      var last := selected[|selected| - 1];
      var before := Flat(lanes, selected[..|selected| - 1], outcome);
      before + LaneResults(last, lanes[last], |before|, outcome)
  }

  /** The shortest prefix that ends with a failure, or everything when nothing fails. */
  function UpToFailure(results: seq<Result>): (r: seq<Result>)
    ensures r <= results
    ensures forall i :: 0 <= i < |r| - 1 ==> !Failed(r[i])
    ensures |r| < |results| ==> r != [] && Failed(r[|r| - 1])
  {
    if results == [] then []
    else if Failed(results[0]) then [results[0]]
    else [results[0]] + UpToFailure(results[1..])
  }

  function Expected(all: seq<Result>, continueOnFail: bool): seq<Result> {
    if continueOnFail then all else UpToFailure(all)
  }

  predicate NoneFailed(results: seq<Result>) {
    forall i :: 0 <= i < |results| ==> !Failed(results[i])
  }

  lemma {:induction false} CleanPrefixRuns(a: seq<Result>, b: seq<Result>)
    requires NoneFailed(a)
    ensures UpToFailure(a + b) == a + UpToFailure(b)
  {
    if a == [] {
      assert a + b == b;
    } else {
      assert (a + b)[1..] == a[1..] + b;
      CleanPrefixRuns(a[1..], b);
    }
  }

  /** Nothing that comes later matters once a command has failed. */
  lemma FailureEnds(a: seq<Result>, failed: Result, rest: seq<Result>)
    requires NoneFailed(a) && Failed(failed)
    ensures UpToFailure(a + ([failed] + rest)) == a + [failed]
  {
    CleanPrefixRuns(a, [failed] + rest);
  }

  lemma {:induction false} FlatPrefix(lanes: Lanes, selected: seq<string>, j: nat, outcome: nat -> Outcome)
    requires j <= |selected| && forall name :: name in selected ==> name in lanes
    ensures Flat(lanes, selected[..j], outcome) <= Flat(lanes, selected, outcome)
    decreases |selected|
  {
    if j < |selected| {
      var k := |selected| - 1;
      assert selected[..k][..j] == selected[..j];
      FlatPrefix(lanes, selected[..k], j, outcome);
    } else {
      assert selected[..j] == selected;
    }
  }

  /** How far the run has come: everything before, and the first i commands of one more lane. */
  lemma Reached(lanes: Lanes, selected: seq<string>, j: nat, i: nat, outcome: nat -> Outcome)
    requires j < |selected| && forall name :: name in selected ==> name in lanes
    requires i <= |lanes[selected[j]]|
    ensures var before := Flat(lanes, selected[..j], outcome);
            before + LaneResults(selected[j], lanes[selected[j]], |before|, outcome)[..i] <= Flat(lanes, selected, outcome)
  {
    assert selected[..j + 1][..j] == selected[..j];
    FlatPrefix(lanes, selected, j + 1, outcome);
  }

  lemma OneMoreVerdict(results: seq<Result>, result: Result)
    ensures NoneFailed(results + [result]) <==> NoneFailed(results) && !Failed(result)
  {
    hide Failed;
    var more := results + [result];
    assert more[|results|] == result && forall i :: 0 <= i < |results| ==> more[i] == results[i];
  }

  lemma LaneResultAt(lane: string, ids: seq<string>, k: nat, outcome: nat -> Outcome, i: nat)
    requires i < |ids|
    ensures LaneResults(lane, ids, k, outcome)[i] == Result(lane, ids[i], outcome(k + i))
  {
  }

  lemma NoFailuresAtAll(all: seq<Result>)
    requires NoneFailed(all)
    ensures UpToFailure(all) == all
  {
    CleanPrefixRuns(all, []);
    assert all + [] == all;
  }

  // ---------- the run ----------

  /**
   * The loops of `main`: the results are the expected part of the flat list, and the status says
   * exactly whether every recorded exit code is 0.
   */
  method RunLanes(lanes: Lanes, selected: seq<string>, continueOnFail: bool, outcome: nat -> Outcome)
    returns (results: seq<Result>, status: Status)
    requires forall name :: name in selected ==> name in lanes
    ensures results == Expected(Flat(lanes, selected, outcome), continueOnFail)
    ensures status == Pass <==> NoneFailed(results)
  {
    results, status := [], Pass;
    assert NoneFailed(results);
    hide NoneFailed, Failed, LaneResults, UpToFailure;
    ghost var all := Flat(lanes, selected, outcome);
    for j := 0 to |selected|
      invariant results == Flat(lanes, selected[..j], outcome)
      invariant status == Pass <==> NoneFailed(results)
      invariant status == Fail ==> continueOnFail
    {
      assert selected[..j + 1][..j] == selected[..j];
      var lane := selected[j];
      var ids := lanes[lane];
      ghost var before := results;
      ghost var own := LaneResults(lane, ids, |before|, outcome);
      for i := 0 to |ids|
        invariant results == before + own[..i]
        invariant status == Pass <==> NoneFailed(results)
        invariant status == Fail ==> continueOnFail
      {
        var result := Result(lane, ids[i], outcome(|results|));
        LaneResultAt(lane, ids, |before|, outcome, i);
        assert own[..i + 1] == own[..i] + [result];
        Reached(lanes, selected, j, i + 1, outcome);
        ghost var earlier := results;
        results := results + [result];
        OneMoreVerdict(earlier, result);
        if Failed(result) {
          status := Fail;
          if !continueOnFail {
            assert results <= all;
            assert all == earlier + ([result] + all[|results|..]);
            FailureEnds(earlier, result, all[|results|..]);
            return;
          }
        }
      }
      assert own[..|ids|] == own;
    }
    assert selected[..|selected|] == selected;
    if !continueOnFail {
      NoFailuresAtAll(all);
    }
  }

  function AllArtifacts(results: seq<Result>): seq<string> {
    if results == [] then [] else results[0].outcome.artifacts + AllArtifacts(results[1..])
  }

  /** The artifact list of the run manifest: those of each result, in the order the commands ran. */
  method CollectArtifacts(results: seq<Result>) returns (artifacts: seq<string>)
    ensures artifacts == AllArtifacts(results)
  {
    artifacts := [];
    for i := 0 to |results|
      invariant artifacts + AllArtifacts(results[i..]) == AllArtifacts(results)
    {
      assert results[i..][1..] == results[i + 1..];
      artifacts := artifacts + results[i].outcome.artifacts;
    }
    assert results[|results|..] == [];
  }

  lemma {:induction false} ArtifactsJoin(a: seq<Result>, b: seq<Result>)
    ensures AllArtifacts(a + b) == AllArtifacts(a) + AllArtifacts(b)
  {
    if a == [] {
      assert a + b == b;
    } else {
      assert (a + b)[1..] == a[1..] + b;
      ArtifactsJoin(a[1..], b);
    }
  }

  /** Stopping early only cuts the artifact list: it is a prefix of what continuing would record. */
  lemma StoppingKeepsArtifacts(all: seq<Result>)
    ensures AllArtifacts(Expected(all, false)) <= AllArtifacts(Expected(all, true))
  {
    var part := UpToFailure(all);
    assert all == part + all[|part|..];
    ArtifactsJoin(part, all[|part|..]);
  }

  /** Stopping and continuing agree on the verdict. */
  lemma StoppingKeepsVerdict(all: seq<Result>)
    ensures NoneFailed(Expected(all, false)) <==> NoneFailed(Expected(all, true))
  {
    var part := UpToFailure(all);
    if NoneFailed(part) {
      assert |part| == |all|;
      assert part == all;
    } else {
      var f :| 0 <= f < |part| && Failed(part[f]);
      assert Failed(all[f]);
    }
  }
}

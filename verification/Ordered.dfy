/**
 * The order check of the crash-safety contract: every needle must be found
 * after the start of the previous one, searching leftmost first.
 */
module Ordered {
  import opened Text

  /** Positions that place every needle in the text, in strictly increasing order. */
  ghost predicate Embedding(text: string, needles: seq<string>, at: seq<nat>) {
    && |at| == |needles|
    && (forall k :: 0 <= k < |at| ==> OccursAt(text, needles[k], at[k]))
    && (forall j, k :: 0 <= j < k < |at| ==> at[j] < at[k])
  }

  ghost predicate Embeds(text: string, needles: seq<string>) {
    exists at: seq<nat> :: Embedding(text, needles, at)
  }

  /** No embedding of the needles ends before `pos`: the greedy choice is leftmost. */
  ghost predicate Leftmost(text: string, needles: seq<string>, pos: int) {
    forall at: seq<nat> :: Embedding(text, needles, at) && |at| > 0 ==> pos <= at[|at| - 1]
  }

  method InOrder(text: string, needles: seq<string>) returns (ok: bool)
    ensures ok <==> Embeds(text, needles)
  {
    var pos := -1;
    ghost var at: seq<nat> := [];
    for k := 0 to |needles|
      invariant -1 <= pos
      invariant Embedding(text, needles[..k], at)
      invariant k == 0 <==> pos == -1
      invariant k > 0 ==> pos == at[k - 1]
      invariant Leftmost(text, needles[..k], pos)
    {
      var idx := Find(text, needles[k], pos + 1);
      if idx < 0 {
        NoExtension(text, needles, k, pos);
        return false;
      }
      LeftmostExtends(text, needles, k, pos, idx);
      EmbeddingExtends(text, needles, at, k, idx);
      at := at + [idx];
      pos := idx;
    }
    assert needles[..|needles|] == needles;
    return true;
  }

  /** Every embedding of a list of needles embeds each of its prefixes. */
  lemma EmbeddingPrefix(text: string, needles: seq<string>, at: seq<nat>, k: nat)
    requires Embedding(text, needles, at) && k <= |needles|
    ensures Embedding(text, needles[..k], at[..k])
  {
  }

  lemma EmbeddingExtends(text: string, needles: seq<string>, at: seq<nat>, k: nat, idx: nat)
    requires k < |needles| && Embedding(text, needles[..k], at)
    requires OccursAt(text, needles[k], idx) && (k > 0 ==> at[k - 1] < idx)
    ensures Embedding(text, needles[..k + 1], at + [idx])
  {
    var next := at + [idx];
    forall i, j | 0 <= i < j < |next|
      ensures next[i] < next[j]
    {
      if j == k {
        assert next[i] == at[i] <= at[k - 1];
      }
    }
  }

  /** In any embedding the next needle starts after the greedy position. */
  lemma NextStartsLater(text: string, needles: seq<string>, at: seq<nat>, k: nat, pos: int)
    requires Embedding(text, needles, at) && k < |needles|
    requires Leftmost(text, needles[..k], pos)
    requires k == 0 ==> pos == -1
    ensures pos + 1 <= at[k] && OccursAt(text, needles[k], at[k])
  {
    EmbeddingPrefix(text, needles, at, k);
    if k > 0 {
      assert at[..k][k - 1] == at[k - 1] < at[k];
    }
  }

  lemma NoExtension(text: string, needles: seq<string>, k: nat, pos: int)
    requires k < |needles| && -1 <= pos
    requires Leftmost(text, needles[..k], pos)
    requires k == 0 ==> pos == -1
    requires Find(text, needles[k], pos + 1) == -1
    ensures !Embeds(text, needles)
  {
    forall at: seq<nat>
      ensures !Embedding(text, needles, at)
    {
      if Embedding(text, needles, at) {
        NextStartsLater(text, needles, at, k, pos);
      }
    }
  }

  lemma GreedyIsLeast(text: string, needles: seq<string>, at: seq<nat>, k: nat, pos: int, idx: nat)
    requires k < |needles| && Embedding(text, needles[..k + 1], at)
    requires Leftmost(text, needles[..k], pos)
    requires k == 0 ==> pos == -1
    requires -1 <= pos && Find(text, needles[k], pos + 1) == idx
    ensures |at| == k + 1 && idx <= at[k]
  {
    hide Find;
    assert needles[..k + 1][..k] == needles[..k];
    NextStartsLater(text, needles[..k + 1], at, k, pos);
  }

  lemma LeftmostExtends(text: string, needles: seq<string>, k: nat, pos: int, idx: nat)
    requires k < |needles| && -1 <= pos
    requires Leftmost(text, needles[..k], pos)
    requires k == 0 ==> pos == -1
    requires Find(text, needles[k], pos + 1) == idx
    ensures Leftmost(text, needles[..k + 1], idx)
  {
    hide Embedding, Find, OccursAt;
    forall at: seq<nat> | Embedding(text, needles[..k + 1], at)
      ensures |at| == k + 1 && idx <= at[k]
    {
      GreedyIsLeast(text, needles, at, k, pos, idx);
    }
  }

  /** Dropping any needle keeps the check true: the contract can only be weakened that way. */
  lemma EmbedsWithout(text: string, needles: seq<string>, k: nat)
    requires k < |needles| && Embeds(text, needles)
    ensures Embeds(text, needles[..k] + needles[k + 1..])
  {
    var at: seq<nat> :| Embedding(text, needles, at);
    assert Embedding(text, needles[..k] + needles[k + 1..], at[..k] + at[k + 1..]);
  }
}

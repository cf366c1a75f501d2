/** The vectors the shim hands out and the error it measures, over numbers that binary32 holds exactly. */
module VectorSums {

  /** The most elements a vector may have, and how many it has by default. */
  const MAX_N: nat := 4194304
  const DEFAULT_N: nat := 262144

  /** The largest significand of binary32, section 3.3 of IEEE 754-2008. */
  const SIGNIFICAND: int := 16777216

  const TOLERANCE: real := 0.0001

  function Eighths(m: int): real {
    m as real / 8.0
  }

  function Whole(m: int): real {
    m as real
  }

  /** Rounding to binary32 leaves whole numbers and eighths alone while their significand fits. */
  ghost predicate Rounds(round: real -> real) {
    && (forall m: int :: -SIGNIFICAND <= m <= SIGNIFICAND ==> round(Whole(m)) == Whole(m))
    && (forall m: int :: -SIGNIFICAND <= m <= SIGNIFICAND ==> round(Eighths(m)) == Eighths(m))
  }

  function InA(i: nat): real { i as real * 0.25 }

  function InB(i: nat): real { 1.0 - i as real * 0.125 }

  function Sum(i: nat): real { 1.0 + i as real * 0.125 }

  /** Up to the largest vector, every input, every intermediate product and every sum fits. */
  lemma InputsAreExact(round: real -> real, i: nat)
    requires Rounds(round) && i < MAX_N
    ensures round(round(i as real) * 0.25) == InA(i)
    ensures round(1.0 - round(round(i as real) * 0.125)) == InB(i)
    ensures round(InA(i) + InB(i)) == Sum(i)
  {
    assert round(Whole(i)) == i as real;
    assert i as real * 0.25 == Eighths(2 * i);
    assert i as real * 0.125 == Eighths(i);
    assert 1.0 - Eighths(i) == Eighths(8 - i);
    assert InA(i) + InB(i) == Eighths(8 + i);
  }

  function FloatA(round: real -> real, i: nat): real {
    round(round(i as real) * 0.25)
  }

  function FloatB(round: real -> real, i: nat): real {
    round(1.0 - round(round(i as real) * 0.125))
  }

  /** The inputs as the shim computes them stand in the memory, at the given offsets. */
  ghost predicate InputsIn(round: real -> real, a: seq<real>, a0: nat, b: seq<real>, b0: nat, n: nat) {
    && a0 + n <= |a| && b0 + n <= |b|
    && forall i :: 0 <= i < n ==> a[a0 + i] == FloatA(round, i) && b[b0 + i] == FloatB(round, i)
  }

  /** `fill_inputs`; the two vectors may be parts of one mapping. */
  method FillInputs(round: real -> real, a: array<real>, a0: nat, b: array<real>, b0: nat, n: nat)
    requires a0 + n <= a.Length && b0 + n <= b.Length
    requires a == b ==> a0 + n <= b0
    modifies a, b
    ensures InputsIn(round, a[..], a0, b[..], b0, n)
  {
    for i := 0 to n
      invariant forall j :: 0 <= j < i ==> a[a0 + j] == FloatA(round, j) && b[b0 + j] == FloatB(round, j)
    {
      a[a0 + i] := round(round(i as real) * 0.25);
      b[b0 + i] := round(1.0 - round(round(i as real) * 0.125));
    }
  }

  /** `memset(out, 0, bytes)` of the last vector in a mapping. */
  method Clear(out: array<real>, from: nat)
    requires from <= out.Length
    modifies out
    ensures out[..from] == old(out[..from])
    ensures forall i :: from <= i < out.Length ==> out[i] == 0.0
  {
    for i := from to out.Length
      invariant out[..from] == old(out[..from])
      invariant forall j :: from <= j < i ==> out[j] == 0.0
    {
      out[i] := 0.0;
    }
  }

  function Abs(x: real): real {
    if x < 0.0 then -x else x
  }

  function ErrorAt(round: real -> real, a: seq<real>, a0: nat, b: seq<real>, b0: nat, out: seq<real>, out0: nat, i: nat): real
    requires a0 + i < |a| && b0 + i < |b| && out0 + i < |out|
  {
    Abs(out[out0 + i] - round(a[a0 + i] + b[b0 + i]))
  }

  /** The executor works on shared memory as it likes. */
  method ExecutorWrites(region: array<real>)
    modifies region
  {
    for i := 0 to region.Length {
      var value: real := *;
      region[i] := value;
    }
  }

  /** The values a pass over the vectors found, each at the moment it was read. */
  datatype Seen = Seen(a: seq<real>, b: seq<real>, out: seq<real>)

  ghost predicate SeenAll(seen: Seen, n: nat) {
    |seen.a| == n && |seen.b| == n && |seen.out| == n
  }

  function SeenError(round: real -> real, seen: Seen, i: nat): real
    requires i < |seen.a| && i < |seen.b| && i < |seen.out|
  {
    ErrorAt(round, seen.a, 0, seen.b, 0, seen.out, 0, i)
  }

  /** One of the errors seen is the largest, or all are at most zero and the largest is zero. */
  ghost predicate LargestSeen(round: real -> real, seen: Seen, n: nat, maxError: real) {
    && SeenAll(seen, n) && maxError >= 0.0
    && (forall i :: 0 <= i < n ==> SeenError(round, seen, i) <= maxError)
    && (maxError == 0.0 || exists i :: 0 <= i < n && SeenError(round, seen, i) == maxError)
  }

  lemma OneMoreSeen(round: real -> real, seen: Seen, n: nat, maxError: real, x: real, y: real, z: real)
    requires LargestSeen(round, seen, n, maxError)
    ensures var error := Abs(z - round(x + y));
            LargestSeen(round, Seen(seen.a + [x], seen.b + [y], seen.out + [z]), n + 1, if error > maxError then error else maxError)
  {
    var more := Seen(seen.a + [x], seen.b + [y], seen.out + [z]);
    hide Abs;
    assert forall i :: 0 <= i < n ==> SeenError(round, more, i) == SeenError(round, seen, i);
    assert SeenError(round, more, n) == Abs(z - round(x + y));
    hide SeenError;
  }

  /** The loop over `max_err`, while the executor goes on writing: the largest error seen, or zero. */
  method MaxError(round: real -> real, a: array<real>, a0: nat, b: array<real>, b0: nat, out: array<real>, out0: nat, n: nat)
    returns (maxError: real, ghost seen: Seen)
    requires a0 + n <= a.Length && b0 + n <= b.Length && out0 + n <= out.Length
    modifies a, b, out
    ensures LargestSeen(round, seen, n, maxError)
  {
    maxError, seen := 0.0, Seen([], [], []);
    for i := 0 to n
      invariant LargestSeen(round, seen, i, maxError)
    {
      hide LargestSeen, Abs;
      ExecutorWrites(out);
      var z := out[out0 + i];
      ExecutorWrites(a);
      var x := a[a0 + i];
      ExecutorWrites(b);
      var y := b[b0 + i];
      OneMoreSeen(round, seen, i, maxError, x, y, z);
      seen := Seen(seen.a + [x], seen.b + [y], seen.out + [z]);
      var error := Abs(z - round(x + y));
      if error > maxError {
        maxError := error;
      }
    }
  }

  /** Every output is within the tolerance of the sum of the original inputs. */
  ghost predicate Accurate(out: seq<real>, n: nat) {
    |out| == n && forall i :: 0 <= i < n ==> Abs(out[i] - Sum(i)) <= TOLERANCE
  }

  /** The inputs were as given whenever they were read. */
  ghost predicate Untouched(round: real -> real, seen: Seen, n: nat) {
    InputsIn(round, seen.a, 0, seen.b, 0, n)
  }

  /** As long as the inputs read are untouched, the measured verdict is about the true sums 1 + i/8. */
  lemma UntouchedMeansAccurate(round: real -> real, seen: Seen, n: nat, maxError: real)
    requires Rounds(round) && n <= MAX_N && LargestSeen(round, seen, n, maxError) && Untouched(round, seen, n)
    ensures maxError <= TOLERANCE <==> Accurate(seen.out, n)
  {
    forall i | 0 <= i < n
      ensures SeenError(round, seen, i) == Abs(seen.out[i] - Sum(i))
    {
      InputsAreExact(round, i);
      assert seen.a[0 + i] == FloatA(round, i) && seen.b[0 + i] == FloatB(round, i);
    }
    hide SeenError, Rounds, Untouched, Abs, Sum;
  }
}

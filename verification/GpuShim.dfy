/**
 * The container-side vector addition: shared descriptors and mappings, the command
 * queue, and the verdict on the result.
 */
module GpuShim {
  import opened Options
  import opened ResponseLines
  import opened VectorSums

  /** Descriptors and mappings; every call may fail. Releasing what is not held is counted as stray. */
  class Machine {
    var fds: set<int>
    var maps: set<array<real>>
    var stray: nat

    method NewFd() returns (fd: int)
      modifies this`fds
      ensures fd < 0 ==> fds == old(fds)
      ensures fd >= 0 ==> fd !in old(fds) && fds == old(fds) + {fd}
    {
      var works: bool := *;
      if !works {
        return -1;
      }
      fd := 0;
      ghost var seen: set<int> := {};
      while fd in fds
        invariant fd >= 0 && forall k :: k in seen <==> 0 <= k < fd
        invariant seen <= fds
        decreases fds - seen
      {
        seen := seen + {fd};
        fd := fd + 1;
      }
      fds := fds + {fd};
    }

    method Truncate(fd: int) returns (ok: bool)
    {
      var works: bool := *;
      ok := works && fd in fds;
    }

    method Close(fd: int)
      modifies this`fds, this`stray
      ensures fds == old(fds) - {fd}
      ensures stray == old(stray) + (if fd in old(fds) then 0 else 1)
    {
      if fd !in fds {
        stray := stray + 1;
      }
      fds := fds - {fd};
    }

    method Mmap(fd: int, floats: nat) returns (region: array?<real>)
      requires fd in fds
      modifies this`maps
      ensures region == null ==> maps == old(maps)
      ensures region != null ==> fresh(region) && region.Length == floats && maps == old(maps) + {region}
    {
      var works: bool := *;
      if !works {
        return null;
      }
      var added := new real[floats];
      maps := maps + {added};
      region := added;
    }

    method Munmap(region: array<real>)
      modifies this`maps, this`stray
      ensures maps == old(maps) - {region}
      ensures stray == old(stray) + (if region in old(maps) then 0 else 1)
    {
      if region !in maps {
        stray := stray + 1;
      }
      maps := maps - {region};
    }

    /** `create_shared_fd`: an anonymous file where there is one, otherwise an unlinked temporary file. */
    method CreateSharedFd() returns (fd: int)
      modifies this`fds, this`stray
      ensures stray == old(stray)
      ensures fd < 0 ==> fds == old(fds)
      ensures fd >= 0 ==> fd !in old(fds) && fds == old(fds) + {fd}
    {
      var anonymous := NewFd();
      if anonymous >= 0 {
        var sized := Truncate(anonymous);
        if sized {
          return anonymous;
        }
        Close(anonymous);
        assert fds == old(fds);
        return -1;
      }
      fd := NewFd();
      if fd < 0 {
        return -1;
      }
      var sized := Truncate(fd);
      if !sized {
        Close(fd);
        assert fds == old(fds);
        return -1;
      }
    }
  }

  datatype Command = VectorAddFd(n: nat) | VectorAdd3Fd(prefix: string, n: nat) | RegisterVectorFd(n: nat) | VectorAddRegistered

  /** A connection to the executor, which answers the k-th command with the k-th reply. */
  class Queue {
    const socket: Socket
    const replies: nat -> string
    var sent: seq<Command>

    constructor (socket: Socket, replies: nat -> string)
      ensures this.socket == socket && this.replies == replies && sent == []
    {
      this.socket, this.replies, sent := socket, replies, [];
    }

    /** Sending a command, with or without descriptors; the reply is on its way once it is sent. */
    method Send(command: Command) returns (rc: int)
      modifies this, socket
      ensures rc <= 0 && socket.taken == old(socket.taken)
      ensures rc < 0 ==> sent == old(sent) && socket.incoming == old(socket.incoming)
      ensures rc == 0 ==> sent == old(sent) + [command] && socket.incoming == old(socket.incoming) + replies(|old(sent)|)
    {
      var works: bool := *;
      if !works {
        rc :| rc < 0;
        return;
      }
      socket.incoming := socket.incoming + replies(|sent|);
      sent := sent + [command];
      rc := 0;
    }
  }

  const USAGE := 64
  const FAILED := 70
  const NO_QUEUE := 69
  const INACCURATE := 6

  /** What a finished vector addition printed: one line, the first of what was waiting in the queue. */
  ghost predicate PrintsLine(printed: seq<string>, waiting: string) {
    printed == [TakeLine(waiting, LINE_SIZE - 1)] && printed[0] != ""
  }

  /**
   * After a command is sent: wait for the reply, then measure the error; the executor may go on writing
   * until the end. The ghost results say whether the inputs read were as given, and what output was read.
   */
  method AwaitVerdict(q: Queue, round: real -> real, a: array<real>, a0: nat, b: array<real>, b0: nat, out: array<real>, out0: nat, n: nat)
    returns (rc: int, printed: seq<string>, ghost untouched: bool, ghost result: seq<real>)
    requires a0 + n <= a.Length && b0 + n <= b.Length && out0 + n <= out.Length && n <= MAX_N
    modifies q.socket, a, b, out
    ensures rc in {0, INACCURATE, FAILED}
    ensures rc != FAILED ==>
              && PrintsLine(printed, old(q.socket.incoming))
              && q.socket.taken == old(q.socket.taken) + printed[0]
    ensures rc == FAILED ==> printed == []
    ensures rc != FAILED && untouched && Rounds(round) ==> (rc == 0 <==> Accurate(result, n))
  {
    printed := [];
    hide Untouched, Rounds, Accurate, TakeLine, LargestSeen;
    ExecutorWrites(a);
    ExecutorWrites(b);
    ExecutorWrites(out);
    var line: string;
    rc, line := q.socket.ReadResponseLine(LINE_SIZE);
    var maxError;
    ghost var seen;
    maxError, seen := MaxError(round, a, a0, b, b0, out, out0, n);
    untouched, result := Untouched(round, seen, n), seen.out;
    if rc != 0 {
      return FAILED, printed, untouched, result;
    }
    printed := [line];
    rc := if maxError <= TOLERANCE then 0 else INACCURATE;
    if untouched && Rounds(round) {
      UntouchedMeansAccurate(round, seen, n, maxError);
    }
  }

  /** `vector_add_fd_on_socket`: one mapping holding both inputs and the output. */
  method VectorAddOne(m: Machine, q: Queue, round: real -> real, n: nat)
    returns (rc: int, printed: seq<string>, ghost untouched: bool, ghost result: seq<real>)
    modifies m, q, q.socket
    ensures m.fds == old(m.fds) && m.maps == old(m.maps) && m.stray == old(m.stray)
    ensures rc == USAGE <==> n == 0 || n > MAX_N
    ensures rc in {0, INACCURATE, USAGE, FAILED}
    ensures rc == 0 || rc == INACCURATE ==>
              && q.sent == old(q.sent) + [VectorAddFd(n)]
              && PrintsLine(printed, old(q.socket.incoming) + q.replies(|old(q.sent)|))
              && q.socket.taken == old(q.socket.taken) + printed[0]
    ensures rc == FAILED || rc == USAGE ==> printed == []
    ensures (rc == 0 || rc == INACCURATE) && untouched && Rounds(round) ==> (rc == 0 <==> Accurate(result, n))
  {
    printed, untouched, result := [], true, [];
    if n == 0 || n > MAX_N {
      return USAGE, printed, untouched, result;
    }
    hide InputsIn, Rounds, Accurate, PrintsLine;
    var sharedFd := m.CreateSharedFd();
    if sharedFd < 0 {
      return FAILED, printed, untouched, result;
    }
    var region := m.Mmap(sharedFd, 3 * n);
    if region == null {
      m.Close(sharedFd);
      assert m.fds == old(m.fds);
      return FAILED, printed, untouched, result;
    }
    FillInputs(round, region, 0, region, n, n);
    Clear(region, 2 * n);
    var sent := q.Send(VectorAddFd(n));
    m.Close(sharedFd);
    assert m.fds == old(m.fds);
    if sent != 0 {
      m.Munmap(region);
      assert m.maps == old(m.maps);
      return FAILED, printed, untouched, result;
    }
    rc, printed, untouched, result := AwaitVerdict(q, round, region, 0, region, n, region, 2 * n, n);
    m.Munmap(region);
    assert m.maps == old(m.maps);
  }

  // ---------- three separate mappings ----------

  /** The open descriptors are the earlier ones and those in the slots; -1 marks an empty slot. */
  ghost predicate HoldsFds(now: set<int>, before: set<int>, slots: seq<int>) {
    && (forall i :: 0 <= i < |slots| && slots[i] >= 0 ==> slots[i] in now && slots[i] !in before)
    && (forall i, j :: 0 <= i < j < |slots| && slots[i] >= 0 ==> slots[i] != slots[j])
    && (forall fd :: fd in now ==> fd in before || (fd >= 0 && fd in slots))
    && before <= now
  }

  /** The same for mappings; null marks an empty slot. */
  ghost predicate HoldsMaps(now: set<array<real>>, before: set<array<real>>, slots: seq<array?<real>>) {
    && (forall i :: 0 <= i < |slots| && slots[i] != null ==> slots[i] in now && slots[i] !in before)
    && (forall i, j :: 0 <= i < j < |slots| && slots[i] != null ==> slots[i] != slots[j])
    && (forall r :: r in now ==> r in before || r in slots)
    && before <= now
  }

  lemma TakeFd(now: set<int>, before: set<int>, slots: seq<int>, i: nat, fd: int)
    requires HoldsFds(now, before, slots) && i < |slots| && slots[i] < 0 && fd >= 0 && fd !in now
    ensures HoldsFds(now + {fd}, before, slots[i := fd])
  {
    var slots' := slots[i := fd];
    forall x | x in now + {fd}
      ensures x in before || (x >= 0 && x in slots')
    {
      if x == fd {
        assert slots'[i] == fd;
      } else if x !in before {
        var j :| 0 <= j < |slots| && slots[j] == x;
        assert slots'[j] == x;
      }
    }
  }

  lemma DropFd(now: set<int>, before: set<int>, slots: seq<int>, i: nat)
    requires HoldsFds(now, before, slots) && i < |slots| && slots[i] >= 0
    ensures HoldsFds(now - {slots[i]}, before, slots[i := -1])
  {
    var slots' := slots[i := -1];
    forall x | x in now - {slots[i]}
      ensures x in before || (x >= 0 && x in slots')
    {
      if x !in before {
        var j :| 0 <= j < |slots| && slots[j] == x;
        assert slots'[j] == x;
      }
    }
  }

  lemma TakeMap(now: set<array<real>>, before: set<array<real>>, slots: seq<array?<real>>, i: nat, r: array<real>)
    requires HoldsMaps(now, before, slots) && i < |slots| && slots[i] == null && r !in now
    ensures HoldsMaps(now + {r}, before, slots[i := r])
  {
    var slots' := slots[i := r];
    forall x | x in now + {r}
      ensures x in before || x in slots'
    {
      if x == r {
        assert slots'[i] == r;
      } else if x !in before {
        var j :| 0 <= j < |slots| && slots[j] == x;
        assert slots'[j] == x;
      }
    }
  }

  lemma DropMap(now: set<array<real>>, before: set<array<real>>, slots: seq<array?<real>>, i: nat)
    requires HoldsMaps(now, before, slots) && i < |slots| && slots[i] != null
    ensures HoldsMaps(now - {slots[i]}, before, slots[i := null])
  {
    var slots' := slots[i := null];
    forall x | x in now - {slots[i]}
      ensures x in before || x in slots'
    {
      if x !in before {
        var j :| 0 <= j < |slots| && slots[j] == x;
        assert slots'[j] == x;
      }
    }
  }

  /** All slots are empty, so nothing is held beyond what was held before. */
  lemma NothingHeld(fds: set<int>, fds0: set<int>, slots: seq<int>, maps: set<array<real>>, maps0: set<array<real>>, regions: seq<array?<real>>)
    requires HoldsFds(fds, fds0, slots) && HoldsMaps(maps, maps0, regions)
    requires (forall i :: 0 <= i < |slots| ==> slots[i] < 0) && (forall i :: 0 <= i < |regions| ==> regions[i] == null)
    ensures fds == fds0 && maps == maps0
  {
    assert forall fd :: fd in fds ==> fd in fds0;
    assert forall r :: r in maps ==> r in maps0;
  }

  /** Create and map one shared file after the other, as far as it goes. */
  method AllocateAll(m: Machine, slots: array<int>, regions: array<array?<real>>, n: nat) returns (ok: bool)
    requires slots.Length == regions.Length
    requires forall i :: 0 <= i < slots.Length ==> slots[i] == -1 && regions[i] == null
    modifies m, slots, regions
    ensures m.stray == old(m.stray)
    ensures HoldsFds(m.fds, old(m.fds), slots[..]) && HoldsMaps(m.maps, old(m.maps), regions[..])
    ensures forall i :: 0 <= i < regions.Length && regions[i] != null ==> fresh(regions[i])
    ensures ok ==> forall i :: 0 <= i < slots.Length ==> slots[i] >= 0 && regions[i] != null && regions[i].Length == n
  {
    hide HoldsFds, HoldsMaps;
    EmptySlots(m.fds, slots[..], m.maps, regions[..]);
    for i := 0 to slots.Length
      invariant m.stray == old(m.stray)
      invariant HoldsFds(m.fds, old(m.fds), slots[..]) && HoldsMaps(m.maps, old(m.maps), regions[..])
      invariant forall j :: 0 <= j < i ==> slots[j] >= 0 && regions[j] != null && regions[j].Length == n && fresh(regions[j])
      invariant forall j :: i <= j < slots.Length ==> slots[j] == -1 && regions[j] == null
    {
      ghost var fds, maps, held, mapped := m.fds, m.maps, slots[..], regions[..];
      var fd := m.CreateSharedFd();
      if fd < 0 {
        return false;
      }
      slots[i] := fd;
      assert slots[..] == held[i := fd];
      TakeFd(fds, old(m.fds), held, i, fd);
      var region := m.Mmap(fd, n);
      if region == null {
        return false;
      }
      regions[i] := region;
      assert regions[..] == mapped[i := region];
      TakeMap(maps, old(m.maps), mapped, i, region);
    }
    ok := true;
  }

  lemma EmptySlots(fds: set<int>, slots: seq<int>, maps: set<array<real>>, regions: seq<array?<real>>)
    requires (forall i :: 0 <= i < |slots| ==> slots[i] < 0) && (forall i :: 0 <= i < |regions| ==> regions[i] == null)
    ensures HoldsFds(fds, fds, slots) && HoldsMaps(maps, maps, regions)
  {
  }

  /** Close what is in the slots and empty them. */
  method CloseAll(m: Machine, slots: array<int>, ghost before: set<int>)
    requires HoldsFds(m.fds, before, slots[..])
    modifies m`fds, m`stray, slots
    ensures m.stray == old(m.stray) && HoldsFds(m.fds, before, slots[..])
    ensures forall i :: 0 <= i < slots.Length ==> slots[i] == -1
    requires forall i :: 0 <= i < slots.Length ==> slots[i] >= 0
  {
    for i := 0 to slots.Length
      invariant m.stray == old(m.stray) && HoldsFds(m.fds, before, slots[..])
      invariant forall j :: 0 <= j < i ==> slots[j] == -1
      invariant forall j :: i <= j < slots.Length ==> slots[j] >= 0
    {
      ghost var fds, held := m.fds, slots[..];
      assert held[i] in fds;
      DropFd(fds, before, held, i);
      m.Close(slots[i]);
      slots[i] := -1;
      assert slots[..] == held[i := -1];
    }
  }

  /** The common clean-up: unmap and close whatever is left. */
  method Cleanup(m: Machine, slots: array<int>, regions: array<array?<real>>, ghost fds0: set<int>, ghost maps0: set<array<real>>)
    requires slots.Length == regions.Length
    requires HoldsFds(m.fds, fds0, slots[..]) && HoldsMaps(m.maps, maps0, regions[..])
    modifies m, slots, regions
    ensures m.stray == old(m.stray) && m.fds == fds0 && m.maps == maps0
  {
    for i := 0 to slots.Length
      invariant m.stray == old(m.stray)
      invariant HoldsFds(m.fds, fds0, slots[..]) && HoldsMaps(m.maps, maps0, regions[..])
      invariant forall j :: 0 <= j < i ==> slots[j] < 0 && regions[j] == null
    {
      ghost var fds, maps, held, mapped := m.fds, m.maps, slots[..], regions[..];
      var region := regions[i];
      if region != null {
        assert mapped[i] in maps;
        DropMap(maps, maps0, mapped, i);
        m.Munmap(region);
        regions[i] := null;
        assert regions[..] == mapped[i := null];
      }
      if slots[i] >= 0 {
        assert held[i] in fds;
        DropFd(fds, fds0, held, i);
        m.Close(slots[i]);
        slots[i] := -1;
        assert slots[..] == held[i := -1];
      }
    }
    NothingHeld(m.fds, fds0, slots[..], m.maps, maps0, regions[..]);
  }

  /** `vector_add_3fd_on_socket`: three mappings, one clean-up for every way out. */
  method VectorAddThree(m: Machine, q: Queue, round: real -> real, n: nat, prefix: string)
    returns (rc: int, printed: seq<string>, ghost untouched: bool, ghost result: seq<real>)
    modifies m, q, q.socket
    ensures m.fds == old(m.fds) && m.maps == old(m.maps) && m.stray == old(m.stray)
    ensures rc == USAGE <==> n == 0 || n > MAX_N
    ensures rc in {0, INACCURATE, USAGE, FAILED}
    ensures rc == 0 || rc == INACCURATE ==>
              && q.sent == old(q.sent) + [VectorAdd3Fd(prefix, n)]
              && PrintsLine(printed, old(q.socket.incoming) + q.replies(|old(q.sent)|))
              && q.socket.taken == old(q.socket.taken) + printed[0]
    ensures rc == FAILED || rc == USAGE ==> printed == []
    ensures (rc == 0 || rc == INACCURATE) && untouched && Rounds(round) ==> (rc == 0 <==> Accurate(result, n))
  {
    printed, untouched, result := [], true, [];
    if n == 0 || n > MAX_N {
      return USAGE, printed, untouched, result;
    }
    hide InputsIn, Rounds, Accurate, PrintsLine, HoldsFds, HoldsMaps;
    var slots := new int[3](_ => -1);
    var regions := new array?<real>[3](_ => null);
    rc := FAILED;
    var whole := AllocateAll(m, slots, regions, n);
    if whole {
      var a, b, out := regions[0], regions[1], regions[2];
      DistinctMaps(m.maps, old(m.maps), regions[..]);
      assert regions[..][0] == a && regions[..][1] == b;
      FillInputs(round, a, 0, b, 0, n);
      Clear(out, 0);
      var sent := q.Send(VectorAdd3Fd(prefix, n));
      CloseAll(m, slots, old(m.fds));
      if sent == 0 {
        rc, printed, untouched, result := AwaitVerdict(q, round, a, 0, b, 0, out, 0, n);
      }
    }
    Cleanup(m, slots, regions, old(m.fds), old(m.maps));
  }

  lemma DistinctMaps(now: set<array<real>>, before: set<array<real>>, slots: seq<array?<real>>)
    requires HoldsMaps(now, before, slots) && |slots| == 3 && slots[0] != null && slots[1] != null
    ensures slots[0] != slots[1] && slots[0] != slots[2] && slots[1] != slots[2]
  {
  }

  // ---------- the registered vector ----------

  /** One finished round: whether the inputs read were as given, and the output read. */
  datatype Round = Round(untouched: bool, result: seq<real>)

  /** Every round is accurate, but for the last one of a run that ended as inaccurate. */
  ghost predicate RoundsJudged(round: real -> real, history: seq<Round>, n: nat, rc: int) {
    Rounds(round) ==>
      forall k :: 0 <= k < |history| && history[k].untouched ==>
        (Accurate(history[k].result, n) <==> !(rc == INACCURATE && k == |history| - 1))
  }

  lemma JudgedOneMore(round: real -> real, history: seq<Round>, n: nat, next: Round, rc: int)
    requires RoundsJudged(round, history, n, 0) && rc in {0, INACCURATE}
    requires Rounds(round) && next.untouched ==> (Accurate(next.result, n) <==> rc == 0)
    ensures RoundsJudged(round, history + [next], n, rc)
  {
    hide Accurate, Rounds;
  }

  lemma JudgedFailure(round: real -> real, history: seq<Round>, n: nat)
    ensures RoundsJudged(round, history, n, 0) ==> RoundsJudged(round, history, n, FAILED)
  {
    hide Accurate, Rounds;
  }

  /** `bench_vector_add_registered`: one mapping, registered once, added over and over on one connection. */
  method BenchRegistered(m: Machine, q: Queue, round: real -> real, count: int)
    returns (rc: int, printed: seq<string>, ghost history: seq<Round>)
    requires q.sent == [] && q.socket.incoming == ""
    modifies m, q, q.socket
    ensures m.fds == old(m.fds) && m.maps == old(m.maps) && m.stray == old(m.stray)
    ensures rc in {0, INACCURATE, NO_QUEUE, FAILED}
    ensures |printed| <= (if count <= 0 then 1 else count)
    ensures rc == 0 ==> |printed| == if count <= 0 then 1 else count
    ensures |history| == |printed| && RoundsJudged(round, history, DEFAULT_N, rc)
    ensures printed != [] ==> RegisteredCommands(q.sent, DEFAULT_N)
    ensures rc == 0 ==> |q.sent| == |printed| + 1
    ensures (forall k :: Framed(q.replies(k), LINE_SIZE - 1)) ==>
              forall k :: 0 <= k < |printed| ==> printed[k] == q.replies(k + 1)
  {
    printed, history := [], [];
    var rounds: nat := if count <= 0 then 1 else count;
    var n := DEFAULT_N;
    hide InputsIn, Framed, TakeLine, Rounds, Accurate;
    var sharedFd := m.CreateSharedFd();
    if sharedFd < 0 {
      return FAILED, printed, history;
    }
    var region := m.Mmap(sharedFd, 3 * n);
    if region == null {
      m.Close(sharedFd);
      assert m.fds == old(m.fds);
      return FAILED, printed, history;
    }
    FillInputs(round, region, 0, region, n, n);
    Clear(region, 2 * n);
    var fd := m.NewFd();
    if fd < 0 {
      m.Munmap(region);
      m.Close(sharedFd);
      assert m.fds == old(m.fds) && m.maps == old(m.maps);
      return NO_QUEUE, printed, history;
    }
    rc := q.Send(RegisterVectorFd(n));
    m.Close(sharedFd);
    if rc == 0 {
      var line: string;
      ghost var waiting := q.socket.incoming;
      rc, line := q.socket.ReadResponseLine(LINE_SIZE);
      if rc == 0 {
        OnlyReply(q, 0, waiting, line);
        rc, printed, history := AddRounds(q, round, region, n, rounds);
      } else {
        rc := FAILED;
      }
    } else {
      rc := FAILED;
    }
    m.Close(fd);
    m.Munmap(region);
    assert m.fds == old(m.fds) && m.maps == old(m.maps);
  }

  /** The mapping is registered once, and then only added over. */
  predicate RegisteredCommands(sent: seq<Command>, n: nat) {
    sent != [] && sent[0] == RegisterVectorFd(n) && forall k :: 1 <= k < |sent| ==> sent[k] == VectorAddRegistered
  }

  /** When a framed reply is all that is waiting, reading takes exactly it and leaves nothing. */
  lemma OnlyReply(q: Queue, k: nat, waiting: string, line: string)
    requires line == TakeLine(waiting, LINE_SIZE - 1)
    ensures Framed(q.replies(k), LINE_SIZE - 1) && waiting == q.replies(k) ==> line == q.replies(k) && waiting[|line|..] == ""
  {
    if Framed(q.replies(k), LINE_SIZE - 1) && waiting == q.replies(k) {
      assert q.replies(k) + "" == waiting;
      TakesFramed(q.replies(k), "", LINE_SIZE - 1);
    }
  }

  /** The timed rounds: send, wait, measure, print, and stop at the first failure. */
  method AddRounds(q: Queue, round: real -> real, region: array<real>, n: nat, rounds: nat)
    returns (rc: int, printed: seq<string>, ghost history: seq<Round>)
    requires region.Length == 3 * n && n <= MAX_N && rounds > 0
    requires q.sent == [RegisterVectorFd(n)]
    modifies q, q.socket, region
    ensures rc in {0, INACCURATE, FAILED}
    ensures |printed| <= rounds && (rc == 0 ==> |printed| == rounds)
    ensures |history| == |printed| && RoundsJudged(round, history, n, rc)
    ensures RegisteredCommands(q.sent, n)
    ensures rc == 0 ==> |q.sent| == |printed| + 1
    ensures old(q.socket.incoming) == "" && (forall k :: Framed(q.replies(k), LINE_SIZE - 1)) ==>
              forall k :: 0 <= k < |printed| ==> printed[k] == q.replies(k + 1)
  {
    rc, printed, history := 0, [], [];
    assert RoundsJudged(round, history, n, 0);
    hide TakeLine, Framed, ErrorAt, InputsIn, Accurate, Rounds, RoundsJudged;
    ghost var framed := old(q.socket.incoming) == "" && forall k :: Framed(q.replies(k), LINE_SIZE - 1);
    for i := 0 to rounds
      invariant rc == 0 && |q.sent| == i + 1 && RegisteredCommands(q.sent, n)
      invariant |printed| == i == |history| && RoundsJudged(round, history, n, 0)
      invariant framed ==> q.socket.incoming == "" && forall k :: 0 <= k < i ==> printed[k] == q.replies(k + 1)
    {
      JudgedFailure(round, history, n);
      var sent := q.Send(VectorAddRegistered);
      if sent < 0 {
        return FAILED, printed, history;
      }
      ghost var waiting := q.socket.incoming;
      ghost var next: Round;
      var line: string;
      rc, line, next := OneRound(q, round, region, n);
      if rc == FAILED {
        return;
      }
      OnlyReply(q, i + 1, waiting, line);
      printed := printed + [line];
      JudgedOneMore(round, history, n, next, rc);
      history := history + [next];
      if rc == INACCURATE {
        return;
      }
    }
  }

  /** One round after its command was sent. */
  method OneRound(q: Queue, round: real -> real, region: array<real>, n: nat)
    returns (rc: int, line: string, ghost next: Round)
    requires region.Length == 3 * n && n <= MAX_N
    modifies q.socket, region
    ensures rc in {0, INACCURATE, FAILED}
    ensures rc != FAILED ==>
              && line == TakeLine(old(q.socket.incoming), LINE_SIZE - 1)
              && old(q.socket.incoming) == line + q.socket.incoming
    ensures rc != FAILED && Rounds(round) && next.untouched ==> (Accurate(next.result, n) <==> rc == 0)
  {
    hide TakeLine, LargestSeen, Untouched, Accurate, Rounds;
    ExecutorWrites(region);
    rc, line := q.socket.ReadResponseLine(LINE_SIZE);
    if rc != 0 {
      next := Round(false, []);
      return FAILED, line, next;
    }
    var maxError;
    ghost var seen;
    maxError, seen := MaxError(round, region, 0, region, n, region, 2 * n, n);
    next := Round(Untouched(round, seen, n), seen.out);
    rc := if maxError > TOLERANCE then INACCURATE else 0;
    if next.untouched && Rounds(round) {
      UntouchedMeansAccurate(round, seen, n, maxError);
    }
  }
}

/** The file benchmark: its transfer loops, its timed loops and the phases of `main`. */
module FileBench {
  import opened Options
  import opened FileKernel

  datatype Exit = Done | Died | Refused

  /** One printed line, without the time. */
  datatype Line = Line(phase: Phase, ops: nat, bytes: nat)

  datatype Phase =
    | OpenClose
    | OpenatOnly
    | CloseOnly
    | StatSame
    | FstatOnly
    | LseekOnly
    | WriteOnly
    | FsyncOnce
    | ReadOnly
    | ChmodSame
    | RenamePair
    | MkdirRmdirPair
    | SymlinkUnlinkPair
    | ReadlinkOnly
    | SmallCreate
    | SmallStat
    | SmallRead
    | UnlinkAll

  /** The serial numbers from a up to b. */
  function Range(a: nat, b: nat): (r: seq<nat>)
    requires a <= b
    ensures |r| == b - a
  {
    seq(b - a, i requires 0 <= i < b - a => a + i)
  }

  /** Every descriptor opened since the given moment has been closed, exactly once and in order. */
  ghost predicate Settled(k: Kernel, fds: map<int, Descriptor>, closed: seq<nat>, serial: nat)
    reads k
  {
    k.fds == fds && serial <= k.serial && k.closed == closed + Range(serial, k.serial)
  }

  lemma RangeJoin(a: nat, b: nat, c: nat)
    requires a <= b <= c
    ensures Range(a, b) + Range(b, c) == Range(a, c)
  {
  }

  // ---------- the transfer loops ----------

  lemma WriteTwice(data: seq<Byte>, offset: nat, a: seq<Byte>, b: seq<Byte>)
    ensures WriteAt(WriteAt(data, offset, a), offset + |a|, b) == WriteAt(data, offset, a + b)
  {
    var padded := if offset <= |data| then data else data + seq(offset - |data|, _ => 0 as Byte);
    var once := WriteAt(data, offset, a);
    assert once[..offset + |a|] == padded[..offset] + a;
    var rest := if offset + |a + b| <= |padded| then padded[offset + |a + b|..] else [];
    assert (if offset + |a| + |b| <= |once| then once[offset + |a| + |b|..] else []) == rest;
  }

  lemma WroteTwice(dir: map<string, Entry>, d: Descriptor, a: seq<Byte>, b: seq<Byte>)
    requires IsFile(dir, d.name)
    ensures IsFile(Wrote(dir, d, a), d.name)
    ensures Wrote(Wrote(dir, d, a), d.(offset := d.offset + |a|), b) == Wrote(dir, d, a + b)
  {
    hide WriteAt;
    if a == [] {
      assert a + b == b;
    } else if b == [] {
      assert a + b == a;
    } else {
      WriteTwice(dir[d.name].data, d.offset, a, b);
    }
  }

  lemma AdvancedTwice(fds: map<int, Descriptor>, fd: int, m: nat, n: nat)
    requires fd in fds
    ensures fd in Advanced(fds, fd, m) && Advanced(fds, fd, m)[fd] == fds[fd].(offset := fds[fd].offset + m)
    ensures Advanced(Advanced(fds, fd, m), fd, n) == Advanced(fds, fd, m + n)
    ensures Advanced(fds, fd, 0) == fds
  {
  }

  /** `write_all`: however the kernel splits the transfer, exactly the buffer arrives. */
  method WriteAll(k: Kernel, fd: int, buf: array<Byte>, len: nat) returns (ok: bool)
    requires len <= buf.Length && k.OpenOn(fd)
    modifies k`dir, k`fds, k`counts
    ensures ok ==>
              && k.dir == Wrote(old(k.dir), old(k.fds)[fd], buf[..len])
              && k.fds == Advanced(old(k.fds), fd, len)
              && k.counts == old(k.counts).(written := old(k.counts.written) + len)
  {
    var p: nat, left: nat := 0, len;
    ghost var d, dir, fds := k.fds[fd], k.dir, k.fds;
    AdvancedTwice(fds, fd, 0, 0);
    WroteTwice(dir, d, [], []);
    assert buf[..0] == [];
    hide Wrote, Advanced;
    while left > 0
      invariant p + left == len
      invariant k.dir == Wrote(dir, d, buf[..p])
      invariant k.fds == Advanced(fds, fd, p)
      invariant k.counts == old(k.counts).(written := old(k.counts.written) + p)
    {
      AdvancedTwice(fds, fd, p, 0);
      var n := k.Write(fd, buf[p..p + left]);
      if n < 0 {
        return false;
      }
      assert buf[p..p + left][..n] == buf[p..p + n];
      AdvancedTwice(fds, fd, p, n);
      WroteTwice(dir, d, buf[..p], buf[p..p + n]);
      assert buf[..p] + buf[p..p + n] == buf[..p + n];
      p := p + n;
      left := left - n;
    }
    ok := true;
  }

  /** What is left of a file from an offset on, up to a length. */
  function Available(data: seq<Byte>, offset: nat, len: nat): nat {
    if |data| <= offset then 0 else if |data| - offset < len then |data| - offset else len
  }

  /** The bytes one call delivers. */
  method Store(buf: array<Byte>, at: nat, bytes: seq<Byte>)
    requires at + |bytes| <= buf.Length
    modifies buf
    ensures buf[..] == old(buf[..])[..at] + bytes + old(buf[..])[at + |bytes|..]
  {
    forall i | 0 <= i < |bytes| {
      buf[at + i] := bytes[i];
    }
  }

  /** A buffer whose first p bytes have been replaced from a file. */
  function Filled(before: seq<Byte>, data: seq<Byte>, offset: nat, p: nat): (r: seq<Byte>)
    requires p <= |before| && (p == 0 || offset + p <= |data|)
    ensures |r| == |before|
  {
    (if p == 0 then [] else data[offset..offset + p]) + before[p..]
  }

  lemma FilledFurther(before: seq<Byte>, data: seq<Byte>, offset: nat, p: nat, bytes: seq<Byte>, next: seq<Byte>)
    requires bytes != [] && p + |bytes| <= |before| && offset + p + |bytes| <= |data|
    requires bytes == data[offset + p..offset + p + |bytes|]
    requires var now := Filled(before, data, offset, p); next == now[..p] + bytes + now[p + |bytes|..]
    ensures next == Filled(before, data, offset, p + |bytes|)
  {
    var now, n := Filled(before, data, offset, p), |bytes|;
    assert now[..p] + bytes == data[offset..offset + p + n];
    assert now[p + n..] == before[p + n..];
  }

  lemma AllRead(data: seq<Byte>, offset: nat, len: nat, p: nat)
    requires p <= len && (p == 0 || offset + p <= |data|)
    requires p == len || |data| <= offset + p
    ensures Available(data, offset, len) == p
  {
  }

  /** `read_all`: fills the buffer unless the file ends first. */
  method ReadAll(k: Kernel, fd: int, buf: array<Byte>, len: nat) returns (ok: bool)
    requires len <= buf.Length && k.OpenOn(fd)
    modifies k`fds, k`counts, buf
    ensures ok ==>
              var d := old(k.fds)[fd];
              var data := k.dir[d.name].data;
              var got := Available(data, d.offset, len);
              && buf[..] == Filled(old(buf[..]), data, d.offset, got)
              && k.fds == Advanced(old(k.fds), fd, got)
              && k.counts == old(k.counts).(read := old(k.counts.read) + got)
  {
    var p: nat, left: nat := 0, len;
    ghost var d, fds, before := k.fds[fd], k.fds, buf[..];
    ghost var data := k.dir[d.name].data;
    AdvancedTwice(fds, fd, 0, 0);
    assert buf[..] == Filled(before, data, d.offset, 0);
    hide Filled, Advanced, Available;
    while left > 0
      invariant p + left == len && (p == 0 || d.offset + p <= |data|)
      invariant buf[..] == Filled(before, data, d.offset, p)
      invariant k.fds == Advanced(fds, fd, p)
      invariant k.counts == old(k.counts).(read := old(k.counts.read) + p)
    {
      AdvancedTwice(fds, fd, p, 0);
      var n, bytes := k.Read(fd, left);
      if n < 0 {
        return false;
      }
      if n == 0 {
        AllRead(data, d.offset, len, p);
        return true;
      }
      AdvancedTwice(fds, fd, p, n);
      Store(buf, p, bytes);
      FilledFurther(before, data, d.offset, p, bytes, buf[..]);
      p := p + n;
      left := left - n;
    }
    AllRead(data, d.offset, len, p);
    ok := true;
  }

  // ---------- names ----------

  const PATH_SIZE: nat := 4096

  /** `make_path` does not refuse. */
  predicate PathFits(root: string, name: string) {
    |root| + 1 + |name| < PATH_SIZE
  }

  /** Nothing under the name but a file, a directory or nothing at all. */
  predicate Plain(dir: map<string, Entry>, name: string) {
    !(name in dir && dir[name].Link?)
  }

  // ---------- one file, opened, filled and closed ----------

  /** Create a file holding the first bytes of the buffer. */
  method Seed(k: Kernel, name: string, buf: array<Byte>, len: nat) returns (exit: Exit)
    requires len <= buf.Length
    modifies k
    ensures exit.Done? ==>
              && Settled(k, old(k.fds), old(k.closed), old(k.serial))
              && (Plain(old(k.dir), name) ==> k.dir == old(k.dir)[name := File(buf[..len])])
              && k.counts == old(k.counts).(opens := old(k.counts.opens) + 1, closes := old(k.counts.closes) + 1,
                                            written := old(k.counts.written) + len)
  {
    var fd := k.OpenCreate(name);
    if fd < 0 {
      return Died;
    }
    var wrote := WriteAll(k, fd, buf, len);
    if !wrote {
      return Died;
    }
    var closed := k.Close(fd);
    if !closed {
      return Died;
    }
    assert k.fds == old(k.fds);
    assert Range(old(k.serial), k.serial) == [old(k.serial)];
    assert [] + buf[..len] == buf[..len];
    exit := Done;
  }

  // ---------- the timed loops on one file ----------

  method OpenCloseLoop(k: Kernel, name: string, iters: nat) returns (exit: Exit, line: Line)
    modifies k
    ensures k.dir == old(k.dir)
    ensures exit.Done? ==>
              && line == Line(OpenClose, iters, 0)
              && Settled(k, old(k.fds), old(k.closed), old(k.serial))
              && k.counts == old(k.counts).(opens := old(k.counts.opens) + line.ops, closes := old(k.counts.closes) + line.ops)
  {
    line := Line(OpenClose, iters, 0);
    for i := 0 to iters
      invariant k.dir == old(k.dir)
      invariant Settled(k, old(k.fds), old(k.closed), old(k.serial))
      invariant k.counts == old(k.counts).(opens := old(k.counts.opens) + i, closes := old(k.counts.closes) + i)
    {
      ghost var serial := k.serial;
      var fd := k.OpenRead(name);
      if fd < 0 {
        return Died, line;
      }
      var closed := k.Close(fd);
      if !closed {
        return Died, line;
      }
      assert k.fds == old(k.fds);
      RangeJoin(old(k.serial), serial, serial + 1);
      assert Range(serial, serial + 1) == [serial];
    }
    exit := Done;
  }

  /** The table is the given one and the slots, whose descriptors were opened one after the other. */
  ghost predicate Holds(table: map<int, Descriptor>, slots: seq<int>, first: nat, fds: map<int, Descriptor>) {
    && (forall j :: 0 <= j < |slots| ==> slots[j] in table && slots[j] !in fds && table[slots[j]].serial == first + j)
    && (forall fd :: fd in table <==> fd in fds || fd in slots)
    && (forall fd :: fd in fds && fd in table ==> table[fd] == fds[fd])
  }

  lemma HoldsOneMore(table: map<int, Descriptor>, slots: seq<int>, first: nat, fds: map<int, Descriptor>, fd: int, d: Descriptor)
    requires Holds(table, slots, first, fds) && fd !in table && d.serial == first + |slots|
    ensures Holds(table[fd := d], slots + [fd], first, fds)
  {
  }

  lemma HoldsOneLess(table: map<int, Descriptor>, slots: seq<int>, first: nat, fds: map<int, Descriptor>)
    requires Holds(table, slots, first, fds) && slots != []
    ensures Holds(table - {slots[0]}, slots[1..], first + 1, fds)
  {
    assert forall j :: 0 < j < |slots| ==> slots[j] != slots[0];
    assert forall fd :: fd in slots <==> fd == slots[0] || fd in slots[1..];
  }

  lemma HoldsNothing(table: map<int, Descriptor>, first: nat, fds: map<int, Descriptor>)
    requires Holds(table, [], first, fds)
    ensures table == fds
  {
    assert forall fd :: fd in table <==> fd in fds;
    assert forall fd :: fd in fds ==> table[fd] == fds[fd];
    assert table.Keys == fds.Keys;
  }

  /** Fill the descriptor array by opening the file once per slot. */
  method OpenLoop(k: Kernel, name: string, slots: array<int>) returns (exit: Exit)
    modifies k, slots
    ensures k.dir == old(k.dir)
    ensures exit.Done? ==>
              && Holds(k.fds, slots[..], old(k.serial), old(k.fds))
              && k.serial == old(k.serial) + slots.Length && k.closed == old(k.closed)
              && k.counts == old(k.counts).(opens := old(k.counts.opens) + slots.Length)
  {
    for i := 0 to slots.Length
      invariant k.dir == old(k.dir) && k.closed == old(k.closed)
      invariant k.serial == old(k.serial) + i
      invariant Holds(k.fds, slots[..i], old(k.serial), old(k.fds))
      invariant k.counts == old(k.counts).(opens := old(k.counts.opens) + i)
    {
      ghost var before, table := slots[..i], k.fds;
      var fd := k.OpenRead(name);
      if fd < 0 {
        return Died;
      }
      HoldsOneMore(table, before, old(k.serial), old(k.fds), fd, k.fds[fd]);
      slots[i] := fd;
      assert slots[..i + 1] == before + [fd];
    }
    assert slots[..] == slots[..slots.Length];
    exit := Done;
  }

  /** Close the descriptors in the array, in order. */
  method CloseLoop(k: Kernel, slots: array<int>, ghost fds: map<int, Descriptor>, ghost first: nat) returns (exit: Exit)
    requires Holds(k.fds, slots[..], first, fds) && k.serial == first + slots.Length
    modifies k
    ensures k.dir == old(k.dir)
    ensures exit.Done? ==>
              && Settled(k, fds, old(k.closed), first) && k.serial == old(k.serial)
              && k.counts == old(k.counts).(closes := old(k.counts.closes) + slots.Length)
  {
    hide Holds;
    assert slots[0..] == slots[..];
    assert k.closed + Range(first, first) == k.closed;
    for i := 0 to slots.Length
      invariant k.dir == old(k.dir) && k.serial == old(k.serial)
      invariant Holds(k.fds, slots[i..], first + i, fds)
      invariant k.closed == old(k.closed) + Range(first, first + i)
      invariant k.counts == old(k.counts).(closes := old(k.counts.closes) + i)
    {
      ghost var held := slots[i..];
      assert held[0] == slots[i] && slots[i + 1..] == held[1..];
      FirstIsHeld(k.fds, held, first + i, fds);
      HoldsOneLess(k.fds, held, first + i, fds);
      var closed := k.Close(slots[i]);
      if !closed {
        return Died;
      }
      RangeJoin(first, first + i, first + i + 1);
      assert Range(first + i, first + i + 1) == [first + i];
    }
    assert slots[slots.Length..] == [];
    HoldsNothing(k.fds, first + slots.Length, fds);
    exit := Done;
  }

  lemma FirstIsHeld(table: map<int, Descriptor>, slots: seq<int>, first: nat, fds: map<int, Descriptor>)
    requires Holds(table, slots, first, fds) && slots != []
    ensures slots[0] in table && table[slots[0]].serial == first
  {
  }

  method StatLoop(k: Kernel, name: string, iters: nat) returns (exit: Exit, line: Line)
    modifies k`counts
    ensures exit.Done? ==>
              line == Line(StatSame, iters, 0) && k.counts == old(k.counts).(stats := old(k.counts.stats) + line.ops)
  {
    line := Line(StatSame, iters, 0);
    for i := 0 to iters
      invariant k.counts == old(k.counts).(stats := old(k.counts.stats) + i)
    {
      var ok := k.Stat(name);
      if !ok {
        return Died, line;
      }
    }
    exit := Done;
  }

  method FstatLoop(k: Kernel, fd: int, iters: nat) returns (exit: Exit, line: Line)
    modifies k`counts
    ensures exit.Done? ==>
              line == Line(FstatOnly, iters, 0) && k.counts == old(k.counts).(fstats := old(k.counts.fstats) + line.ops)
  {
    line := Line(FstatOnly, iters, 0);
    for i := 0 to iters
      invariant k.counts == old(k.counts).(fstats := old(k.counts.fstats) + i)
    {
      var ok := k.Fstat(fd);
      if !ok {
        return Died, line;
      }
    }
    exit := Done;
  }

  method SeekLoop(k: Kernel, fd: int, iters: nat) returns (exit: Exit, line: Line)
    requires fd in k.fds && k.fds[fd].offset == 0
    modifies k`fds, k`counts
    ensures exit.Done? ==>
              && line == Line(LseekOnly, iters, 0) && k.fds == old(k.fds)
              && k.counts == old(k.counts).(seeks := old(k.counts.seeks) + line.ops)
  {
    line := Line(LseekOnly, iters, 0);
    for i := 0 to iters
      invariant k.fds == old(k.fds)
      invariant k.counts == old(k.counts).(seeks := old(k.counts.seeks) + i)
    {
      var ok := k.Rewind(fd);
      if !ok {
        return Died, line;
      }
      assert k.fds == old(k.fds);
    }
    exit := Done;
  }
}

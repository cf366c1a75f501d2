/** The phases of the benchmark's `main`, from the first seed file to the last unlink. */
module FileProgram {
  import opened Options
  import opened Text
  import opened FileKernel
  import opened FileBench

  // ---------- indexed names ----------

  function Zeros(n: nat): (r: string)
    ensures |r| == n && AllDigits(r)
  {
    seq(n, _ => '0')
  }

  /** `%05d` of a natural number. */
  function Padded(i: nat): (r: string)
    ensures |r| >= 5 && AllDigits(r)
  {
    var d := Digits(i);
    if |d| < 5 then Zeros(5 - |d|) + d else d
  }

  /** `small.%05d` */
  function SmallName(i: nat): string {
    ['s', 'm', 'a', 'l', 'l', '.'] + Padded(i)
  }

  lemma {:induction false} LeadingZeros(n: nat, s: string)
    requires AllDigits(s)
    ensures AllDigits(Zeros(n) + s) && Value(Zeros(n) + s) == Value(s)
    decreases |s|, n
  {
    var t := Zeros(n) + s;
    if s != "" {
      assert t[..|t| - 1] == Zeros(n) + s[..|s| - 1];
      LeadingZeros(n, s[..|s| - 1]);
    } else if n > 0 {
      assert t[..|t| - 1] == Zeros(n - 1) + s;
      LeadingZeros(n - 1, s);
    } else {
      assert t == s;
    }
  }

  /** The padding loses nothing: different indices have different names. */
  lemma SmallNamesDiffer(i: nat, j: nat)
    requires SmallName(i) == SmallName(j)
    ensures i == j
  {
    assert Padded(i) == SmallName(i)[6..] == Padded(j);
    PaddedValue(i);
    PaddedValue(j);
  }

  lemma PaddedValue(i: nat)
    ensures Value(Padded(i)) == i
  {
    DigitsRoundTrip(i);
    LeadingZeros(if |Digits(i)| < 5 then 5 - |Digits(i)| else 0, Digits(i));
  }

  function SmallNames(n: nat): set<string> {
    set i | 0 <= i < n :: SmallName(i)
  }

  // ---------- the fixed names ----------

  datatype Names = Names(
    openClose: string, sequential: string, chmod: string, renameA: string, renameB: string,
    mkdir: string, target: string, link: string)

  const NAMES := Names(
    "open-close.bin", "seq.bin", "chmod.bin", "rename-a.bin", "rename-b.bin", "mkdir-rmdir",
    "symlink-target.bin", "symlink-link.bin")

  function Fixed(n: Names): seq<string> {
    [n.openClose, n.sequential, n.chmod, n.renameA, n.renameB, n.mkdir, n.target, n.link]
  }

  ghost predicate Distinct(n: Names) {
    forall i, j :: 0 <= i < j < 8 ==> Fixed(n)[i] != Fixed(n)[j]
  }

  /** No fixed name is an indexed one. */
  ghost predicate Apart(n: Names) {
    forall i: nat :: SmallName(i) !in Fixed(n)
  }

  lemma FixedNamesDiffer()
    ensures Distinct(NAMES)
  {
    assert NAMES.renameA[7] != NAMES.renameB[7];
    assert |NAMES.openClose| == 14 && |NAMES.sequential| == 7 && |NAMES.chmod| == 9 && |NAMES.renameA| == 12;
    assert |NAMES.renameB| == 12 && |NAMES.mkdir| == 11 && |NAMES.target| == 18 && |NAMES.link| == 16;
  }

  lemma FixedNamesAreNotSmall()
    ensures Apart(NAMES)
  {
    forall i: nat
      ensures SmallName(i) !in Fixed(NAMES)
    {
      var s := SmallName(i);
      assert |s| >= 11 && s[0] == 's' && s[1] == 'm';
      assert NAMES.openClose[0] == 'o' && |NAMES.sequential| == 7 && NAMES.chmod[0] == 'c' && NAMES.renameA[0] == 'r';
      assert NAMES.renameB[0] == 'r' && NAMES.mkdir[0] == 'm' && NAMES.target[1] == 'y' && NAMES.link[1] == 'y';
    }
  }

  function Members(names: seq<string>): set<string> {
    set name | name in names
  }

  /** Every name the benchmark uses. */
  function Own(n: Names, files: nat): set<string> {
    Members(Fixed(n)) + SmallNames(files)
  }

  // ---------- settling across phases ----------

  lemma SettledThen(closed0: seq<nat>, closed1: seq<nat>, closed2: seq<nat>, s0: nat, s1: nat, s2: nat)
    requires s0 <= s1 <= s2 && closed1 == closed0 + Range(s0, s1) && closed2 == closed1 + Range(s1, s2)
    ensures closed2 == closed0 + Range(s0, s2)
  {
    RangeJoin(s0, s1, s2);
  }

  // ---------- sequential phases ----------

  function Repeat(block: seq<Byte>, n: nat): (r: seq<Byte>)
    ensures |r| == n * |block|
  {
    if n == 0 then [] else Repeat(block, n - 1) + block
  }

  lemma {:induction false} RepeatSlice(block: seq<Byte>, n: nat, i: nat)
    requires i < n
    ensures (i + 1) * |block| <= n * |block| == |Repeat(block, n)|
    ensures Repeat(block, n)[i * |block|..(i + 1) * |block|] == block
  {
    var r := Repeat(block, n);
    if i < n - 1 {
      RepeatSlice(block, n - 1, i);
      assert (n - 1) * |block| + |block| == n * |block|;
      assert r[i * |block|..(i + 1) * |block|] == Repeat(block, n - 1)[i * |block|..(i + 1) * |block|];
    } else {
      assert (n - 1) * |block| + |block| == n * |block|;
    }
  }

  lemma OneMoreBlock(block: seq<Byte>, i: nat)
    ensures Repeat(block, i + 1) == Repeat(block, i) + block
    ensures (i + 1) * |block| == i * |block| + |block|
  {
  }

  /** The sequential write: the file ends at exactly blocks times the block size. */
  method SequentialWrite(k: Kernel, name: string, buf: array<Byte>, blocks: nat, fsync: bool)
    returns (exit: Exit, lines: seq<Line>)
    modifies k
    ensures exit.Done? ==>
              && Settled(k, old(k.fds), old(k.closed), old(k.serial))
              && (Plain(old(k.dir), name) ==> k.dir == old(k.dir)[name := File(Repeat(buf[..], blocks))])
              && lines == [Line(WriteOnly, blocks, blocks * buf.Length)] + (if fsync then [Line(FsyncOnce, 1, 0)] else [])
              && k.counts == old(k.counts).(
                   opens := old(k.counts.opens) + 1, closes := old(k.counts.closes) + 1,
                   written := old(k.counts.written) + blocks * buf.Length,
                   syncs := old(k.counts.syncs) + (if fsync then 1 else 0))
  {
    lines := [];
    var fd := k.OpenCreate(name);
    if fd < 0 {
      return Died, lines;
    }
    exit := WriteBlocks(k, fd, buf, blocks);
    if !exit.Done? {
      return exit, lines;
    }
    lines := [Line(WriteOnly, blocks, blocks * buf.Length)];
    if fsync {
      var synced := k.Fsync(fd);
      if !synced {
        return Died, lines;
      }
      lines := lines + [Line(FsyncOnce, 1, 0)];
    }
    var closed := k.Close(fd);
    if !closed {
      return Died, lines;
    }
    assert k.fds == old(k.fds);
    assert Range(old(k.serial), k.serial) == [old(k.serial)];
    exit := Done;
  }

  /** The timed loop of the sequential write. */
  method WriteBlocks(k: Kernel, fd: int, buf: array<Byte>, blocks: nat) returns (exit: Exit)
    requires k.OpenOn(fd) && k.fds[fd].offset == 0 && k.dir[k.fds[fd].name] == File([])
    modifies k`dir, k`fds, k`counts
    ensures exit.Done? ==>
              && k.dir == old(k.dir)[old(k.fds)[fd].name := File(Repeat(buf[..], blocks))]
              && k.fds == Advanced(old(k.fds), fd, blocks * buf.Length)
              && k.counts == old(k.counts).(written := old(k.counts.written) + blocks * buf.Length)
  {
    ghost var d, fds := k.fds[fd], k.fds;
    AdvancedTwice(fds, fd, 0, 0);
    hide Advanced;
    for i := 0 to blocks
      invariant k.dir == old(k.dir)[d.name := File(Repeat(buf[..], i))]
      invariant k.fds == Advanced(fds, fd, i * buf.Length)
      invariant k.counts == old(k.counts).(written := old(k.counts.written) + i * buf.Length)
    {
      AdvancedTwice(fds, fd, i * buf.Length, buf.Length);
      OneMoreBlock(buf[..], i);
      var wrote := WriteAll(k, fd, buf, buf.Length);
      if !wrote {
        return Died;
      }
      assert buf[..buf.Length] == buf[..];
      AppendedBlock(old(k.dir), d.(offset := i * buf.Length), buf[..], i);
    }
    exit := Done;
  }

  lemma AppendedBlock(dir: map<string, Entry>, d: Descriptor, block: seq<Byte>, i: nat)
    requires d.offset == i * |block|
    ensures Wrote(dir[d.name := File(Repeat(block, i))], d, block) == dir[d.name := File(Repeat(block, i + 1))]
  {
    OneMoreBlock(block, i);
    if block == [] {
      assert Repeat(block, i + 1) == Repeat(block, i);
    }
  }

  /** The sequential read: the file never ends early, and the buffer is what it was. */
  method SequentialRead(k: Kernel, name: string, buf: array<Byte>, blocks: nat) returns (exit: Exit, lines: seq<Line>)
    modifies k, buf
    ensures k.dir == old(k.dir)
    ensures exit.Done? ==>
              && Settled(k, old(k.fds), old(k.closed), old(k.serial))
              && lines == [Line(ReadOnly, blocks, blocks * buf.Length)]
              && k.counts.(read := 0) == old(k.counts).(
                   opens := old(k.counts.opens) + 1, closes := old(k.counts.closes) + 1, read := 0)
    ensures exit.Done? && name in k.dir && k.dir[name] == File(Repeat(old(buf[..]), blocks)) ==>
              && buf[..] == old(buf[..])
              && k.counts.read == old(k.counts.read) + blocks * buf.Length
  {
    lines := [];
    var fd := k.OpenRead(name);
    if fd < 0 {
      return Died, lines;
    }
    exit := ReadBlocks(k, fd, buf, blocks);
    if !exit.Done? {
      return exit, lines;
    }
    lines := [Line(ReadOnly, blocks, blocks * buf.Length)];
    var closed := k.Close(fd);
    if !closed {
      return Died, lines;
    }
    assert k.fds == old(k.fds);
    assert Range(old(k.serial), k.serial) == [old(k.serial)];
    exit := Done;
  }

  /** The timed loop of the sequential read. */
  method ReadBlocks(k: Kernel, fd: int, buf: array<Byte>, blocks: nat) returns (exit: Exit)
    requires k.OpenOn(fd) && k.fds[fd].offset == 0
    modifies k`fds, k`counts, buf
    ensures exit.Done? ==>
              && fd in k.fds && k.fds - {fd} == old(k.fds) - {fd} && k.fds[fd].serial == old(k.fds)[fd].serial
              && k.counts.(read := 0) == old(k.counts).(read := 0)
    ensures exit.Done? && k.dir[old(k.fds)[fd].name].data == Repeat(old(buf[..]), blocks) ==>
              && buf[..] == old(buf[..])
              && k.counts.read == old(k.counts.read) + blocks * buf.Length
  {
    ghost var block, d := buf[..], k.fds[fd];
    ghost var data := k.dir[d.name].data;
    for i := 0 to blocks
      invariant k.OpenOn(fd) && k.fds[fd].name == d.name && k.fds[fd].serial == d.serial
      invariant k.fds - {fd} == old(k.fds) - {fd}
      invariant k.counts.(read := 0) == old(k.counts).(read := 0)
      invariant data == Repeat(block, blocks) ==>
                  && buf[..] == block && k.fds[fd].offset == i * |block|
                  && k.counts.read == old(k.counts.read) + i * |block|
    {
      ghost var fds, before := k.fds, buf[..];
      var ok := ReadAll(k, fd, buf, buf.Length);
      if !ok {
        return Died;
      }
      assert k.fds - {fd} == fds - {fd};
      if data == Repeat(block, blocks) {
        WholeBlock(block, data, blocks, i);
      }
    }
    exit := Done;
  }

  /** Reading at a block boundary delivers a whole block. */
  lemma WholeBlock(block: seq<Byte>, data: seq<Byte>, blocks: nat, i: nat)
    requires i < blocks && data == Repeat(block, blocks)
    ensures Available(data, i * |block|, |block|) == |block|
    ensures Filled(block, data, i * |block|, |block|) == block
    ensures (i + 1) * |block| == i * |block| + |block|
  {
    RepeatSlice(block, blocks, i);
    OneMoreBlock(block, i);
  }
}

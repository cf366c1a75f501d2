/** The directory phases of the benchmark and `main` itself. */
module FileMain {
  import opened Options
  import opened FileKernel
  import opened FileBench
  import opened FileProgram

  const SMALL: nat := 32

  // ---------- loops over one directory entry ----------

  method ChmodLoop(k: Kernel, name: string, files: nat) returns (exit: Exit, line: Line)
    modifies k`counts
    ensures exit.Done? ==>
              line == Line(ChmodSame, files, 0) && k.counts == old(k.counts).(chmods := old(k.counts.chmods) + line.ops)
  {
    line := Line(ChmodSame, files, 0);
    for i := 0 to files
      invariant k.counts == old(k.counts).(chmods := old(k.counts.chmods) + i)
    {
      var ok := k.Chmod(name);
      if !ok {
        return Died, line;
      }
    }
    exit := Done;
  }

  /** There and back: what was under the first name still is, and nothing is under the second. */
  method RenameLoop(k: Kernel, a: string, b: string, files: nat) returns (exit: Exit, line: Line)
    requires a != b && k.Idle(a) && k.Idle(b) && files > 0
    modifies k`dir, k`counts
    ensures exit.Done? ==>
              && line == Line(RenamePair, files * 2, 0)
              && k.dir == old(k.dir) - {b}
              && k.counts == old(k.counts).(renames := old(k.counts.renames) + line.ops)
  {
    line := Line(RenamePair, files * 2, 0);
    for i := 0 to files
      invariant k.dir == if i == 0 then old(k.dir) else old(k.dir) - {b}
      invariant k.counts == old(k.counts).(renames := old(k.counts.renames) + 2 * i)
    {
      var there := k.Rename(a, b);
      if !there {
        return Died, line;
      }
      var back := k.Rename(b, a);
      if !back {
        return Died, line;
      }
      assert k.dir == old(k.dir) - {b};
    }
    exit := Done;
  }

  method MkdirLoop(k: Kernel, name: string, files: nat) returns (exit: Exit, line: Line)
    requires k.Idle(name) && files > 0
    modifies k`dir, k`counts
    ensures exit.Done? ==>
              && line == Line(MkdirRmdirPair, files * 2, 0)
              && name !in old(k.dir) && k.dir == old(k.dir)
              && k.counts == old(k.counts).(mkdirs := old(k.counts.mkdirs) + files, rmdirs := old(k.counts.rmdirs) + files)
  {
    line := Line(MkdirRmdirPair, files * 2, 0);
    for i := 0 to files
      invariant k.dir == old(k.dir)
      invariant i > 0 ==> name !in old(k.dir)
      invariant k.counts == old(k.counts).(mkdirs := old(k.counts.mkdirs) + i, rmdirs := old(k.counts.rmdirs) + i)
    {
      var made := k.Mkdir(name);
      if !made {
        return Died, line;
      }
      var removed := k.Rmdir(name);
      if !removed {
        return Died, line;
      }
      assert k.dir == old(k.dir);
    }
    exit := Done;
  }

  method SymlinkLoop(k: Kernel, target: string, name: string, files: nat) returns (exit: Exit, line: Line)
    requires k.Idle(name)
    modifies k`dir, k`counts
    ensures exit.Done? ==>
              && line == Line(SymlinkUnlinkPair, files * 2, 0)
              && k.dir == old(k.dir)
              && k.counts == old(k.counts).(symlinks := old(k.counts.symlinks) + files, unlinks := old(k.counts.unlinks) + files)
  {
    line := Line(SymlinkUnlinkPair, files * 2, 0);
    for i := 0 to files
      invariant k.dir == old(k.dir)
      invariant k.counts == old(k.counts).(symlinks := old(k.counts.symlinks) + i, unlinks := old(k.counts.unlinks) + i)
    {
      var made := k.Symlink(target, name);
      if !made {
        return Died, line;
      }
      var removed := k.Unlink(name);
      if !removed {
        return Died, line;
      }
      assert k.dir == old(k.dir);
    }
    exit := Done;
  }

  /** One link, read over and over, and removed. */
  method ReadlinkPhase(k: Kernel, target: string, name: string, files: nat) returns (exit: Exit, line: Line)
    requires k.Idle(name)
    modifies k`dir, k`counts
    ensures exit.Done? ==>
              && line == Line(ReadlinkOnly, files, 0)
              && name !in old(k.dir) && k.dir == old(k.dir)
              && k.counts == old(k.counts).(
                   symlinks := old(k.counts.symlinks) + 1, unlinks := old(k.counts.unlinks) + 1,
                   readlinks := old(k.counts.readlinks) + line.ops)
  {
    line := Line(ReadlinkOnly, files, 0);
    var made := k.Symlink(target, name);
    if !made {
      return Died, line;
    }
    for i := 0 to files
      invariant k.dir == old(k.dir)[name := Link(target)]
      invariant k.counts == old(k.counts).(
                  symlinks := old(k.counts.symlinks) + 1, readlinks := old(k.counts.readlinks) + i)
    {
      var ok := k.Readlink(name);
      if !ok {
        return Died, line;
      }
    }
    var removed := k.Unlink(name);
    if !removed {
      return Died, line;
    }
    assert k.dir == old(k.dir);
    exit := Done;
  }

  // ---------- small files ----------

  /** The directory with the first n indexed files in it. */
  function WithSmall(dir: map<string, Entry>, n: nat, data: seq<Byte>): map<string, Entry> {
    if n == 0 then dir else WithSmall(dir, n - 1, data)[SmallName(n - 1) := File(data)]
  }

  lemma {:induction false} InWithSmall(dir: map<string, Entry>, n: nat, data: seq<Byte>, name: string)
    ensures name in WithSmall(dir, n, data) <==> name in dir || name in SmallNames(n)
    ensures name in SmallNames(n) ==> WithSmall(dir, n, data)[name] == File(data)
    ensures name in dir && name !in SmallNames(n) ==> WithSmall(dir, n, data)[name] == dir[name]
  {
    if n > 0 {
      hide SmallName;
      InWithSmall(dir, n - 1, data, name);
      assert SmallNames(n) == SmallNames(n - 1) + {SmallName(n - 1)};
    }
  }

  ghost predicate SmallPlain(dir: map<string, Entry>, files: nat) {
    forall i: nat :: i < files ==> Plain(dir, SmallName(i))
  }

  lemma StillPlain(dir: map<string, Entry>, n: nat, data: seq<Byte>, name: string)
    requires Plain(dir, name)
    ensures Plain(WithSmall(dir, n, data), name)
  {
    hide SmallName;
    InWithSmall(dir, n, data, name);
  }

  method SmallCreateLoop(k: Kernel, root: string, buf: array<Byte>, files: nat) returns (exit: Exit, line: Line)
    requires SMALL <= buf.Length
    modifies k
    ensures exit.Done? ==>
              && line == Line(SmallCreate, files, files * SMALL)
              && Settled(k, old(k.fds), old(k.closed), old(k.serial))
              && (SmallPlain(old(k.dir), files) ==> k.dir == WithSmall(old(k.dir), files, buf[..SMALL]))
              && k.counts == old(k.counts).(
                   opens := old(k.counts.opens) + line.ops, closes := old(k.counts.closes) + line.ops,
                   written := old(k.counts.written) + line.bytes)
  {
    hide SmallName;
    line := Line(SmallCreate, files, files * SMALL);
    for i := 0 to files
      invariant Settled(k, old(k.fds), old(k.closed), old(k.serial))
      invariant SmallPlain(old(k.dir), files) ==> k.dir == WithSmall(old(k.dir), i, buf[..SMALL])
      invariant k.counts == old(k.counts).(
                  opens := old(k.counts.opens) + i, closes := old(k.counts.closes) + i,
                  written := old(k.counts.written) + i * SMALL)
    {
      ghost var serial, closed := k.serial, k.closed;
      if !PathFits(root, SmallName(i)) {
        return Refused, line;
      }
      exit := Seed(k, SmallName(i), buf, SMALL);
      if !exit.Done? {
        return;
      }
      SettledThen(old(k.closed), closed, k.closed, old(k.serial), serial, k.serial);
      if SmallPlain(old(k.dir), files) {
        StillPlain(old(k.dir), i, buf[..SMALL], SmallName(i));
      }
    }
    exit := Done;
  }

  method SmallStatLoop(k: Kernel, root: string, files: nat) returns (exit: Exit, line: Line)
    modifies k`counts
    ensures exit.Done? ==>
              line == Line(SmallStat, files, 0) && k.counts == old(k.counts).(stats := old(k.counts.stats) + line.ops)
  {
    hide SmallName;
    line := Line(SmallStat, files, 0);
    for i := 0 to files
      invariant k.counts == old(k.counts).(stats := old(k.counts.stats) + i)
    {
      if !PathFits(root, SmallName(i)) {
        return Refused, line;
      }
      var ok := k.Stat(SmallName(i));
      if !ok {
        return Died, line;
      }
    }
    exit := Done;
  }

  /** All indexed files are there and whole. */
  ghost predicate SmallWhole(dir: map<string, Entry>, files: nat) {
    forall i: nat :: i < files ==> SmallName(i) in dir && dir[SmallName(i)].File? && |dir[SmallName(i)].data| == SMALL
  }

  method SmallReadLoop(k: Kernel, root: string, buf: array<Byte>, files: nat) returns (exit: Exit, line: Line)
    requires SMALL <= buf.Length
    modifies k, buf
    ensures k.dir == old(k.dir)
    ensures exit.Done? ==>
              && line == Line(SmallRead, files, files * SMALL)
              && Settled(k, old(k.fds), old(k.closed), old(k.serial))
              && k.counts.(read := 0) == old(k.counts).(
                   opens := old(k.counts.opens) + line.ops, closes := old(k.counts.closes) + line.ops, read := 0)
              && (SmallWhole(k.dir, files) ==> k.counts.read == old(k.counts.read) + line.bytes)
  {
    hide SmallName;
    line := Line(SmallRead, files, files * SMALL);
    for i := 0 to files
      invariant k.dir == old(k.dir)
      invariant Settled(k, old(k.fds), old(k.closed), old(k.serial))
      invariant k.counts.(read := 0) == old(k.counts).(
                  opens := old(k.counts.opens) + i, closes := old(k.counts.closes) + i, read := 0)
      invariant SmallWhole(k.dir, files) ==> k.counts.read == old(k.counts.read) + i * SMALL
    {
      ghost var serial, closed := k.serial, k.closed;
      if !PathFits(root, SmallName(i)) {
        return Refused, line;
      }
      exit := ReadSmall(k, SmallName(i), buf);
      if !exit.Done? {
        return;
      }
      SettledThen(old(k.closed), closed, k.closed, old(k.serial), serial, k.serial);
    }
    exit := Done;
  }

  method ReadSmall(k: Kernel, name: string, buf: array<Byte>) returns (exit: Exit)
    requires SMALL <= buf.Length
    modifies k, buf
    ensures k.dir == old(k.dir)
    ensures exit.Done? ==>
              && Settled(k, old(k.fds), old(k.closed), old(k.serial))
              && k.counts.(read := 0) == old(k.counts).(
                   opens := old(k.counts.opens) + 1, closes := old(k.counts.closes) + 1, read := 0)
              && (name in k.dir && k.dir[name].File? && |k.dir[name].data| == SMALL ==>
                    k.counts.read == old(k.counts.read) + SMALL)
  {
    var fd := k.OpenRead(name);
    if fd < 0 {
      return Died;
    }
    hide Filled;
    var ok := ReadAll(k, fd, buf, SMALL);
    if !ok {
      return Died;
    }
    var closed := k.Close(fd);
    if !closed {
      return Died;
    }
    assert k.fds == old(k.fds);
    assert Range(old(k.serial), k.serial) == [old(k.serial)];
    exit := Done;
  }

  method UnlinkSmallLoop(k: Kernel, root: string, files: nat) returns (exit: Exit)
    requires k.fds == map[]
    modifies k`dir, k`counts
    ensures exit.Done? ==>
              && k.dir == old(k.dir) - SmallNames(files)
              && k.counts == old(k.counts).(unlinks := old(k.counts.unlinks) + files)
  {
    hide SmallName;
    assert SmallNames(0) == {};
    for i := 0 to files
      invariant k.dir == old(k.dir) - SmallNames(i)
      invariant k.counts == old(k.counts).(unlinks := old(k.counts.unlinks) + i)
    {
      if !PathFits(root, SmallName(i)) {
        return Refused;
      }
      var ok := k.Unlink(SmallName(i));
      if !ok {
        return Died;
      }
      assert SmallNames(i + 1) == SmallNames(i) + {SmallName(i)};
      assert k.dir == old(k.dir) - SmallNames(i + 1);
    }
    exit := Done;
  }

  /** The five files left over. */
  method UnlinkFixed(k: Kernel, n: Names) returns (exit: Exit)
    requires k.fds == map[]
    modifies k`dir, k`counts
    ensures exit.Done? ==>
              && k.dir == old(k.dir) - {n.sequential, n.openClose, n.chmod, n.renameA, n.target}
              && k.counts == old(k.counts).(unlinks := old(k.counts.unlinks) + 5)
  {
    var names := [n.sequential, n.openClose, n.chmod, n.renameA, n.target];
    for i := 0 to 5
      invariant k.dir == old(k.dir) - Members(names[..i])
      invariant k.counts == old(k.counts).(unlinks := old(k.counts.unlinks) + i)
    {
      var ok := k.Unlink(names[i]);
      if !ok {
        return Died;
      }
      assert names[..i + 1] == names[..i] + [names[i]];
      assert Members(names[..i + 1]) == Members(names[..i]) + {names[i]};
      assert k.dir == old(k.dir) - Members(names[..i + 1]);
    }
    assert names[..5] == names;
    assert Members(names) == {n.sequential, n.openClose, n.chmod, n.renameA, n.target};
    exit := Done;
  }

  // ---------- the calls of each group ----------

  function HandleCalls(c: Counts, iters: nat): Counts {
    c.(opens := c.opens + 3 * iters + 3, closes := c.closes + 3 * iters + 3, stats := c.stats + iters,
       fstats := c.fstats + iters, seeks := c.seeks + iters, written := c.written + SMALL)
  }

  function SequentialCalls(c: Counts, blocks: nat, blockSize: nat, fsync: bool): Counts {
    c.(opens := c.opens + 2, closes := c.closes + 2, syncs := c.syncs + (if fsync then 1 else 0),
       written := c.written + blocks * blockSize, read := c.read + blocks * blockSize)
  }

  function EntryCalls(c: Counts, files: nat): Counts {
    c.(opens := c.opens + 3, closes := c.closes + 3, chmods := c.chmods + files, renames := c.renames + 2 * files,
       mkdirs := c.mkdirs + files, rmdirs := c.rmdirs + files, symlinks := c.symlinks + files + 1,
       readlinks := c.readlinks + files, unlinks := c.unlinks + files + 1)
  }

  function SmallCalls(c: Counts, files: nat): Counts {
    c.(opens := c.opens + 2 * files, closes := c.closes + 2 * files, stats := c.stats + files,
       written := c.written + files * SMALL, read := c.read + files * SMALL)
  }

  // ---------- the groups of phases ----------

  /** Everything done with the first seed file. */
  method HandlePhases(k: Kernel, root: string, name: string, buf: array<Byte>, iters: nat)
    returns (exit: Exit, lines: seq<Line>)
    requires SMALL <= buf.Length
    modifies k
    ensures exit.Done? ==>
              && Settled(k, old(k.fds), old(k.closed), old(k.serial))
              && (Plain(old(k.dir), name) ==> k.dir == old(k.dir)[name := File(buf[..SMALL])])
              && lines == HandleLines(iters)
              && k.counts == HandleCalls(old(k.counts), iters)
  {
    lines := [];
    if !PathFits(root, name) {
      return Refused, lines;
    }
    exit := Seed(k, name, buf, SMALL);
    if !exit.Done? {
      return;
    }
    ghost var closed, serial := k.closed, k.serial;
    exit, lines := HandleLoops(k, name, iters);
    if !exit.Done? {
      return;
    }
    SettledThen(old(k.closed), closed, k.closed, old(k.serial), serial, k.serial);
    ghost var closed', serial' := k.closed, k.serial;
    var more: seq<Line>;
    exit, more := PositionLoops(k, name, iters);
    if !exit.Done? {
      return;
    }
    SettledThen(old(k.closed), closed', k.closed, old(k.serial), serial', k.serial);
    lines := lines + more;
  }

  function HandleLines(iters: nat): seq<Line> {
    [Line(OpenClose, iters, 0), Line(OpenatOnly, iters, 0), Line(CloseOnly, iters, 0), Line(StatSame, iters, 0),
     Line(FstatOnly, iters, 0), Line(LseekOnly, iters, 0)]
  }

  /** Opening and closing, together, and one by one through the descriptor array. */
  method HandleLoops(k: Kernel, name: string, iters: nat) returns (exit: Exit, lines: seq<Line>)
    modifies k
    ensures k.dir == old(k.dir)
    ensures exit.Done? ==>
              && Settled(k, old(k.fds), old(k.closed), old(k.serial))
              && lines == HandleLines(iters)[..3]
              && k.counts == old(k.counts).(
                   opens := old(k.counts.opens) + 3 * iters, closes := old(k.counts.closes) + 3 * iters)
  {
    hide Holds, Range;
    lines := [];
    var line: Line;
    exit, line := OpenCloseLoop(k, name, iters);
    if !exit.Done? {
      return;
    }
    var slots := new int[iters];
    ghost var closed, serial := k.closed, k.serial;
    exit := OpenLoop(k, name, slots);
    if !exit.Done? {
      return;
    }
    exit := CloseLoop(k, slots, old(k.fds), serial);
    if !exit.Done? {
      return;
    }
    SettledThen(old(k.closed), closed, k.closed, old(k.serial), serial, k.serial);
    ghost var closed', serial' := k.closed, k.serial;
    exit := OpenLoop(k, name, slots);
    if !exit.Done? {
      return;
    }
    exit := CloseLoop(k, slots, old(k.fds), serial');
    if !exit.Done? {
      return;
    }
    SettledThen(old(k.closed), closed', k.closed, old(k.serial), serial', k.serial);
    lines := [line, Line(OpenatOnly, iters, 0), Line(CloseOnly, iters, 0)];
  }

  /** Asking about the file by name and through a descriptor. */
  method PositionLoops(k: Kernel, name: string, iters: nat) returns (exit: Exit, lines: seq<Line>)
    modifies k
    ensures k.dir == old(k.dir)
    ensures exit.Done? ==>
              && Settled(k, old(k.fds), old(k.closed), old(k.serial))
              && lines == HandleLines(iters)[3..]
              && k.counts == old(k.counts).(
                   opens := old(k.counts.opens) + 2, closes := old(k.counts.closes) + 2,
                   stats := old(k.counts.stats) + iters, fstats := old(k.counts.fstats) + iters,
                   seeks := old(k.counts.seeks) + iters)
  {
    lines := [];
    var stat, fstat, seek: Line;
    exit, stat := StatLoop(k, name, iters);
    if !exit.Done? {
      return;
    }
    var fd := k.OpenRead(name);
    if fd < 0 {
      return Died, lines;
    }
    exit, fstat := FstatLoop(k, fd, iters);
    if !exit.Done? {
      return;
    }
    var closed := k.Close(fd);
    if !closed {
      return Died, lines;
    }
    assert k.fds == old(k.fds);
    fd := k.OpenRead(name);
    if fd < 0 {
      return Died, lines;
    }
    exit, seek := SeekLoop(k, fd, iters);
    if !exit.Done? {
      return;
    }
    closed := k.Close(fd);
    if !closed {
      return Died, lines;
    }
    assert k.fds == old(k.fds);
    assert Range(old(k.serial), k.serial) == [old(k.serial), old(k.serial) + 1];
    lines := [stat, fstat, seek];
    exit := Done;
  }

  function SequentialLines(blocks: nat, blockSize: nat, fsync: bool): seq<Line> {
    [Line(WriteOnly, blocks, blocks * blockSize)] + (if fsync then [Line(FsyncOnce, 1, 0)] else [])
    + [Line(ReadOnly, blocks, blocks * blockSize)]
  }

  /** The sequential file, written and read back. */
  method SequentialPhases(k: Kernel, root: string, name: string, buf: array<Byte>, blocks: nat, fsync: bool)
    returns (exit: Exit, lines: seq<Line>)
    modifies k, buf
    ensures exit.Done? ==>
              && Settled(k, old(k.fds), old(k.closed), old(k.serial))
              && lines == SequentialLines(blocks, buf.Length, fsync)
              && k.counts.(read := 0) == SequentialCalls(old(k.counts), blocks, buf.Length, fsync).(read := 0)
    ensures exit.Done? && Plain(old(k.dir), name) ==>
              && k.dir == old(k.dir)[name := File(Repeat(old(buf[..]), blocks))]
              && buf[..] == old(buf[..])
              && k.counts.read == old(k.counts.read) + blocks * buf.Length
  {
    hide Range, Repeat;
    lines := [];
    if !PathFits(root, name) {
      return Refused, lines;
    }
    exit, lines := SequentialWrite(k, name, buf, blocks, fsync);
    if !exit.Done? {
      return;
    }
    ghost var closed, serial := k.closed, k.serial;
    var more: seq<Line>;
    exit, more := SequentialRead(k, name, buf, blocks);
    if !exit.Done? {
      return;
    }
    SettledThen(old(k.closed), closed, k.closed, old(k.serial), serial, k.serial);
    lines := lines + more;
  }

  function EntryLines(files: nat): seq<Line> {
    [Line(ChmodSame, files, 0), Line(RenamePair, files * 2, 0), Line(MkdirRmdirPair, files * 2, 0),
     Line(SymlinkUnlinkPair, files * 2, 0), Line(ReadlinkOnly, files, 0)]
  }

  /** The permission and renaming phases. */
  method RenamePhases(k: Kernel, root: string, n: Names, buf: array<Byte>, files: nat) returns (exit: Exit, lines: seq<Line>)
    requires k.fds == map[] && files > 0 && n.renameA != n.renameB && n.renameA != n.chmod
    modifies k
    ensures exit.Done? ==>
              && Settled(k, map[], old(k.closed), old(k.serial))
              && lines == EntryLines(files)[..2]
              && k.counts == old(k.counts).(
                   opens := old(k.counts.opens) + 2, closes := old(k.counts.closes) + 2,
                   chmods := old(k.counts.chmods) + files, renames := old(k.counts.renames) + 2 * files)
              && (Plain(old(k.dir), n.chmod) && Plain(old(k.dir), n.renameA) ==>
                    k.dir == old(k.dir)[n.chmod := File([])][n.renameA := File([])] - {n.renameB})
  {
    hide Range;
    lines := [];
    if !PathFits(root, n.chmod) {
      return Refused, lines;
    }
    exit := Seed(k, n.chmod, buf, 0);
    if !exit.Done? {
      return;
    }
    var chmod, rename: Line;
    exit, chmod := ChmodLoop(k, n.chmod, files);
    if !exit.Done? {
      return;
    }
    if !PathFits(root, n.renameA) || !PathFits(root, n.renameB) {
      return Refused, lines;
    }
    ghost var closed, serial := k.closed, k.serial;
    exit := Seed(k, n.renameA, buf, 0);
    if !exit.Done? {
      return;
    }
    SettledThen(old(k.closed), closed, k.closed, old(k.serial), serial, k.serial);
    exit, rename := RenameLoop(k, n.renameA, n.renameB, files);
    if !exit.Done? {
      return;
    }
    assert buf[..0] == [];
    lines := [chmod, rename];
  }

  /** The directory and link phases. */
  method LinkPhases(k: Kernel, root: string, n: Names, buf: array<Byte>, files: nat) returns (exit: Exit, lines: seq<Line>)
    requires k.fds == map[] && files > 0 && n.link != n.target
    modifies k
    ensures exit.Done? ==>
              && Settled(k, map[], old(k.closed), old(k.serial))
              && lines == EntryLines(files)[2..]
              && k.counts == old(k.counts).(
                   opens := old(k.counts.opens) + 1, closes := old(k.counts.closes) + 1,
                   mkdirs := old(k.counts.mkdirs) + files, rmdirs := old(k.counts.rmdirs) + files,
                   symlinks := old(k.counts.symlinks) + files + 1, readlinks := old(k.counts.readlinks) + files,
                   unlinks := old(k.counts.unlinks) + files + 1)
              && (Plain(old(k.dir), n.target) ==>
                    k.dir == old(k.dir)[n.target := File([])] && n.mkdir !in old(k.dir) && n.link !in old(k.dir))
  {
    lines := [];
    if !PathFits(root, n.mkdir) {
      return Refused, lines;
    }
    var mkdir, symlink, readlink: Line;
    exit, mkdir := MkdirLoop(k, n.mkdir, files);
    if !exit.Done? {
      return;
    }
    if !PathFits(root, n.target) || !PathFits(root, n.link) {
      return Refused, lines;
    }
    exit := Seed(k, n.target, buf, 0);
    if !exit.Done? {
      return;
    }
    exit, symlink := SymlinkLoop(k, n.target, n.link, files);
    if !exit.Done? {
      return;
    }
    exit, readlink := ReadlinkPhase(k, n.target, n.link, files);
    if !exit.Done? {
      return;
    }
    assert buf[..0] == [];
    lines := [mkdir, symlink, readlink];
  }

  function SmallLines(files: nat): seq<Line> {
    [Line(SmallCreate, files, files * SMALL), Line(SmallStat, files, 0), Line(SmallRead, files, files * SMALL)]
  }

  /** The indexed files: created, looked at and read. */
  method SmallPhases(k: Kernel, root: string, buf: array<Byte>, files: nat) returns (exit: Exit, lines: seq<Line>)
    requires SMALL <= buf.Length
    modifies k, buf
    ensures exit.Done? ==>
              && Settled(k, old(k.fds), old(k.closed), old(k.serial))
              && lines == SmallLines(files)
              && k.counts.(read := 0) == SmallCalls(old(k.counts), files).(read := 0)
              && (SmallPlain(old(k.dir), files) ==>
                    && k.dir == WithSmall(old(k.dir), files, old(buf[..SMALL]))
                    && k.counts.read == old(k.counts.read) + files * SMALL)
  {
    hide Range, WithSmall, SmallPlain, SmallWhole;
    lines := [];
    var create, stat, read: Line;
    ghost var data := buf[..SMALL];
    exit, create := SmallCreateLoop(k, root, buf, files);
    if !exit.Done? {
      return;
    }
    exit, stat := SmallStatLoop(k, root, files);
    if !exit.Done? {
      return;
    }
    AllWhole(old(k.dir), files, data);
    ghost var closed, serial := k.closed, k.serial;
    exit, read := SmallReadLoop(k, root, buf, files);
    if !exit.Done? {
      return;
    }
    SettledThen(old(k.closed), closed, k.closed, old(k.serial), serial, k.serial);
    lines := [create, stat, read];
  }

  lemma AllWhole(dir: map<string, Entry>, files: nat, data: seq<Byte>)
    requires |data| == SMALL
    ensures SmallWhole(WithSmall(dir, files, data), files)
  {
    hide SmallName;
    forall i: nat | i < files
      ensures var d := WithSmall(dir, files, data); SmallName(i) in d && d[SmallName(i)] == File(data)
    {
      InWithSmall(dir, files, data, SmallName(i));
      assert SmallName(i) in SmallNames(files);
    }
  }

  // ---------- the whole run ----------

  /** The lines of a run, in order. */
  function ReportOf(files: nat, blocks: nat, blockSize: nat, fsync: bool, iters: nat): seq<Line> {
    HandleLines(iters) + SequentialLines(blocks, blockSize, fsync) + EntryLines(files) + SmallLines(files)
    + [Line(UnlinkAll, files + 5, 0)]
  }

  /** No name the benchmark opens is a link to something else. */
  ghost predicate OwnPlain(dir: map<string, Entry>, n: Names, files: nat) {
    forall name :: name in Own(n, files) ==> Plain(dir, name)
  }

  /** What the directory holds before the last phase. */
  function Filling(dir: map<string, Entry>, n: Names, files: nat, first: seq<Byte>, sequence: seq<Byte>, small: seq<Byte>): map<string, Entry> {
    var seeded := dir[n.openClose := File(first)][n.sequential := File(sequence)];
    var renamed := seeded[n.chmod := File([])][n.renameA := File([])] - {n.renameB};
    WithSmall(renamed[n.target := File([])], files, small)
  }

  /** Unlinking leaves exactly what was not the benchmark's own. */
  lemma NothingLeft(dir: map<string, Entry>, n: Names, files: nat, first: seq<Byte>, sequence: seq<Byte>, small: seq<Byte>)
    requires Distinct(n) && n.mkdir !in dir && n.link !in dir
    ensures Filling(dir, n, files, first, sequence, small) - SmallNames(files)
              - {n.sequential, n.openClose, n.chmod, n.renameA, n.target} == dir - Own(n, files)
  {
    var left := Filling(dir, n, files, first, sequence, small) - SmallNames(files)
                - {n.sequential, n.openClose, n.chmod, n.renameA, n.target};
    var seeded := dir[n.openClose := File(first)][n.sequential := File(sequence)];
    var base := (seeded[n.chmod := File([])][n.renameA := File([])] - {n.renameB})[n.target := File([])];
    MembersOfFixed(n);
    hide SmallNames, WithSmall, Distinct, Fixed, Members;
    forall name
      ensures name in left <==> name in dir - Own(n, files)
      ensures name in left ==> left[name] == dir[name]
    {
      InWithSmall(base, files, small, name);
    }
    assert left.Keys == (dir - Own(n, files)).Keys;
  }

  lemma MembersOfFixed(n: Names)
    ensures Members(Fixed(n)) ==
            {n.openClose, n.sequential, n.chmod, n.renameA, n.renameB, n.mkdir, n.target, n.link}
  {
  }

  lemma OwnNamesArePlain(dir: map<string, Entry>, n: Names, files: nat)
    requires OwnPlain(dir, n, files)
    ensures Plain(dir, n.openClose) && Plain(dir, n.sequential) && Plain(dir, n.chmod)
    ensures Plain(dir, n.renameA) && Plain(dir, n.target)
    ensures SmallPlain(dir, files)
  {
    MembersOfFixed(n);
    hide SmallName, Fixed, Members;
    forall i: nat | i < files
      ensures Plain(dir, SmallName(i))
    {
      assert SmallName(i) in SmallNames(files);
    }
  }

  lemma NamesApart(n: Names)
    requires Distinct(n)
    ensures n.openClose != n.sequential && n.openClose != n.chmod && n.openClose != n.renameA && n.openClose != n.renameB
    ensures n.openClose != n.mkdir && n.openClose != n.target && n.openClose != n.link
    ensures n.sequential != n.chmod && n.sequential != n.renameA && n.sequential != n.renameB
    ensures n.sequential != n.mkdir && n.sequential != n.target && n.sequential != n.link
    ensures n.renameA != n.renameB && n.renameA != n.chmod && n.renameB != n.chmod && n.target != n.chmod
    ensures n.target != n.renameA && n.target != n.renameB
    ensures n.mkdir != n.chmod && n.mkdir != n.renameA && n.mkdir != n.renameB && n.mkdir != n.target
    ensures n.link != n.chmod && n.link != n.renameA && n.link != n.renameB && n.link != n.target && n.link != n.mkdir
  {
    var f := Fixed(n);
    assert f[0] == n.openClose && f[1] == n.sequential && f[2] == n.chmod && f[3] == n.renameA;
    assert f[4] == n.renameB && f[5] == n.mkdir && f[6] == n.target && f[7] == n.link;
  }

  lemma SmallStaysPlain(dir: map<string, Entry>, n: Names, files: nat, first: seq<Byte>, sequence: seq<Byte>)
    requires SmallPlain(dir, files) && Apart(n)
    ensures var seeded := dir[n.openClose := File(first)][n.sequential := File(sequence)];
            var renamed := seeded[n.chmod := File([])][n.renameA := File([])] - {n.renameB};
            SmallPlain(renamed[n.target := File([])], files)
  {
    hide SmallName;
  }

  /** The calls of the phases before the last one. */
  function FillCalls(c: Counts, files: nat, blocks: nat, blockSize: nat, fsync: bool, iters: nat): Counts {
    SmallCalls(EntryCalls(SequentialCalls(HandleCalls(c, iters), blocks, blockSize, fsync), files), files)
  }

  /** The calls of a whole run. */
  function Tally(c: Counts, files: nat, blocks: nat, blockSize: nat, fsync: bool, iters: nat): Counts {
    var filled := FillCalls(c, files, blocks, blockSize, fsync, iters);
    filled.(unlinks := filled.unlinks + files + 5)
  }

  /** The bytes read stay apart: they are known only when the files are plain. */
  lemma CallsAddUp(c0: Counts, c1: Counts, c2: Counts, c3: Counts, c4: Counts, files: nat, blocks: nat, blockSize: nat, fsync: bool, iters: nat)
    requires c1 == HandleCalls(c0, iters) && c2.(read := 0) == SequentialCalls(c1, blocks, blockSize, fsync).(read := 0)
    requires c3 == EntryCalls(c2, files) && c4.(read := 0) == SmallCalls(c3, files).(read := 0)
    ensures c4.(read := 0) == FillCalls(c0, files, blocks, blockSize, fsync, iters).(read := 0)
    ensures c2.read == c1.read + blocks * blockSize && c4.read == c3.read + files * SMALL ==>
              c4 == FillCalls(c0, files, blocks, blockSize, fsync, iters)
  {
  }

  /** The phases before the last one. */
  method FillPhases(k: Kernel, root: string, n: Names, buf: array<Byte>, files: nat, blocks: nat, fsync: bool, iters: nat)
    returns (exit: Exit, lines: seq<Line>)
    requires k.fds == map[] && SMALL <= buf.Length && files > 0 && Distinct(n) && Apart(n)
    modifies k, buf
    ensures exit.Done? ==>
              && Settled(k, map[], old(k.closed), old(k.serial))
              && lines == HandleLines(iters) + SequentialLines(blocks, buf.Length, fsync) + EntryLines(files) + SmallLines(files)
              && k.counts.(read := 0) == FillCalls(old(k.counts), files, blocks, buf.Length, fsync, iters).(read := 0)
    ensures exit.Done? && OwnPlain(old(k.dir), n, files) ==>
              && n.mkdir !in old(k.dir) && n.link !in old(k.dir)
              && (exists first, sequence, small :: k.dir == Filling(old(k.dir), n, files, first, sequence, small))
              && k.counts == FillCalls(old(k.counts), files, blocks, buf.Length, fsync, iters)
  {
    NamesApart(n);
    ghost var plain := OwnPlain(k.dir, n, files);
    ghost var dir, first, whole := k.dir, buf[..SMALL], buf[..];
    if plain {
      OwnNamesArePlain(k.dir, n, files);
    }
    hide Range, Repeat, WithSmall, SmallPlain, OwnPlain, Distinct, Apart, HandleLines, SequentialLines, EntryLines, SmallLines,
         HandleCalls, SequentialCalls, EntryCalls, SmallCalls, FillCalls;
    exit, lines := HandlePhases(k, root, n.openClose, buf, iters);
    if !exit.Done? {
      return;
    }
    ghost var closed1, serial1, counts1 := k.closed, k.serial, k.counts;
    var more: seq<Line>;
    exit, more := SequentialPhases(k, root, n.sequential, buf, blocks, fsync);
    if !exit.Done? {
      return;
    }
    SettledThen(old(k.closed), closed1, k.closed, old(k.serial), serial1, k.serial);
    lines := lines + more;
    ghost var closed2, serial2, counts2 := k.closed, k.serial, k.counts;
    exit, more := EntryPhases(k, root, n, buf, files);
    if !exit.Done? {
      return;
    }
    SettledThen(old(k.closed), closed2, k.closed, old(k.serial), serial2, k.serial);
    lines := lines + more;
    ghost var closed3, serial3, counts3 := k.closed, k.serial, k.counts;
    if plain {
      SmallStaysPlain(dir, n, files, first, Repeat(whole, blocks));
    }
    ghost var small := buf[..SMALL];
    exit, more := SmallPhases(k, root, buf, files);
    if !exit.Done? {
      return;
    }
    SettledThen(old(k.closed), closed3, k.closed, old(k.serial), serial3, k.serial);
    CallsAddUp(old(k.counts), counts1, counts2, counts3, k.counts, files, blocks, buf.Length, fsync, iters);
    lines := lines + more;
    if plain {
      assert k.dir == Filling(dir, n, files, first, Repeat(whole, blocks), small);
    }
  }

  method EntryPhases(k: Kernel, root: string, n: Names, buf: array<Byte>, files: nat) returns (exit: Exit, lines: seq<Line>)
    requires k.fds == map[] && files > 0 && Distinct(n)
    modifies k
    ensures exit.Done? ==>
              && Settled(k, map[], old(k.closed), old(k.serial))
              && lines == EntryLines(files)
              && k.counts == EntryCalls(old(k.counts), files)
              && (Plain(old(k.dir), n.chmod) && Plain(old(k.dir), n.renameA) && Plain(old(k.dir), n.target) ==>
                    && k.dir == (old(k.dir)[n.chmod := File([])][n.renameA := File([])] - {n.renameB})[n.target := File([])]
                    && n.mkdir !in old(k.dir) && n.link !in old(k.dir))
  {
    NamesApart(n);
    hide Range, Distinct;
    exit, lines := RenamePhases(k, root, n, buf, files);
    if !exit.Done? {
      return;
    }
    ghost var closed, serial := k.closed, k.serial;
    var more: seq<Line>;
    exit, more := LinkPhases(k, root, n, buf, files);
    if !exit.Done? {
      return;
    }
    SettledThen(old(k.closed), closed, k.closed, old(k.serial), serial, k.serial);
    lines := lines + more;
  }

  // ---------- the printed figures and the calls ----------

  /** The operations the report prints for a phase. */
  function OpsOf(report: seq<Line>, phase: Phase): nat {
    if report == [] then 0
    else (if report[0].phase == phase then report[0].ops else 0) + OpsOf(report[1..], phase)
  }

  function BytesOf(report: seq<Line>, phase: Phase): nat {
    if report == [] then 0
    else (if report[0].phase == phase then report[0].bytes else 0) + BytesOf(report[1..], phase)
  }

  /**
   * The printed operations are the calls that were made, and the printed bytes are those that moved; what
   * is not printed is the seeding of eight opened files, one link, and the first file's bytes.
   */
  ghost predicate Reported(report: seq<Line>, before: Counts, after: Counts) {
    && after.opens - before.opens == OpsOf(report, OpenClose) + OpsOf(report, OpenatOnly) + OpsOf(report, CloseOnly)
                                     + OpsOf(report, SmallCreate) + OpsOf(report, SmallRead) + 8
    && after.closes - before.closes == after.opens - before.opens
    && after.stats - before.stats == OpsOf(report, StatSame) + OpsOf(report, SmallStat)
    && after.fstats - before.fstats == OpsOf(report, FstatOnly)
    && after.seeks - before.seeks == OpsOf(report, LseekOnly)
    && after.syncs - before.syncs == OpsOf(report, FsyncOnce)
    && after.chmods - before.chmods == OpsOf(report, ChmodSame)
    && after.renames - before.renames == OpsOf(report, RenamePair)
    && after.mkdirs - before.mkdirs + after.rmdirs - before.rmdirs == OpsOf(report, MkdirRmdirPair)
    && after.readlinks - before.readlinks == OpsOf(report, ReadlinkOnly)
    && after.symlinks - before.symlinks + after.unlinks - before.unlinks
         == OpsOf(report, SymlinkUnlinkPair) + OpsOf(report, UnlinkAll) + 2
    && after.written - before.written == BytesOf(report, WriteOnly) + BytesOf(report, SmallCreate) + SMALL
    && after.read - before.read == BytesOf(report, ReadOnly) + BytesOf(report, SmallRead)
  }

  /** No two lines of the report are for the same phase. */
  lemma {:induction false} OnlyLine(report: seq<Line>, i: nat)
    requires i < |report| && forall j, l :: 0 <= j < l < |report| ==> report[j].phase != report[l].phase
    ensures OpsOf(report, report[i].phase) == report[i].ops && BytesOf(report, report[i].phase) == report[i].bytes
  {
    var rest := report[1..];
    if i == 0 {
      NoLine(rest, report[0].phase);
    } else {
      assert rest[i - 1] == report[i];
      OnlyLine(rest, i - 1);
    }
  }

  lemma {:induction false} NoLine(report: seq<Line>, phase: Phase)
    requires forall j :: 0 <= j < |report| ==> report[j].phase != phase
    ensures OpsOf(report, phase) == 0 && BytesOf(report, phase) == 0
  {
    if report != [] {
      NoLine(report[1..], phase);
    }
  }

  /** Where each phase stands in the report. */
  function Place(phase: Phase, fsync: bool): nat {
    var shift := if fsync then 1 else 0;
    match phase
    case OpenClose => 0
    case OpenatOnly => 1
    case CloseOnly => 2
    case StatSame => 3
    case FstatOnly => 4
    case LseekOnly => 5
    case WriteOnly => 6
    case FsyncOnce => 7
    case ReadOnly => 7 + shift
    case ChmodSame => 8 + shift
    case RenamePair => 9 + shift
    case MkdirRmdirPair => 10 + shift
    case SymlinkUnlinkPair => 11 + shift
    case ReadlinkOnly => 12 + shift
    case SmallCreate => 13 + shift
    case SmallStat => 14 + shift
    case SmallRead => 15 + shift
    case UnlinkAll => 16 + shift
  }

  lemma ReportPlaces(files: nat, blocks: nat, blockSize: nat, fsync: bool, iters: nat)
    ensures var report := ReportOf(files, blocks, blockSize, fsync, iters);
            && |report| == (if fsync then 18 else 17)
            && forall i :: 0 <= i < |report| ==> Place(report[i].phase, fsync) == i && (report[i].phase.FsyncOnce? ==> fsync)
  {
  }

  lemma ReportLine(files: nat, blocks: nat, blockSize: nat, fsync: bool, iters: nat, i: nat)
    requires i < (if fsync then 18 else 17)
    ensures var report := ReportOf(files, blocks, blockSize, fsync, iters);
            && i < |report|
            && OpsOf(report, report[i].phase) == report[i].ops && BytesOf(report, report[i].phase) == report[i].bytes
  {
    ReportPlaces(files, blocks, blockSize, fsync, iters);
    hide ReportOf, OpsOf, BytesOf;
    var report := ReportOf(files, blocks, blockSize, fsync, iters);
    forall j, l | 0 <= j < l < |report|
      ensures report[j].phase != report[l].phase
    {
      assert Place(report[j].phase, fsync) == j && Place(report[l].phase, fsync) == l;
    }
    OnlyLine(report, i);
  }

  lemma OpsInReport(files: nat, blocks: nat, blockSize: nat, fsync: bool, iters: nat)
    ensures var report := ReportOf(files, blocks, blockSize, fsync, iters);
            && OpsOf(report, OpenClose) == iters && OpsOf(report, OpenatOnly) == iters && OpsOf(report, CloseOnly) == iters
            && OpsOf(report, StatSame) == iters && OpsOf(report, FstatOnly) == iters && OpsOf(report, LseekOnly) == iters
  {
    hide OpsOf, BytesOf;
    ReportLine(files, blocks, blockSize, fsync, iters, 0);
    ReportLine(files, blocks, blockSize, fsync, iters, 1);
    ReportLine(files, blocks, blockSize, fsync, iters, 2);
    ReportLine(files, blocks, blockSize, fsync, iters, 3);
    ReportLine(files, blocks, blockSize, fsync, iters, 4);
    ReportLine(files, blocks, blockSize, fsync, iters, 5);
  }

  lemma SequenceInReport(files: nat, blocks: nat, blockSize: nat, fsync: bool, iters: nat)
    ensures var report := ReportOf(files, blocks, blockSize, fsync, iters);
            && BytesOf(report, WriteOnly) == blocks * blockSize && BytesOf(report, ReadOnly) == blocks * blockSize
            && OpsOf(report, FsyncOnce) == if fsync then 1 else 0
  {
    var shift := if fsync then 1 else 0;
    ReportPlaces(files, blocks, blockSize, fsync, iters);
    ReportLine(files, blocks, blockSize, fsync, iters, 6);
    ReportLine(files, blocks, blockSize, fsync, iters, 7);
    ReportLine(files, blocks, blockSize, fsync, iters, 7 + shift);
    if !fsync {
      hide ReportOf, OpsOf;
      NoLine(ReportOf(files, blocks, blockSize, fsync, iters), FsyncOnce);
    }
    hide OpsOf, BytesOf;
  }

  lemma EntriesInReport(files: nat, blocks: nat, blockSize: nat, fsync: bool, iters: nat)
    ensures var report := ReportOf(files, blocks, blockSize, fsync, iters);
            && OpsOf(report, ChmodSame) == files && OpsOf(report, RenamePair) == files * 2
            && OpsOf(report, MkdirRmdirPair) == files * 2 && OpsOf(report, SymlinkUnlinkPair) == files * 2
            && OpsOf(report, ReadlinkOnly) == files
  {
    hide OpsOf, BytesOf;
    var shift := if fsync then 1 else 0;
    ReportLine(files, blocks, blockSize, fsync, iters, 8 + shift);
    ReportLine(files, blocks, blockSize, fsync, iters, 9 + shift);
    ReportLine(files, blocks, blockSize, fsync, iters, 10 + shift);
    ReportLine(files, blocks, blockSize, fsync, iters, 11 + shift);
    ReportLine(files, blocks, blockSize, fsync, iters, 12 + shift);
  }

  lemma SmallInReport(files: nat, blocks: nat, blockSize: nat, fsync: bool, iters: nat)
    ensures var report := ReportOf(files, blocks, blockSize, fsync, iters);
            && OpsOf(report, SmallCreate) == files && OpsOf(report, SmallStat) == files && OpsOf(report, SmallRead) == files
            && BytesOf(report, SmallCreate) == files * SMALL && BytesOf(report, SmallRead) == files * SMALL
            && OpsOf(report, UnlinkAll) == files + 5
  {
    hide OpsOf, BytesOf;
    var shift := if fsync then 1 else 0;
    ReportLine(files, blocks, blockSize, fsync, iters, 13 + shift);
    ReportLine(files, blocks, blockSize, fsync, iters, 14 + shift);
    ReportLine(files, blocks, blockSize, fsync, iters, 15 + shift);
    ReportLine(files, blocks, blockSize, fsync, iters, 16 + shift);
  }

  /** The figures of a whole report are the calls of a whole run. */
  lemma ReportIsTally(c: Counts, files: nat, blocks: nat, blockSize: nat, fsync: bool, iters: nat)
    ensures Reported(ReportOf(files, blocks, blockSize, fsync, iters), c, Tally(c, files, blocks, blockSize, fsync, iters))
  {
    hide ReportOf, OpsOf, BytesOf;
    OpsInReport(files, blocks, blockSize, fsync, iters);
    SequenceInReport(files, blocks, blockSize, fsync, iters);
    EntriesInReport(files, blocks, blockSize, fsync, iters);
    SmallInReport(files, blocks, blockSize, fsync, iters);
  }

  /** The last phase. */
  method UnlinkPhase(k: Kernel, root: string, n: Names, files: nat) returns (exit: Exit)
    requires k.fds == map[]
    modifies k`dir, k`counts
    ensures exit.Done? ==>
              && k.dir == old(k.dir) - SmallNames(files) - {n.sequential, n.openClose, n.chmod, n.renameA, n.target}
              && k.counts == old(k.counts).(unlinks := old(k.counts.unlinks) + files + 5)
  {
    hide SmallNames;
    exit := UnlinkSmallLoop(k, root, files);
    if exit.Done? {
      exit := UnlinkFixed(k, n);
    }
  }

  lemma EmptiedAgain(dir: map<string, Entry>, full: map<string, Entry>, n: Names, files: nat)
    requires Distinct(n) && n.mkdir !in dir && n.link !in dir
    requires exists first, sequence, small :: full == Filling(dir, n, files, first, sequence, small)
    ensures full - SmallNames(files) - {n.sequential, n.openClose, n.chmod, n.renameA, n.target} == dir - Own(n, files)
  {
    hide Filling, Distinct, SmallNames, Own;
    var first, sequence, small :| full == Filling(dir, n, files, first, sequence, small);
    NothingLeft(dir, n, files, first, sequence, small);
  }

  /** All phases, with the arguments in range. */
  method WholeRun(k: Kernel, root: string, n: Names, buf: array<Byte>, files: nat, blocks: nat, fsync: bool, iters: nat)
    returns (exit: Exit, report: seq<Line>)
    requires k.fds == map[] && SMALL <= buf.Length && files > 0 && Distinct(n) && Apart(n)
    modifies k, buf
    ensures exit.Done? ==>
              && Settled(k, map[], old(k.closed), old(k.serial))
              && report == ReportOf(files, blocks, buf.Length, fsync, iters)
              && k.counts.(read := 0) == Tally(old(k.counts), files, blocks, buf.Length, fsync, iters).(read := 0)
    ensures exit.Done? && OwnPlain(old(k.dir), n, files) ==>
              && k.dir == old(k.dir) - Own(n, files)
              && k.counts == Tally(old(k.counts), files, blocks, buf.Length, fsync, iters)
  {
    hide Range, OwnPlain, Distinct, Apart, HandleLines, SequentialLines, EntryLines, SmallLines, SmallNames, Own, Filling, FillCalls;
    exit, report := FillPhases(k, root, n, buf, files, blocks, fsync, iters);
    if !exit.Done? {
      return;
    }
    ghost var full := k.dir;
    exit := UnlinkPhase(k, root, n, files);
    if !exit.Done? {
      return;
    }
    report := report + [Line(UnlinkAll, files + 5, 0)];
    if OwnPlain(old(k.dir), n, files) {
      EmptiedAgain(old(k.dir), full, n, files);
    }
  }

  /** `main`: 0 after a whole run, 1 when a call failed, 2 when the arguments or a path are refused. */
  method Benchmark(k: Kernel, root: string, files: int, blocks: int, blockSize: int, fsync: bool, iters: int)
    returns (code: int, report: seq<Line>)
    requires k.fds == map[]
    requires blockSize > 0 ==> blockSize >= SMALL
    modifies k
    ensures files <= 0 || blocks <= 0 || blockSize <= 0 || blockSize > 1048576 || iters <= 0 ==> code == 2
    ensures code == 0 ==>
              && files > 0 && blocks > 0 && blockSize > 0 && iters > 0
              && Settled(k, map[], old(k.closed), old(k.serial))
              && report == ReportOf(files, blocks, blockSize, fsync, iters)
              && k.counts.(read := 0) == Tally(old(k.counts), files, blocks, blockSize, fsync, iters).(read := 0)
    ensures code == 0 && OwnPlain(old(k.dir), NAMES, files) ==>
              && k.dir == old(k.dir) - Own(NAMES, files)
              && k.counts == Tally(old(k.counts), files, blocks, blockSize, fsync, iters)
              && Reported(report, old(k.counts), k.counts)
  {
    report := [];
    if files <= 0 || blocks <= 0 || blockSize <= 0 || blockSize > 1048576 || iters <= 0 {
      return 2, report;
    }
    FixedNamesDiffer();
    FixedNamesAreNotSmall();
    hide Range, OwnPlain, Distinct, Apart, ReportOf, Own, Tally, Reported;
    ReportIsTally(k.counts, files, blocks, blockSize, fsync, iters);
    var buf := new Byte[blockSize];
    var exit;
    exit, report := WholeRun(k, root, NAMES, buf, files, blocks, fsync, iters);
    code := match exit case Done => 0 case Died => 1 case Refused => 2;
  }
}

/**
 * The part of a kernel the file benchmark talks to: one directory, a descriptor
 * table, and what the calls did. Any call may fail, transfers may be partial.
 */
module FileKernel {
  import opened Options

  type Byte = bv8

  datatype Entry = File(data: seq<Byte>) | Directory | Link(target: string)

  /** An open file: the how-manieth opening it is, the name it was opened by, and where it stands. */
  datatype Descriptor = Descriptor(serial: nat, name: string, offset: nat, writable: bool)

  /** How often each call succeeded, and how many bytes the transfers moved. */
  datatype Counts = Counts(
    opens: nat, closes: nat, stats: nat, fstats: nat, seeks: nat, syncs: nat, written: nat, read: nat,
    chmods: nat, renames: nat, mkdirs: nat, rmdirs: nat, symlinks: nat, readlinks: nat, unlinks: nat)

  /** Bytes put into a file at an offset; a gap before them reads as zeros. */
  function WriteAt(data: seq<Byte>, offset: nat, bytes: seq<Byte>): (r: seq<Byte>)
    ensures offset == |data| ==> r == data + bytes
  {
    var padded := if offset <= |data| then data else data + seq(offset - |data|, _ => 0 as Byte);
    padded[..offset] + bytes + (if offset + |bytes| <= |padded| then padded[offset + |bytes|..] else [])
  }

  /** The entry an opening call ends at: links are followed once. */
  function Resolve(dir: map<string, Entry>, name: string): Option<string> {
    if name in dir && dir[name].Link? then
      var target := dir[name].target;
      if target in dir && dir[target].Link? then None else Some(target)
    else Some(name)
  }

  predicate IsFile(dir: map<string, Entry>, name: string) {
    name in dir && dir[name].File?
  }

  /** The directory after bytes went into the file a descriptor is open on. */
  function Wrote(dir: map<string, Entry>, d: Descriptor, bytes: seq<Byte>): map<string, Entry>
    requires IsFile(dir, d.name)
  {
    if bytes == [] then dir else dir[d.name := File(WriteAt(dir[d.name].data, d.offset, bytes))]
  }

  /** The table after a descriptor moved on. */
  function Advanced(fds: map<int, Descriptor>, fd: int, n: nat): map<int, Descriptor>
    requires fd in fds
  {
    fds[fd := fds[fd].(offset := fds[fd].offset + n)]
  }

  class Kernel {
    var dir: map<string, Entry>
    var fds: map<int, Descriptor>
    var serial: nat
    ghost var closed: seq<nat>
    ghost var counts: Counts

    /** A descriptor is open on a file. */
    ghost predicate OpenOn(fd: int)
      reads this
    {
      fd in fds && IsFile(dir, fds[fd].name)
    }

    /** No descriptor is open on the name. */
    ghost predicate Idle(name: string)
      reads this
    {
      forall fd :: fd in fds ==> fds[fd].name != name
    }

    method NewDescriptor(name: string, writable: bool) returns (fd: int)
      modifies this`fds, this`serial, this`counts
      ensures fd >= 0 && fd !in old(fds)
      ensures fds == old(fds)[fd := Descriptor(old(serial), name, 0, writable)]
      ensures serial == old(serial) + 1
      ensures counts == old(counts).(opens := old(counts.opens) + 1)
    {
      fd := 0;
      ghost var seen: set<int> := {};
      while fd in fds
        invariant fd >= 0 && forall k :: k in seen <==> 0 <= k < fd
        invariant seen <= fds.Keys
        decreases fds.Keys - seen
      {
        seen := seen + {fd};
        fd := fd + 1;
      }
      fds := fds[fd := Descriptor(serial, name, 0, writable)];
      serial := serial + 1;
      counts := counts.(opens := counts.opens + 1);
    }

    /** `open` with O_CREAT, O_TRUNC and O_WRONLY. */
    method OpenCreate(name: string) returns (fd: int)
      modifies this`dir, this`fds, this`serial, this`counts
      ensures fd < 0 ==> dir == old(dir) && fds == old(fds) && serial == old(serial) && counts == old(counts)
      ensures fd >= 0 ==>
                var target := Resolve(old(dir), name);
                && target.Some?
                && dir == old(dir)[target.value := File([])]
                && fd !in old(fds)
                && fds == old(fds)[fd := Descriptor(old(serial), target.value, 0, true)]
                && serial == old(serial) + 1
                && counts == old(counts).(opens := old(counts.opens) + 1)
    {
      var works: bool := *;
      var target := Resolve(dir, name);
      if !works || target.None? || (target.value in dir && dir[target.value].Directory?) {
        return -1;
      }
      dir := dir[target.value := File([])];
      fd := NewDescriptor(target.value, true);
    }

    /** `open` with O_RDONLY, of a file. */
    method OpenRead(name: string) returns (fd: int)
      modifies this`fds, this`serial, this`counts
      ensures fd < 0 ==> fds == old(fds) && serial == old(serial) && counts == old(counts)
      ensures fd >= 0 ==>
                var target := Resolve(dir, name);
                && target.Some? && IsFile(dir, target.value)
                && fd !in old(fds)
                && fds == old(fds)[fd := Descriptor(old(serial), target.value, 0, false)]
                && serial == old(serial) + 1
                && counts == old(counts).(opens := old(counts.opens) + 1)
    {
      var works: bool := *;
      var target := Resolve(dir, name);
      if !works || target.None? || !IsFile(dir, target.value) {
        return -1;
      }
      fd := NewDescriptor(target.value, false);
    }

    method Close(fd: int) returns (ok: bool)
      modifies this`fds, this`closed, this`counts
      ensures !ok ==> fds == old(fds) && closed == old(closed) && counts == old(counts)
      ensures ok ==>
                && fd in old(fds)
                && fds == old(fds) - {fd}
                && closed == old(closed) + [old(fds)[fd].serial]
                && counts == old(counts).(closes := old(counts.closes) + 1)
    {
      var works: bool := *;
      if !works || fd !in fds {
        return false;
      }
      closed := closed + [fds[fd].serial];
      fds := fds - {fd};
      counts := counts.(closes := counts.closes + 1);
      ok := true;
    }

    /** `write`: at least one byte of a non-empty buffer, or an error. */
    method Write(fd: int, bytes: seq<Byte>) returns (n: int)
      requires bytes != []
      modifies this`dir, this`fds, this`counts
      ensures n < 0 ==> dir == old(dir) && fds == old(fds) && counts == old(counts)
      ensures n >= 0 ==>
                && 1 <= n <= |bytes|
                && old(OpenOn(fd))
                && dir == Wrote(old(dir), old(fds)[fd], bytes[..n])
                && fds == Advanced(old(fds), fd, n)
                   && counts == old(counts).(written := old(counts.written) + n)
    {
      var works: bool := *;
      if !works || fd !in fds || !fds[fd].writable || !IsFile(dir, fds[fd].name) {
        return -1;
      }
      n :| 1 <= n <= |bytes|;
      var d := fds[fd];
      dir := dir[d.name := File(WriteAt(dir[d.name].data, d.offset, bytes[..n]))];
      fds := fds[fd := d.(offset := d.offset + n)];
      counts := counts.(written := counts.written + n);
    }

    /** `read`: nothing exactly at the end of the file, otherwise at least one byte, or an error. */
    method Read(fd: int, len: nat) returns (n: int, bytes: seq<Byte>)
      requires len > 0
      modifies this`fds, this`counts
      ensures n < 0 ==> fds == old(fds) && counts == old(counts)
      ensures n >= 0 ==>
                && old(OpenOn(fd))
                && n <= len && |bytes| == n
                && fds == Advanced(old(fds), fd, n)
                && var d := old(fds)[fd];
                   var data := old(dir)[d.name].data;
                   && (n == 0 <==> |data| <= d.offset)
                   && (n > 0 ==> d.offset + n <= |data| && bytes == data[d.offset..d.offset + n])
                   && counts == old(counts).(read := old(counts.read) + n)
    {
      bytes := [];
      var works: bool := *;
      if !works || fd !in fds || !IsFile(dir, fds[fd].name) {
        return -1, [];
      }
      var d := fds[fd];
      var data := dir[d.name].data;
      n := 0;
      if d.offset < |data| {
        n :| 1 <= n <= len && d.offset + n <= |data|;
        bytes := data[d.offset..d.offset + n];
      }
      fds := fds[fd := d.(offset := d.offset + n)];
      counts := counts.(read := counts.read + n);
    }

    method Stat(name: string) returns (ok: bool)
      modifies this`counts
      ensures ok ==> name in dir
      ensures counts == if ok then old(counts).(stats := old(counts.stats) + 1) else old(counts)
    {
      var works: bool := *;
      ok := works && name in dir;
      if ok {
        counts := counts.(stats := counts.stats + 1);
      }
    }

    method Fstat(fd: int) returns (ok: bool)
      modifies this`counts
      ensures counts == if ok then old(counts).(fstats := old(counts.fstats) + 1) else old(counts)
    {
      var works: bool := *;
      ok := works && fd in fds;
      if ok {
        counts := counts.(fstats := counts.fstats + 1);
      }
    }

    /** `lseek(fd, 0, SEEK_SET)` */
    method Rewind(fd: int) returns (ok: bool)
      modifies this`fds, this`counts
      ensures !ok ==> fds == old(fds) && counts == old(counts)
      ensures ok ==>
                && fd in old(fds)
                && fds == old(fds)[fd := old(fds)[fd].(offset := 0)]
                && counts == old(counts).(seeks := old(counts.seeks) + 1)
    {
      var works: bool := *;
      ok := works && fd in fds;
      if ok {
        fds := fds[fd := fds[fd].(offset := 0)];
        counts := counts.(seeks := counts.seeks + 1);
      }
    }

    method Fsync(fd: int) returns (ok: bool)
      modifies this`counts
      ensures counts == if ok then old(counts).(syncs := old(counts.syncs) + 1) else old(counts)
    {
      var works: bool := *;
      ok := works && fd in fds;
      if ok {
        counts := counts.(syncs := counts.syncs + 1);
      }
    }

    method Chmod(name: string) returns (ok: bool)
      modifies this`counts
      ensures counts == if ok then old(counts).(chmods := old(counts.chmods) + 1) else old(counts)
    {
      var works: bool := *;
      ok := works && name in dir;
      if ok {
        counts := counts.(chmods := counts.chmods + 1);
      }
    }

    /** `rename` of a name no descriptor is open on, onto a name that is free or not a directory. */
    method Rename(from: string, to: string) returns (ok: bool)
      requires from != to && Idle(from) && Idle(to)
      modifies this`dir, this`counts
      ensures !ok ==> dir == old(dir) && counts == old(counts)
      ensures ok ==>
                && from in old(dir)
                && dir == (old(dir) - {from})[to := old(dir)[from]]
                && counts == old(counts).(renames := old(counts.renames) + 1)
    {
      var works: bool := *;
      ok := works && from in dir && !(to in dir && dir[to].Directory?);
      if ok {
        dir := (dir - {from})[to := dir[from]];
        counts := counts.(renames := counts.renames + 1);
      }
    }

    method Mkdir(name: string) returns (ok: bool)
      modifies this`dir, this`counts
      ensures !ok ==> dir == old(dir) && counts == old(counts)
      ensures ok ==>
                && name !in old(dir)
                && dir == old(dir)[name := Directory]
                && counts == old(counts).(mkdirs := old(counts.mkdirs) + 1)
    {
      var works: bool := *;
      ok := works && name !in dir;
      if ok {
        dir := dir[name := Directory];
        counts := counts.(mkdirs := counts.mkdirs + 1);
      }
    }

    method Rmdir(name: string) returns (ok: bool)
      requires Idle(name)
      modifies this`dir, this`counts
      ensures !ok ==> dir == old(dir) && counts == old(counts)
      ensures ok ==>
                && name in old(dir) && old(dir)[name].Directory?
                && dir == old(dir) - {name}
                && counts == old(counts).(rmdirs := old(counts.rmdirs) + 1)
    {
      var works: bool := *;
      ok := works && name in dir && dir[name].Directory?;
      if ok {
        dir := dir - {name};
        counts := counts.(rmdirs := counts.rmdirs + 1);
      }
    }

    method Symlink(target: string, name: string) returns (ok: bool)
      modifies this`dir, this`counts
      ensures !ok ==> dir == old(dir) && counts == old(counts)
      ensures ok ==>
                && name !in old(dir)
                && dir == old(dir)[name := Link(target)]
                && counts == old(counts).(symlinks := old(counts.symlinks) + 1)
    {
      var works: bool := *;
      ok := works && name !in dir;
      if ok {
        dir := dir[name := Link(target)];
        counts := counts.(symlinks := counts.symlinks + 1);
      }
    }

    method Readlink(name: string) returns (ok: bool)
      modifies this`counts
      ensures counts == if ok then old(counts).(readlinks := old(counts.readlinks) + 1) else old(counts)
    {
      var works: bool := *;
      ok := works && name in dir && dir[name].Link?;
      if ok {
        counts := counts.(readlinks := counts.readlinks + 1);
      }
    }

    /** `unlink` of a name no descriptor is open on. */
    method Unlink(name: string) returns (ok: bool)
      requires Idle(name)
      modifies this`dir, this`counts
      ensures !ok ==> dir == old(dir) && counts == old(counts)
      ensures ok ==>
                && name in old(dir) && !old(dir)[name].Directory?
                && dir == old(dir) - {name}
                && counts == old(counts).(unlinks := old(counts.unlinks) + 1)
    {
      var works: bool := *;
      ok := works && name in dir && !dir[name].Directory?;
      if ok {
        dir := dir - {name};
        counts := counts.(unlinks := counts.unlinks + 1);
      }
    }
  }
}

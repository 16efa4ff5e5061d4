/** `atomic_json`: replacing a file so that a crash at any moment leaves the old or the new content.

    A crash loses what was not forced to disk: a file's content counts only as far as it was synced
    (anything may be found otherwise), and a name may still have the binding it had when the
    directory was last synced. */
module AtomicFile {
  import opened Wrappers

  type Inode = nat

  /** `content` and `names` are what running programs see; `synced` and `durable` survive a crash. */
  datatype Disk = Disk(
    content: map<Inode, string>, synced: map<Inode, string>,
    names: map<string, Inode>, durable: map<string, Inode>)

  function Lookup<K(==), V>(m: map<K, V>, k: K): Option<V> {
    if k in m then Some(m[k]) else None
  }

  /** What a program reads from `name`. */
  function Live(d: Disk, name: string): Option<string> {
    if name in d.names then Lookup(d.content, d.names[name]) else None
  }

  /** `found` may be read through `binding` after a crash in state `d`. */
  ghost predicate MayFind(d: Disk, binding: Option<Inode>, found: Option<string>) {
    match binding
    case None => found == None
    case Some(inode) => inode in d.synced ==> found == Some(d.synced[inode])
  }

  /** `found` may be read from `name` after a crash in state `d`. */
  ghost predicate CrashMayRead(d: Disk, name: string, found: Option<string>) {
    MayFind(d, Lookup(d.durable, name), found) || MayFind(d, Lookup(d.names, name), found)
  }

  /** After a crash at this moment the file holds one of these values, whole. */
  ghost predicate CrashSafe(d: Disk, name: string, values: set<Option<string>>) {
    forall found | CrashMayRead(d, name, found) :: found in values
  }

  /** The file holds `value` now and after any crash. */
  ghost predicate Settled(d: Disk, name: string, value: Option<string>) {
    Live(d, name) == value && CrashSafe(d, name, {value})
  }

  /** At every moment of the trace the file reads as before or as `value`, and never as before again;
      and a crash leaves what could be found before, or `value`. */
  ghost predicate Atomic(
    trace: seq<Disk>, name: string, before: Option<string>, found: set<Option<string>>, value: string)
  {
    && |trace| > 0
    && (forall i | 0 <= i < |trace| ::
          && (Live(trace[i], name) == before || Live(trace[i], name) == Some(value))
          && CrashSafe(trace[i], name, found + {Some(value)}))
    && (forall i, j | 0 <= i < j < |trace| && Live(trace[i], name) != before ::
          Live(trace[j], name) == Live(trace[i], name))
  }

  /** `inode` is one that nothing on the disk refers to. */
  ghost predicate Unused(d: Disk, inode: Inode) {
    && inode !in d.content && inode !in d.synced
    && (forall n | n in d.names :: d.names[n] != inode)
    && (forall n | n in d.durable :: d.durable[n] != inode)
  }

  /** Apart from the file `inode` and names other than `name`, nothing has changed since `d`. */
  ghost predicate Untouched(now: Disk, d: Disk, name: string, inode: Inode) {
    && Lookup(now.names, name) == Lookup(d.names, name)
    && now.durable == d.durable
    && (forall b | b != inode :: Lookup(now.content, b) == Lookup(d.content, b))
    && (forall b | b != inode :: Lookup(now.synced, b) == Lookup(d.synced, b))
  }

  lemma UntouchedReadsSame(now: Disk, d: Disk, name: string, inode: Inode, found: Option<string>)
    requires Untouched(now, d, name, inode) && Unused(d, inode)
    ensures Live(now, name) == Live(d, name)
    ensures CrashMayRead(now, name, found) <==> CrashMayRead(d, name, found)
  {
    if name in d.names {
      assert Lookup(now.synced, d.names[name]) == Lookup(d.synced, d.names[name]);
    }
    if name in d.durable {
      assert Lookup(now.synced, d.durable[name]) == Lookup(d.synced, d.durable[name]);
    }
  }

  /** A step before the rename. */
  lemma UntouchedIsOld(
    trace: seq<Disk>, now: Disk, d: Disk, name: string, inode: Inode, found: set<Option<string>>, value: string)
    requires Untouched(now, d, name, inode) && Unused(d, inode) && CrashSafe(d, name, found)
    requires Atomic(trace, name, Live(d, name), found, value) && Live(trace[|trace| - 1], name) == Live(d, name)
    ensures Live(now, name) == Live(d, name) && CrashSafe(now, name, found)
    ensures Atomic(trace + [now], name, Live(d, name), found, value)
  {
    UntouchedReadsSame(now, d, name, inode, None);
    forall x | CrashMayRead(now, name, x) ensures x in found {
      UntouchedReadsSame(now, d, name, inode, x);
    }
  }

  /** The rename, or a step after it. */
  lemma ReplacedIsNew(
    trace: seq<Disk>, now: Disk, name: string, inode: Inode, before: Option<string>, found: set<Option<string>>,
    value: string)
    requires Atomic(trace, name, before, found, value)
    requires Lookup(now.names, name) == Some(inode)
    requires Lookup(now.content, inode) == Some(value) == Lookup(now.synced, inode)
    requires forall x | MayFind(now, Lookup(now.durable, name), x) :: x in found + {Some(value)}
    ensures Live(now, name) == Some(value) && Atomic(trace + [now], name, before, found, value)
  {
  }

  /** What a crash may leave of a file once a new value was to be put into it. */
  function FoundAfter<T(==)>(found: set<Option<T>>, value: T, replaced: bool, synced: bool): set<Option<T>> {
    if synced then {Some(value)} else if replaced then found + {Some(value)} else found
  }

  /** The calls up to the rename succeed. */
  predicate Replaced(fails: nat -> bool) {
    !fails(0) && !fails(1) && !fails(2) && !fails(3)
  }

  /** So do those that sync the directory. */
  predicate Succeeds(fails: nat -> bool) {
    Replaced(fails) && !fails(4) && !fails(5)
  }

  /** Creating, writing and syncing the temporary file. */
  method Stage(
    d: Disk, file: string, value: string, temporary: string, inode: Inode, fails: nat -> bool,
    ghost found: set<Option<string>>)
    returns (trace: seq<Disk>, now: Disk, staged: bool)
    requires CrashSafe(d, file, found) && Unused(d, inode)
    requires temporary != file && temporary !in d.names && temporary !in d.durable
    ensures Atomic(trace, file, Live(d, file), found, value) && trace[|trace| - 1] == now
    ensures Live(now, file) == Live(d, file) && Untouched(now, d, file, inode)
    ensures now.names == d.names[temporary := inode]
    ensures staged <==> !fails(1) && !fails(2)
    ensures staged ==> Lookup(now.content, inode) == Some(value) == Lookup(now.synced, inode)
  {
    trace := [d];
    now := d.(names := d.names[temporary := inode], content := d.content[inode := ""]);
    UntouchedIsOld(trace, now, d, file, inode, found, value);
    trace := trace + [now];
    staged := !fails(1) && !fails(2);
    if !fails(1) {  // write
      now := now.(content := now.content[inode := value]);
      UntouchedIsOld(trace, now, d, file, inode, found, value);
      trace := trace + [now];
    }
    if staged {  // fsync
      now := now.(synced := now.synced[inode := value]);
      UntouchedIsOld(trace, now, d, file, inode, found, value);
      trace := trace + [now];
    }
  }

  /** Opening and syncing the directory after the rename. */
  method SyncDirectory(
    done: seq<Disk>, now: Disk, file: string, inode: Inode, value: string, works: bool,
    ghost before: Option<string>, ghost found: set<Option<string>>)
    returns (trace: seq<Disk>, ok: bool)
    requires Atomic(done, file, before, found, value) && done[|done| - 1] == now && Live(now, file) == Some(value)
    requires Lookup(now.names, file) == Some(inode)
    requires Lookup(now.content, inode) == Some(value) == Lookup(now.synced, inode)
    ensures Atomic(trace, file, before, found, value) && ok == works
    ensures trace[|trace| - 1].names == now.names && Live(trace[|trace| - 1], file) == Some(value)
    ensures ok ==> Settled(trace[|trace| - 1], file, Some(value))
  {
    trace, ok := done, works;
    if works {
      var synced := now.(durable := now.names);
      ReplacedIsNew(trace, synced, file, inode, before, found, value);
      trace := trace + [synced];
    }
  }

  /** `atomic_json`.  `fails(k)` says whether the k-th system call raises; `trace` holds the disk after
      every system call, so it lists all the moments at which the process could crash.  `found` is what a
      crash could have left before.
      On success the new value is there for good.  On an error the old value is still read, and a crash
      leaves no more than it could before, unless the rename had already happened and only syncing the
      directory failed: then a crash may leave either. */
  method AtomicWrite(
    d: Disk, file: string, value: string, temporary: string, inode: Inode, fails: nat -> bool,
    ghost found: set<Option<string>>)
    returns (trace: seq<Disk>, ok: bool)
    requires CrashSafe(d, file, found) && Unused(d, inode)
    requires temporary != file && temporary !in d.names && temporary !in d.durable
    ensures Atomic(trace, file, Live(d, file), found, value)
    ensures Live(trace[|trace| - 1], file) == if Replaced(fails) then Some(value) else Live(d, file)
    ensures CrashSafe(trace[|trace| - 1], file, FoundAfter(found, value, Replaced(fails), ok))
    ensures ok <==> Succeeds(fails)
    ensures temporary in trace[|trace| - 1].names ==> !ok && fails(6)
  {
    if fails(0) {  // mkstemp
      return [d], false;
    }
    var now;
    trace, now, ok := Stage(d, file, value, temporary, inode, fails, found);
    UntouchedIsOld(trace, now, d, file, inode, found, value);
    if ok && !fails(3) {  // replace, after which no temporary file is left
      now := now.(names := (now.names - {temporary})[file := inode]);
      RenameKeepsDurable(now, d, file, inode, found);
      ReplacedIsNew(trace, now, file, inode, Live(d, file), found, value);
      trace, ok := SyncDirectory(trace + [now], now, file, inode, value, !fails(4) && !fails(5), Live(d, file), found);
      return;
    }
    ok := false;
    if !fails(6) {  // unlink what is left over
      now := now.(names := now.names - {temporary});
      UntouchedIsOld(trace, now, d, file, inode, found, value);
      trace := trace + [now];
    }
  }

  lemma RenameKeepsDurable(now: Disk, d: Disk, name: string, inode: Inode, found: set<Option<string>>)
    requires CrashSafe(d, name, found) && Unused(d, inode) && now.durable == d.durable
    requires forall b | b != inode :: Lookup(now.synced, b) == Lookup(d.synced, b)
    ensures forall x | MayFind(now, Lookup(now.durable, name), x) :: x in found
  {
    forall x | MayFind(now, Lookup(now.durable, name), x) ensures x in found {
      if name in d.durable {
        assert Lookup(now.synced, d.durable[name]) == Lookup(d.synced, d.durable[name]);
      }
      assert CrashMayRead(d, name, x);
    }
  }
}

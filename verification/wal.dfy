/** The write-ahead log (internal/writeaheadlog/wal.go). */
module WriteAheadLogs {
  import opened Basics

  type Name = string

  /** What an append leaves in a file: the entry, or, when it is cut short, bytes that do not parse. */
  datatype Record<T> = Whole(entry: T) | Torn

  /** How the write of an append goes: synced, complete but not synced, cut short, or not begun. */
  datatype Write = Complete | Unsynced | Cut | Nothing

  /** How the file system answers during an append or a close. */
  datatype Io = Io(stat: bool, sync: bool, close: bool, write: Write)

  type Directory<T> = map<Name, seq<Record<T>>>

  datatype LogStat = LogStat(name: Name, maxEpoch: nat)

  /** The directory, the closed files with their recorded epochs, the file being written, and whether
      its handle can still be used. */
  datatype Wal<T> = Wal(dir: Directory<T>, files: seq<LogStat>, active: Option<LogStat>, open: bool)

  /** The entries before the first one that does not parse. */
  function Readable<T>(file: seq<Record<T>>): seq<T> {
    if file == [] || file[0].Torn? then [] else [file[0].entry] + Readable(file[1..])
  }

  function Max(a: nat, b: nat): nat {
    if a < b then b else a
  }

  function MaxEpoch<T>(epoch: T -> nat, entries: seq<T>): nat {
    if entries == [] then 0 else Max(MaxEpoch(epoch, entries[..|entries| - 1]), epoch(entries[|entries| - 1]))
  }

  /** Reading the directory finds the entry. */
  ghost predicate Logged<T>(dir: Directory<T>, e: T) {
    exists n :: n in dir && e in Readable(dir[n])
  }

  ghost predicate AllWhole<T>(file: seq<Record<T>>) {
    forall i :: 0 <= i < |file| ==> file[i].Whole?
  }

  lemma {:induction false} MaxEpochBounds<T>(epoch: T -> nat, entries: seq<T>)
    ensures forall e :: e in entries ==> epoch(e) <= MaxEpoch(epoch, entries)
  {
    if entries != [] {
      var n := |entries| - 1;
      MaxEpochBounds(epoch, entries[..n]);
      assert entries == entries[..n] + [entries[n]];
    }
  }

  lemma {:induction false} ReadableWhole<T>(file: seq<Record<T>>)
    requires AllWhole(file)
    ensures |Readable(file)| == |file| && forall i :: 0 <= i < |file| ==> Readable(file)[i] == file[i].entry
  {
    if file != [] {
      ReadableWhole(file[1..]);
      assert forall i :: 0 < i < |file| ==> file[i] == file[1..][i - 1];
    }
  }

  /** An appended entry can be read if and only if it is whole and no earlier record is cut short. */
  lemma {:induction false} ReadableAppend<T>(file: seq<Record<T>>, r: Record<T>)
    ensures Readable(file + [r]) == Readable(file) + (if AllWhole(file) && r.Whole? then [r.entry] else [])
  {
    if file == [] {
      assert (file + [r])[1..] == [];
    } else if file[0].Whole? {
      assert AllWhole(file) <==> AllWhole(file[1..]) by {
        assert forall i :: 0 < i < |file| ==> file[i] == file[1..][i - 1];
      }
      ReadableAppend(file[1..], r);
      assert (file + [r])[1..] == file[1..] + [r];
    }
  }

  lemma {:induction false} ReadableCut<T>(file: seq<Record<T>>, i: nat)
    requires i <= |file| && AllWhole(file[..i]) && (i < |file| ==> file[i].Torn?)
    ensures Readable(file) == Readable(file[..i])
  {
    if i > 0 {
      ReadableCut(file[1..], i - 1);
      assert file[1..][..i - 1] == file[..i][1..];
      assert file[..i][0] == file[0];
    }
  }

  function Names(stats: seq<LogStat>): set<Name> {
    set s | s in stats :: s.name
  }

  ghost predicate DistinctNames(stats: seq<LogStat>) {
    forall i, j :: 0 <= i < j < |stats| ==> stats[i].name != stats[j].name
  }

  /** Every listed file exists and is listed once, and the active file is another one. */
  ghost predicate Listing<T>(dir: Directory<T>, files: seq<LogStat>, active: Option<LogStat>) {
    && DistinctNames(files) && Names(files) <= dir.Keys
    && (active.Some? ==> active.value.name in dir && active.value.name !in Names(files))
  }

  function Stats(files: seq<LogStat>, active: Option<LogStat>): set<LogStat> {
    (set s | s in files) + (if active.Some? then {active.value} else {})
  }

  /** Reading the listed files finds the entry. */
  ghost predicate Found<T>(dir: Directory<T>, stats: set<LogStat>, e: T) {
    exists s :: s in stats && s.name in dir && e in Readable(dir[s.name])
  }

  /** The entries of the given files, one after the other. */
  function Entries<T>(dir: Directory<T>, stats: seq<LogStat>): seq<T>
    requires Names(stats) <= dir.Keys
  {
    if stats == [] then []
    else
      var n := |stats| - 1;
      NamesInit(stats);
      Entries(dir, stats[..n]) + Readable(dir[stats[n].name])
  }

  lemma NamesInit(stats: seq<LogStat>)
    requires stats != []
    ensures Names(stats[..|stats| - 1]) <= Names(stats) && stats[|stats| - 1].name in Names(stats)
  {
    assert stats[|stats| - 1] in stats;
  }

  lemma EntriesLast<T>(dir: Directory<T>, stats: seq<LogStat>, init: seq<LogStat>, last: LogStat)
    requires Names(stats) <= dir.Keys && stats == init + [last]
    ensures Names(init) <= dir.Keys && last.name in dir
    ensures Entries(dir, stats) == Entries(dir, init) + Readable(dir[last.name])
  {
    NamesInit(stats);
    assert stats[..|stats| - 1] == init;
  }

  lemma {:induction false} EntriesFound<T>(dir: Directory<T>, stats: seq<LogStat>, e: T)
    requires Names(stats) <= dir.Keys
    ensures e in Entries(dir, stats) <==> exists s :: s in stats && s.name in dir && e in Readable(dir[s.name])
  {
    if stats != [] {
      var init, last := stats[..|stats| - 1], stats[|stats| - 1];
      assert stats == init + [last];
      EntriesLast(dir, stats, init, last);
      EntriesFound(dir, init, e);
      assert forall s :: s in stats <==> s in init || s == last;
    }
  }

  /** Every file is listed once, with the largest epoch that can be read from it. */
  ghost predicate Hydrated<T>(epoch: T -> nat, dir: Directory<T>, files: seq<LogStat>) {
    && Listing(dir, files, None) && Names(files) == dir.Keys
    && forall s :: s in files ==> s.name in dir && s.maxEpoch == MaxEpoch(epoch, Readable(dir[s.name]))
  }

  /** Reads a file up to its end or the first error. */
  method ReadLogFile<T>(epoch: T -> nat, file: seq<Record<T>>) returns (maxEpoch: nat, content: seq<T>)
    ensures content == Readable(file) && maxEpoch == MaxEpoch(epoch, content)
  {
    maxEpoch, content := 0, [];
    var i := 0;
    while i < |file| && file[i].Whole?
      invariant 0 <= i <= |file| && AllWhole(file[..i])
      invariant content == Readable(file[..i]) && maxEpoch == MaxEpoch(epoch, content)
    {
      assert file[..i + 1] == file[..i] + [file[i]];
      ReadableAppend(file[..i], file[i]);
      assert (content + [file[i].entry])[..|content|] == content;
      content := content + [file[i].entry];
      maxEpoch := Max(maxEpoch, epoch(file[i].entry));
      i := i + 1;
    }
    ReadableCut(file, i);
  }

  /** Lists the files of a directory, in whatever order their names have. */
  method Hydrate<T>(epoch: T -> nat, dir: Directory<T>) returns (files: seq<LogStat>)
    ensures Hydrated(epoch, dir, files)
  {
    files := [];
    var todo := dir.Keys;
    while todo != {}
      invariant todo <= dir.Keys
      invariant DistinctNames(files) && Names(files) == dir.Keys - todo
      invariant forall s :: s in files ==> s.name in dir && s.maxEpoch == MaxEpoch(epoch, Readable(dir[s.name]))
      decreases |todo|
    {
      var name :| name in todo;
      var maxEpoch, content := ReadLogFile(epoch, dir[name]);
      AddedName(files, LogStat(name, maxEpoch));
      files := files + [LogStat(name, maxEpoch)];
      todo := todo - {name};
    }
  }

  /** The files of a directory can be listed. */
  lemma {:induction false} CanList<T>(epoch: T -> nat, dir: Directory<T>, names: set<Name>)
    returns (files: seq<LogStat>)
    requires names <= dir.Keys
    ensures DistinctNames(files) && Names(files) == names
    ensures forall s :: s in files ==> s.name in dir && s.maxEpoch == MaxEpoch(epoch, Readable(dir[s.name]))
    decreases |names|
  {
    files := [];
    if names != {} {
      var name :| name in names;
      files := CanList(epoch, dir, names - {name});
      var stat := LogStat(name, MaxEpoch(epoch, Readable(dir[name])));
      AddedName(files, stat);
      files := files + [stat];
    }
  }

  lemma CanHydrate<T>(epoch: T -> nat, dir: Directory<T>) returns (files: seq<LogStat>)
    ensures Hydrated(epoch, dir, files)
  {
    files := CanList(epoch, dir, dir.Keys);
  }

  /** There is always another name. */
  lemma {:induction false} Longer(names: set<Name>) returns (n: nat)
    ensures forall x :: x in names ==> |x| < n
    decreases |names|
  {
    n := 0;
    if names != {} {
      var x :| x in names;
      n := Longer(names - {x});
      n := Max(n, |x| + 1);
    }
  }

  lemma NewName(names: set<Name>) returns (name: Name)
    ensures name !in names
  {
    var n := Longer(names);
    name := seq(n, i => 'x');
  }

  // ---------- the log as a value ----------

  ghost predicate WalOk<T>(w: Wal<T>) {
    Listing(w.dir, w.files, w.active)
  }

  /** Closes the active file. A failing sync or close leaves it active, and after a failing close its
      handle cannot be used again. */
  function Flushed<T>(w: Wal<T>, io: Io): (Wal<T>, bool) {
    if w.active.None? then (w, true)
    else if !w.open || !io.sync then (w, false)
    else if !io.close then (w.(open := false), false)
    else (Wal(w.dir, w.files + [w.active.value], None, false), true)
  }

  /** Opens a new file with a name made of the time; fails when there is such a file. */
  function Rotated<T>(w: Wal<T>, now: Name, io: Io): (Wal<T>, bool) {
    var (f, ok) := Flushed(w, io);
    if !ok || now in f.dir then (f, false)
    else (Wal(f.dir[now := []], f.files, Some(LogStat(now, 0)), true), true)
  }

  /** A file to write to: a new one if there is none or it is full. */
  function Prepared<T>(w: Wal<T>, now: Name, full: bool, io: Io): (Wal<T>, bool) {
    if w.active.None? then Rotated(w, now, io)
    else if !w.open || !io.stat then (w, false)
    else if full then Rotated(w, now, io)
    else (w, true)
  }

  /** Adds a record to the active file; its epoch is noted only when the record is synced. */
  function Written<T>(epoch: T -> nat, w: Wal<T>, value: T, write: Write): Wal<T>
    requires w.active.Some? && w.active.value.name in w.dir
  {
    var stat := w.active.value;
    if write.Nothing? then w
    else
      var record := if write.Cut? then Torn else Whole(value);
      var maxEpoch := if write.Complete? then Max(stat.maxEpoch, epoch(value)) else stat.maxEpoch;
      w.(dir := w.dir[stat.name := w.dir[stat.name] + [record]], active := Some(LogStat(stat.name, maxEpoch)))
  }

  function Appended<T>(epoch: T -> nat, w: Wal<T>, value: T, now: Name, full: bool, io: Io): (Wal<T>, bool)
    requires WalOk(w)
  {
    var (p, ok) := Prepared(w, now, full, io);
    if !ok then (p, false) else (Written(epoch, p, value, io.write), io.write.Complete?)
  }

  /** Removes the closed files whose recorded epochs are older than `keepEpoch`; a file that cannot be
      removed is forgotten all the same. */
  function Purged<T>(w: Wal<T>, keepEpoch: nat, stuck: set<Name>): Wal<T> {
    w.(dir := w.dir - (Dropped(w.files, keepEpoch) - stuck), files := Kept(w.files, keepEpoch))
  }

  function Reopened<T>(dir: Directory<T>, files: seq<LogStat>): Wal<T> {
    Wal(dir, files, None, false)
  }

  // ---------- what lasts ----------

  /** No purge at or below `k` removes the file: its recorded epoch is not older, or it is not listed,
      or it can never be closed. */
  ghost predicate Stays<T>(w: Wal<T>, name: Name, k: nat) {
    && (forall s :: s in w.files && s.name == name ==> s.maxEpoch >= k)
    && (w.active.Some? && w.active.value.name == name && w.open ==> w.active.value.maxEpoch >= k)
  }

  ghost predicate LastsIn<T>(w: Wal<T>, name: Name, e: T, k: nat) {
    name in w.dir && e in Readable(w.dir[name]) && Stays(w, name, k)
  }

  /** The entry is in a file that no purge at or below `k` removes. */
  ghost predicate Lasts<T>(w: Wal<T>, e: T, k: nat) {
    exists name :: LastsIn(w, name, e, k)
  }

  lemma LastingIsLogged<T>(w: Wal<T>, e: T, k: nat)
    requires Lasts(w, e, k)
    ensures Logged(w.dir, e)
  {
    var name :| LastsIn(w, name, e, k);
  }

  lemma FlushKeeps<T>(w: Wal<T>, io: Io)
    requires WalOk(w)
    ensures var w' := Flushed(w, io).0;
      WalOk(w') && w'.dir == w.dir && forall name, k :: Stays(w, name, k) ==> Stays(w', name, k)
  {
    if w.active.Some? {
      AddedName(w.files, w.active.value);
    }
  }

  lemma RotateKeeps<T>(w: Wal<T>, now: Name, io: Io)
    requires WalOk(w)
    ensures var (w', ok) := Rotated(w, now, io);
      && WalOk(w') && (ok ==> w'.active.Some? && w'.open && w'.dir[now] == [] && w'.active.value.name == now)
      && (forall e :: Logged(w'.dir, e) <==> Logged(w.dir, e))
      && (forall name, e: T, k :: LastsIn(w, name, e, k) ==> LastsIn(w', name, e, k))
  {
    FlushKeeps(w, io);
    var f := Flushed(w, io).0;
    if now !in f.dir {
      SameLogged(f.dir, f.dir[now := []], now);
    }
  }

  lemma PrepareKeeps<T>(w: Wal<T>, now: Name, full: bool, io: Io)
    requires WalOk(w)
    ensures var (w', ok) := Prepared(w, now, full, io);
      && WalOk(w') && (ok ==> w'.active.Some? && w'.active.value.name in w'.dir)
      && (forall e :: Logged(w'.dir, e) <==> Logged(w.dir, e))
      && (forall name, e: T, k :: LastsIn(w, name, e, k) ==> LastsIn(w', name, e, k))
  {
    RotateKeeps(w, now, io);
  }

  lemma WriteKeeps<T>(epoch: T -> nat, w: Wal<T>, value: T, write: Write)
    requires WalOk(w) && w.active.Some?
    ensures var w' := Written(epoch, w, value, write);
      && WalOk(w')
      && (forall name, e, k :: LastsIn(w, name, e, k) ==> LastsIn(w', name, e, k))
      && (write.Complete? && AllWhole(w.dir[w.active.value.name]) ==> Lasts(w', value, epoch(value)))
  {
    var w', name := Written(epoch, w, value, write), w.active.value.name;
    if !write.Nothing? {
      ReadableAppend(w.dir[name], if write.Cut? then Torn else Whole(value));
      if write.Complete? && AllWhole(w.dir[name]) {
        assert LastsIn(w', name, value, epoch(value));
      }
    }
  }

  lemma WriteLogs<T>(epoch: T -> nat, w: Wal<T>, value: T, write: Write)
    requires WalOk(w) && w.active.Some?
    ensures forall e :: Logged(Written(epoch, w, value, write).dir, e) <==>
      Logged(w.dir, e) || ((write.Complete? || write.Unsynced?) && AllWhole(w.dir[w.active.value.name]) && e == value)
  {
    if !write.Nothing? {
      var name, record := w.active.value.name, if write.Cut? then Torn else Whole(value);
      AppendedLogged(w.dir, w.dir[name := w.dir[name] + [record]], name, record);
    }
  }

  /** The active file can be written to, after rotation if there is none or it is full. */
  predicate Writable<T>(w: Wal<T>, now: Name, full: bool, io: Io) {
    if w.active.None? then now !in w.dir
    else w.open && io.stat && (full ==> io.sync && io.close && now !in w.dir)
  }

  /** The entry is written in full, to a new file or to one without a record that was cut short. */
  ghost predicate Lands<T>(w: Wal<T>, now: Name, full: bool, io: Io)
    requires WalOk(w)
  {
    && Writable(w, now, full, io) && (io.write.Complete? || io.write.Unsynced?)
    && (w.active.None? || full || AllWhole(w.dir[w.active.value.name]))
  }

  /** An append adds at most its entry, and takes nothing away. */
  lemma AppendKeeps<T>(epoch: T -> nat, w: Wal<T>, value: T, now: Name, full: bool, io: Io)
    requires WalOk(w)
    ensures var (w', ok) := Appended(epoch, w, value, now, full, io);
      && WalOk(w') && (ok <==> Writable(w, now, full, io) && io.write.Complete?)
      && (forall e :: Logged(w'.dir, e) <==> Logged(w.dir, e) || (Lands(w, now, full, io) && e == value))
      && (forall e, k :: Lasts(w, e, k) ==> Lasts(w', e, k))
      && (ok && Lands(w, now, full, io) ==> Lasts(w', value, epoch(value)))
  {
    var (p, ok) := Prepared(w, now, full, io);
    PrepareKeeps(w, now, full, io);
    RotateKeeps(w, now, io);
    if ok {
      WriteKeeps(epoch, p, value, io.write);
      WriteLogs(epoch, p, value, io.write);
    }
    var w' := Appended(epoch, w, value, now, full, io).0;
    forall e, k | Lasts(w, e, k)
      ensures Lasts(w', e, k)
    {
      var name :| LastsIn(w, name, e, k);
      assert LastsIn(p, name, e, k);
      assert LastsIn(w', name, e, k);
    }
  }

  lemma PurgeOk<T>(w: Wal<T>, keepEpoch: nat, stuck: set<Name>)
    requires WalOk(w)
    ensures WalOk(Purged(w, keepEpoch, stuck))
  {
    KeptMeaning(w.files, keepEpoch);
    PurgedNames(w.files, keepEpoch);
    assert Dropped(w.files, keepEpoch) <= Names(w.files);
  }

  /** What a purge leaves was there before, and nothing that lasts at or above its point is gone. */
  lemma PurgedEntries<T>(w: Wal<T>, keepEpoch: nat, stuck: set<Name>)
    requires WalOk(w)
    ensures var w' := Purged(w, keepEpoch, stuck);
      && WalOk(w') && (forall e :: Logged(w'.dir, e) ==> Logged(w.dir, e))
      && (forall e, k: nat :: Lasts(w, e, k) && k >= keepEpoch ==> Lasts(w', e, k))
  {
    PurgeOk(w, keepEpoch, stuck);
    KeptMeaning(w.files, keepEpoch);
    var w' := Purged(w, keepEpoch, stuck);
    forall e, k: nat | Lasts(w, e, k) && k >= keepEpoch
      ensures Lasts(w', e, k)
    {
      var name :| LastsIn(w, name, e, k);
      assert name !in Dropped(w.files, keepEpoch);
      assert LastsIn(w', name, e, k);
    }
    forall e | Logged(w'.dir, e)
      ensures Logged(w.dir, e)
    {
      var n :| n in w'.dir && e in Readable(w'.dir[n]);
      assert n in w.dir && e in Readable(w.dir[n]);
    }
  }

  /** After a reopening, whatever can be read is listed and lasts up to its own epoch. */
  lemma ReopenKeeps<T>(epoch: T -> nat, dir: Directory<T>, files: seq<LogStat>)
    requires Hydrated(epoch, dir, files)
    ensures WalOk(Reopened(dir, files))
    ensures forall e :: Logged(dir, e) <==> e in Entries(dir, files)
    ensures forall e, k: nat :: Logged(dir, e) && k <= epoch(e) ==> Lasts(Reopened(dir, files), e, k)
  {
    var w := Reopened(dir, files);
    forall e
      ensures Logged(dir, e) <==> e in Entries(dir, files)
    {
      EntriesFound(dir, files, e);
      if Logged(dir, e) {
        var n :| n in dir && e in Readable(dir[n]);
        assert n in Names(files);
        var s :| s in files && s.name == n;
      }
    }
    forall e, k: nat | Logged(dir, e) && k <= epoch(e)
      ensures Lasts(w, e, k)
    {
      var n :| n in dir && e in Readable(dir[n]);
      MaxEpochBounds(epoch, Readable(dir[n]));
      assert LastsIn(w, n, e, k);
    }
  }

  // ---------- every use of a log ----------

  datatype Use<T> =
    | Append(value: T, now: Name, full: bool, io: Io)
    | Close(io: Io)
    | Purge(keepEpoch: nat, stuck: set<Name>)
    | Reopen(files: seq<LogStat>)

  /** Purges at or below `k` only; a reopening lists what is there. */
  ghost predicate Allowed<T>(epoch: T -> nat, w: Wal<T>, u: Use<T>, k: nat) {
    match u
    case Append(_, _, _, _) => WalOk(w)
    case Close(_) => true
    case Purge(keepEpoch, _) => keepEpoch <= k
    case Reopen(files) => Hydrated(epoch, w.dir, files)
  }

  ghost function Used<T>(epoch: T -> nat, w: Wal<T>, u: Use<T>, k: nat): Wal<T>
    requires Allowed(epoch, w, u, k)
  {
    match u
    case Append(value, now, full, io) => Appended(epoch, w, value, now, full, io).0
    case Close(io) => Flushed(w, io).0
    case Purge(keepEpoch, stuck) => Purged(w, keepEpoch, stuck)
    case Reopen(files) => Reopened(w.dir, files)
  }

  /** The entry can be read after all these uses. */
  ghost predicate ReadAfter<T>(epoch: T -> nat, w: Wal<T>, us: seq<Use<T>>, k: nat, e: T)
    decreases |us|
  {
    if us == [] then Logged(w.dir, e)
    else Allowed(epoch, w, us[0], k) ==> ReadAfter(epoch, Used(epoch, w, us[0], k), us[1..], k, e)
  }

  lemma UseKeeps<T>(epoch: T -> nat, w: Wal<T>, u: Use<T>, k: nat, e: T)
    requires WalOk(w) && Allowed(epoch, w, u, k) && Lasts(w, e, k) && k <= epoch(e)
    ensures WalOk(Used(epoch, w, u, k)) && Lasts(Used(epoch, w, u, k), e, k)
  {
    match u
    case Append(value, now, full, io) => AppendKeeps(epoch, w, value, now, full, io);
    case Close(io) =>
      FlushKeeps(w, io);
      var name :| LastsIn(w, name, e, k);
      assert LastsIn(Flushed(w, io).0, name, e, k);
    case Purge(keepEpoch, stuck) => PurgedEntries(w, keepEpoch, stuck);
    case Reopen(files) =>
      LastingIsLogged(w, e, k);
      ReopenKeeps(epoch, w.dir, files);
  }

  lemma {:induction false} UsesKeep<T>(epoch: T -> nat, w: Wal<T>, us: seq<Use<T>>, k: nat, e: T)
    requires WalOk(w) && Lasts(w, e, k) && k <= epoch(e)
    ensures ReadAfter(epoch, w, us, k, e)
    decreases |us|
  {
    if us == [] {
      LastingIsLogged(w, e, k);
    } else if Allowed(epoch, w, us[0], k) {
      UseKeeps(epoch, w, us[0], k, e);
      UsesKeep(epoch, Used(epoch, w, us[0], k), us[1..], k, e);
    }
  }

  /** After closing the active file, a purge removes every file that does not stay. */
  lemma ClosedAndPurged<T>(w: Wal<T>, k: nat) returns (w': Wal<T>)
    requires WalOk(w)
    ensures w' == Purged(Flushed(w, Io(true, true, true, Nothing)).0, k, {})
    ensures w'.dir.Keys <= w.dir.Keys && forall name :: name in w'.dir ==>
      w'.dir[name] == w.dir[name] && Stays(w, name, k)
  {
    var f := Flushed(w, Io(true, true, true, Nothing)).0;
    w' := Purged(f, k, {});
    FlushKeeps(w, Io(true, true, true, Nothing));
    forall name | name in w'.dir
      ensures Stays(w, name, k)
    {
      assert name !in Dropped(f.files, k);
      forall s | s in w.files && s.name == name
        ensures s.maxEpoch >= k
      {
        assert s in f.files;
      }
      if w.active.Some? && w.active.value.name == name && w.open {
        assert w.active.value in f.files;
      }
    }
  }

  /** An entry can be read after every use of the log with purges at or below `k` if and only if it is
      in a file that such a purge does not remove. */
  lemma SurvivesExactly<T(!new)>(epoch: T -> nat, w: Wal<T>, k: nat, e: T)
    requires WalOk(w) && k <= epoch(e)
    ensures (forall us :: ReadAfter(epoch, w, us, k, e)) <==> Lasts(w, e, k)
  {
    if Lasts(w, e, k) {
      forall us
        ensures ReadAfter(epoch, w, us, k, e)
      {
        UsesKeep(epoch, w, us, k, e);
      }
    } else {
      NotLastingIsRemoved(epoch, w, k, e);
    }
  }

  lemma NotLastingIsRemoved<T(!new)>(epoch: T -> nat, w: Wal<T>, k: nat, e: T)
    requires WalOk(w) && !Lasts(w, e, k)
    ensures exists us :: !ReadAfter(epoch, w, us, k, e)
  {
    var io := Io(true, true, true, Nothing);
    var close, purge := Use<T>.Close(io), Use<T>.Purge(k, {});
    var f := Flushed(w, io).0;
    var w' := ClosedAndPurged(w, k);
    if Logged(w'.dir, e) {
      var name :| name in w'.dir && e in Readable(w'.dir[name]);
      assert LastsIn(w, name, e, k);
      assert false;
    }
    var us := [close, purge];
    assert us[1..] == [purge] && us[1..][1..] == [];
    assert !ReadAfter(epoch, w', [], k, e);
    assert !ReadAfter(epoch, f, [purge], k, e);
    assert !ReadAfter(epoch, w, us, k, e);
  }

  // ---------- the object ----------

  class WriteAheadLog<T(!new, ==)> {
    const epoch: T -> nat
    var dir: Directory<T>
    var logFiles: seq<LogStat>
    var active: Option<LogStat>
    var open: bool

    function State(): Wal<T>
      reads this
    {
      Wal(dir, logFiles, active, open)
    }

    ghost predicate Valid()
      reads this
    {
      WalOk(State())
    }

    function AllStats(): set<LogStat>
      reads this
    {
      Stats(logFiles, active)
    }

    constructor (epoch: T -> nat, dir: Directory<T>)
      ensures Valid() && this.epoch == epoch && Hydrated(epoch, dir, logFiles) && State() == Reopened(dir, logFiles)
      ensures forall e :: Logged(dir, e) <==> Found(dir, AllStats(), e)
      ensures forall e :: Logged(dir, e) ==> Lasts(State(), e, epoch(e))
    {
      var files := Hydrate(epoch, dir);
      this.epoch, this.dir, logFiles, active, open := epoch, dir, files, None, false;
      new;
      ReopenKeeps(epoch, dir, files);
      forall e | Logged(dir, e)
        ensures Found(dir, AllStats(), e)
      {
        var n :| n in dir && e in Readable(dir[n]);
        assert n in Names(files);
        var s :| s in files && s.name == n;
        assert s in AllStats();
      }
    }

    /** The entries of all listed files, file by file. */
    method All() returns (res: seq<T>)
      requires Valid()
      ensures active.None? ==> res == Entries(dir, logFiles)
      ensures forall e :: e in res <==> Found(dir, AllStats(), e)
    {
      res := [];
      for i := 0 to |logFiles|
        invariant Names(logFiles[..i]) <= dir.Keys && res == Entries(dir, logFiles[..i])
      {
        assert logFiles[i].name in Names(logFiles);
        var maxEpoch, content := ReadLogFile(epoch, dir[logFiles[i].name]);
        assert logFiles[..i + 1][..i] == logFiles[..i];
        res := res + content;
      }
      assert logFiles[..|logFiles|] == logFiles;
      if active.Some? {
        var maxEpoch, content := ReadLogFile(epoch, dir[active.value.name]);
        res := res + content;
      }
      forall e
        ensures e in res <==> Found(dir, AllStats(), e)
      {
        EntriesFound(dir, logFiles, e);
        FoundIn(dir, logFiles, active, e);
      }
    }

    /** Closes the active file. */
    method Flush(io: Io) returns (ok: bool)
      requires Valid()
      modifies `logFiles, `active, `open
      ensures Valid() && AllStats() == old(AllStats()) && (State(), ok) == Flushed(old(State()), io)
      ensures ok <==> old(active).None? || (old(open) && io.sync && io.close)
      ensures ok ==> active == None
      ensures !ok ==> logFiles == old(logFiles) && active == old(active) && open == (old(open) && !io.sync)
    {
      FlushKeeps(State(), io);
      if active.None? {
        return true;
      }
      if !open || !io.sync {
        return false;
      }
      open := false;
      if !io.close {
        return false;
      }
      logFiles := logFiles + [active.value];
      active := None;
      ok := true;
    }

    /** Opens a new file. */
    method RotateTo(now: Name, io: Io) returns (ok: bool)
      requires Valid()
      modifies this
      ensures Valid() && (State(), ok) == Rotated(old(State()), now, io)
      ensures ok <==> (old(active).None? || (old(open) && io.sync && io.close)) && now !in old(dir)
      ensures ok ==> active == Some(LogStat(now, 0)) && open && now in dir && AllWhole(dir[now])
      ensures forall e :: Logged(dir, e) <==> old(Logged(dir, e))
      ensures forall e, k :: old(Lasts(State(), e, k)) ==> Lasts(State(), e, k)
    {
      ghost var w := State();
      RotateKeeps(w, now, io);
      var flushed := Flush(io);
      if flushed && now !in dir {
        dir := dir[now := []];
        active, open := Some(LogStat(now, 0)), true;
        ok := true;
      } else {
        ok := false;
      }
      LastsAfter(w, State());
    }

    /** Appends to the active file, which is replaced when it is full. An entry behind a record that
        was cut short is reported as written, but cannot be read; one that is not synced is reported
        as an error, but can be read. */
    method Append(value: T, now: Name, full: bool, io: Io) returns (ok: bool)
      requires Valid()
      modifies this
      ensures Valid() && (State(), ok) == Appended(epoch, old(State()), value, now, full, io)
      ensures ok <==> Writable(old(State()), now, full, io) && io.write.Complete?
      ensures forall e :: Logged(dir, e) <==> old(Logged(dir, e)) || (Lands(old(State()), now, full, io) && e == value)
      ensures forall e, k :: old(Lasts(State(), e, k)) ==> Lasts(State(), e, k)
      ensures ok && Lands(old(State()), now, full, io) ==> Lasts(State(), value, epoch(value))
    {
      AppendKeeps(epoch, State(), value, now, full, io);
      var ready := MaybeRotate(now, full, io);
      if !ready {
        return false;
      }
      WriteRecord(value, io.write);
      ok := io.write.Complete?;
    }

    method MaybeRotate(now: Name, full: bool, io: Io) returns (ok: bool)
      requires Valid()
      modifies this
      ensures Valid() && (State(), ok) == Prepared(old(State()), now, full, io)
      ensures ok ==> active.Some?
    {
      if active.None? {
        ok := RotateTo(now, io);
      } else if !open || !io.stat {
        ok := false;
      } else if full {
        ok := RotateTo(now, io);
      } else {
        ok := true;
      }
    }

    method WriteRecord(value: T, write: Write)
      requires Valid() && active.Some?
      modifies `dir, `active
      ensures State() == Written(epoch, old(State()), value, write)
    {
      if write.Nothing? {
        return;
      }
      var name := active.value.name;
      dir := dir[name := dir[name] + [if write.Cut? then Torn else Whole(value)]];
      if write.Complete? {
        active := Some(LogStat(name, Max(active.value.maxEpoch, epoch(value))));
      }
    }

    method Purge(keepEpoch: nat, stuck: set<Name>)
      requires Valid()
      modifies `dir, `logFiles
      ensures Valid() && State() == Purged(old(State()), keepEpoch, stuck)
      ensures dir == old(dir) - (Dropped(old(logFiles), keepEpoch) - stuck)
      ensures logFiles == Kept(old(logFiles), keepEpoch)
      ensures forall e :: Logged(dir, e) ==> old(Logged(dir, e))
      ensures forall e, k: nat :: old(Lasts(State(), e, k)) && k >= keepEpoch ==> Lasts(State(), e, k)
    {
      PurgedEntries(State(), keepEpoch, stuck);
      dir, logFiles := RemoveOld(dir, logFiles, keepEpoch, stuck);
    }
  }

  lemma LastsAfter<T(!new)>(w: Wal<T>, w': Wal<T>)
    requires forall name, e, k :: LastsIn(w, name, e, k) ==> LastsIn(w', name, e, k)
    ensures forall e, k :: Lasts(w, e, k) ==> Lasts(w', e, k)
  {
    forall e, k | Lasts(w, e, k)
      ensures Lasts(w', e, k)
    {
      var name :| LastsIn(w, name, e, k);
      assert LastsIn(w', name, e, k);
    }
  }

  lemma FoundIn<T>(dir: Directory<T>, files: seq<LogStat>, active: Option<LogStat>, e: T)
    requires Listing(dir, files, active)
    ensures Found(dir, Stats(files, active), e) <==>
      || (exists s :: s in files && s.name in dir && e in Readable(dir[s.name]))
      || (active.Some? && e in Readable(dir[active.value.name]))
  {
    var stats := Stats(files, active);
    if s :| s in files && s.name in dir && e in Readable(dir[s.name]) {
      assert s in stats;
    }
    if active.Some? && e in Readable(dir[active.value.name]) {
      assert active.value in stats;
    }
  }

  method RemoveOld<T>(dir: Directory<T>, files: seq<LogStat>, keepEpoch: nat, stuck: set<Name>)
    returns (dir': Directory<T>, kept: seq<LogStat>)
    ensures dir' == dir - (Dropped(files, keepEpoch) - stuck) && kept == Kept(files, keepEpoch)
  {
    dir', kept := dir, [];
    for i := 0 to |files|
      invariant kept == Kept(files[..i], keepEpoch) && dir' == dir - (Dropped(files[..i], keepEpoch) - stuck)
    {
      DroppedNext(files, i, keepEpoch);
      if files[i].maxEpoch < keepEpoch {
        if files[i].name !in stuck {
          dir' := dir' - {files[i].name};
        }
      } else {
        kept := kept + [files[i]];
      }
    }
    assert files[..|files|] == files;
  }

  ghost predicate Removes<T>(epoch: T -> nat, dir: Directory<T>, files: seq<LogStat>, keepEpoch: nat, stuck: set<Name>,
      e: T)
  {
    exists n :: n in Dropped(files, keepEpoch) - stuck && n in dir && e in Readable(dir[n]) && epoch(e) >= keepEpoch
  }

  /** A purge removes an entry at or above its point if and only if a closed file that it removes
      holds an entry of such an epoch that was not recorded, because it was not synced. */
  lemma PurgeRemovesExactly<T(!new)>(
      epoch: T -> nat, dir: Directory<T>, files: seq<LogStat>, keepEpoch: nat, stuck: set<Name>)
    requires Listing(dir, files, None)
    ensures (exists e :: Removes(epoch, dir, files, keepEpoch, stuck, e)) <==>
      exists s :: s in files && s.name !in stuck && s.maxEpoch < keepEpoch <= MaxEpoch(epoch, Readable(dir[s.name]))
  {
    if e :| Removes(epoch, dir, files, keepEpoch, stuck, e) {
      var n :| n in Dropped(files, keepEpoch) - stuck && n in dir && e in Readable(dir[n]) && epoch(e) >= keepEpoch;
      MaxEpochBounds(epoch, Readable(dir[n]));
      var s :| s in files && s.name == n && s.maxEpoch < keepEpoch;
    }
    if s :| && s in files && s.name !in stuck && s.name in dir
            && s.maxEpoch < keepEpoch <= MaxEpoch(epoch, Readable(dir[s.name]))
    {
      var e := MaxEpochReached(epoch, Readable(dir[s.name]));
      assert s.name in Dropped(files, keepEpoch);
      assert Removes(epoch, dir, files, keepEpoch, stuck, e);
    }
  }

  lemma {:induction false} MaxEpochReached<T>(epoch: T -> nat, entries: seq<T>) returns (e: T)
    requires MaxEpoch(epoch, entries) > 0
    ensures e in entries && epoch(e) == MaxEpoch(epoch, entries)
  {
    var n := |entries| - 1;
    if epoch(entries[n]) == MaxEpoch(epoch, entries) {
      e := entries[n];
    } else {
      e := MaxEpochReached(epoch, entries[..n]);
    }
  }

  lemma AddedName(stats: seq<LogStat>, s: LogStat)
    ensures Names(stats + [s]) == Names(stats) + {s.name}
    ensures DistinctNames(stats) && s.name !in Names(stats) ==> DistinctNames(stats + [s])
  {
    assert forall x :: x in stats + [s] <==> x in stats || x == s;
    forall i | 0 <= i < |stats|
      ensures stats[i].name in Names(stats)
    {
      assert stats[i] in stats;
    }
  }

  lemma SameLogged<T>(a: Directory<T>, b: Directory<T>, name: Name)
    requires name !in a && b == a[name := []]
    ensures forall e :: Logged(a, e) <==> Logged(b, e)
  {
    forall e
      ensures Logged(a, e) <==> Logged(b, e)
    {
      if Logged(a, e) {
        var n :| n in a && e in Readable(a[n]);
        assert n in b && e in Readable(b[n]);
      }
    }
  }

  lemma AppendedLogged<T>(a: Directory<T>, b: Directory<T>, name: Name, r: Record<T>)
    requires name in a && b == a[name := a[name] + [r]]
    ensures forall e :: Logged(b, e) <==> Logged(a, e) || (AllWhole(a[name]) && r == Whole(e))
  {
    ReadableAppend(a[name], r);
    forall e
      ensures Logged(b, e) <==> Logged(a, e) || (AllWhole(a[name]) && r == Whole(e))
    {
      if Logged(a, e) {
        var n :| n in a && e in Readable(a[n]);
        assert n in b && e in Readable(b[n]);
      }
      if Logged(b, e) {
        var n :| n in b && e in Readable(b[n]);
        assert n in a && (e in Readable(a[n]) || (AllWhole(a[name]) && r == Whole(e)));
      }
      if AllWhole(a[name]) && r == Whole(e) {
        assert name in b && e in Readable(b[name]);
      }
    }
  }

  /** The files that a purge keeps. */
  function Kept(files: seq<LogStat>, keepEpoch: nat): seq<LogStat> {
    if files == [] then []
    else
      var n := |files| - 1;
      Kept(files[..n], keepEpoch) + (if files[n].maxEpoch < keepEpoch then [] else [files[n]])
  }

  function Dropped(files: seq<LogStat>, keepEpoch: nat): set<Name> {
    set s | s in files && s.maxEpoch < keepEpoch :: s.name
  }

  lemma {:induction false} KeptMeaning(files: seq<LogStat>, keepEpoch: nat)
    requires DistinctNames(files)
    ensures forall s :: s in Kept(files, keepEpoch) <==> s in files && s.maxEpoch >= keepEpoch
    ensures DistinctNames(Kept(files, keepEpoch))
  {
    if files != [] {
      var n := |files| - 1;
      var init, kept := files[..n], Kept(files[..n], keepEpoch);
      KeptMeaning(init, keepEpoch);
      assert files == init + [files[n]];
      forall k | 0 <= k < |kept|
        ensures kept[k].name != files[n].name
      {
        assert kept[k] in init;
      }
    }
  }

  lemma DroppedNext(files: seq<LogStat>, i: nat, keepEpoch: nat)
    requires i < |files|
    ensures Dropped(files[..i + 1], keepEpoch)
         == Dropped(files[..i], keepEpoch) + (if files[i].maxEpoch < keepEpoch then {files[i].name} else {})
    ensures Kept(files[..i + 1], keepEpoch)
         == Kept(files[..i], keepEpoch) + (if files[i].maxEpoch < keepEpoch then [] else [files[i]])
  {
    assert files[..i + 1] == files[..i] + [files[i]];
    assert files[..i + 1][..i] == files[..i];
  }

  lemma PurgedNames(files: seq<LogStat>, keepEpoch: nat)
    requires DistinctNames(files)
    ensures Names(Kept(files, keepEpoch)) == Names(files) - Dropped(files, keepEpoch)
  {
    KeptMeaning(files, keepEpoch);
    forall s, t | s in files && t in files && s.name == t.name
      ensures s == t
    {
    }
  }
}

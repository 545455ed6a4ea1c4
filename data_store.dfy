/**
 * `DataStore`: the list logic of `DataManager` — the most-recently-used list
 * of files kept in the settings, and the pruning of old backups.
 */
module DataStore {
  import opened Lists
  import opened Text

  /** How many recent files the settings keep. */
  const MaxRecentFiles: nat := 10

  /** No entry occurs twice. */
  ghost predicate NoDuplicates(s: seq<string>) {
    forall x :: multiset(s)[x] <= 1
  }

  // ---------------------------------------------------------------------------
  // Recent files

  /** The position of the first occurrence of `x` in `s`. */
  function FirstIndex(s: seq<string>, x: string): (i: nat)
    requires x in s
    ensures i < |s| && s[i] == x
    ensures forall k :: 0 <= k < i ==> s[k] != x
  {
    if s[0] == x then 0
    else FirstIndex(s[1..], x) + 1
  }

  /** Python's `list.remove(x)`: drops the first occurrence of `x` (see `RemoveFirstDropsFirst`). */
  function RemoveFirst(s: seq<string>, x: string): (r: seq<string>)
    ensures x !in s ==> r == s
    ensures x in s ==> |r| == |s| - 1
    ensures multiset(r) == multiset(s) - multiset{x}
  {
    if s == [] then []
    else if s[0] == x then
      assert s == [s[0]] + s[1..];
      s[1..]
    else
      assert s == [s[0]] + s[1..];
      [s[0]] + RemoveFirst(s[1..], x)
  }

  /** The entry `RemoveFirst` drops is the first occurrence: what precedes it and what follows it stay. */
  lemma RemoveFirstDropsFirst(s: seq<string>, x: string)
    requires x in s
    ensures RemoveFirst(s, x) == s[..FirstIndex(s, x)] + s[FirstIndex(s, x) + 1..]
  {
    RemoveAt(s, x, FirstIndex(s, x));
  }

  /** When `s[i]` is the first `x`, `RemoveFirst` cuts out exactly position `i`. */
  lemma {:induction false} RemoveAt(s: seq<string>, x: string, i: nat)
    requires i < |s| && s[i] == x
    requires forall k :: 0 <= k < i ==> s[k] != x
    ensures RemoveFirst(s, x) == s[..i] + s[i + 1..]
  {
    if i == 0 {
      assert s[..0] + s[1..] == s[1..];
    } else {
      var t := s[1..];
      RemoveAt(t, x, i - 1);
      assert RemoveFirst(s, x) == [s[0]] + RemoveFirst(t, x);
      ConsSplit(s[0], t, i - 1);
      assert [s[0]] + t == s;
    }
  }

  /** Removing entry `j` of `t` and then putting `h` in front removes entry `j + 1` of `[h] + t`. */
  lemma ConsSplit(h: string, t: seq<string>, j: nat)
    requires j < |t|
    ensures [h] + (t[..j] + t[j + 1..]) == ([h] + t)[..j + 1] + ([h] + t)[j + 2..]
  {
    var s := [h] + t;
    assert s[..j + 1] == [h] + t[..j];
    assert s[j + 2..] == t[j + 1..];
  }

  /** The list `add_recent_file(path)` leaves: `path` moved (or put) in front, cut to ten entries. */
  function WithRecentFile(files: seq<string>, path: string): seq<string> {
    var moved := [path] + RemoveFirst(files, path);
    if |moved| > MaxRecentFiles then moved[..MaxRecentFiles] else moved
  }

  /** Keeps the entries other than `path`. */
  function Other(path: string): string -> bool {
    (q: string) => q != path
  }

  /** The new list starts with `path`, holds at most ten entries, and every other entry was there before. */
  lemma RecentFileFirst(files: seq<string>, path: string)
    ensures var r := WithRecentFile(files, path);
      && 1 <= |r| <= MaxRecentFiles && r[0] == path
      && forall q :: q in r ==> q == path || q in files
  {
    var moved := [path] + RemoveFirst(files, path);
    MovedMembers(files, path);
    if |moved| > MaxRecentFiles {
      PrefixMembers(moved, MaxRecentFiles);
    }
  }

  /** Every entry of the moved list is `path` or was in the list before. */
  lemma MovedMembers(files: seq<string>, path: string)
    ensures forall q :: q in [path] + RemoveFirst(files, path) ==> q == path || q in files
  {
    var rest := RemoveFirst(files, path);
    forall q | q in [path] + rest && q != path
      ensures q in files
    {
      var i :| 0 <= i < |rest| && rest[i] == q;
      RemoveFirstMember(files, path, i);
    }
  }

  /** The entries of a prefix are entries of the whole. */
  lemma PrefixMembers(s: seq<string>, k: nat)
    requires k <= |s|
    ensures forall q :: q in s[..k] ==> q in s
  {
    assert s == s[..k] + s[k..];
  }

  /** Every entry left by `RemoveFirst` was in the list before. */
  lemma RemoveFirstMember(s: seq<string>, x: string, i: nat)
    requires i < |RemoveFirst(s, x)|
    ensures RemoveFirst(s, x)[i] in s
  {
    var r := RemoveFirst(s, x);
    assert r[i] in multiset(r);
  }

  /** If the old list held `path` at most once, the new one holds it exactly once. */
  lemma RecentFileOnce(files: seq<string>, path: string)
    requires multiset(files)[path] <= 1
    ensures multiset(WithRecentFile(files, path))[path] == 1
  {
    var moved := [path] + RemoveFirst(files, path);
    var r := WithRecentFile(files, path);
    assert multiset(moved)[path] == 1;
    if |moved| > MaxRecentFiles {
      assert moved == r + moved[MaxRecentFiles..];
      assert multiset(moved) == multiset(r) + multiset(moved[MaxRecentFiles..]);
    }
    assert r[0] == path;
  }

  /** A list without duplicates stays without duplicates. */
  lemma RecentFileNoDuplicates(files: seq<string>, path: string)
    requires NoDuplicates(files)
    ensures NoDuplicates(WithRecentFile(files, path))
  {
    var moved := [path] + RemoveFirst(files, path);
    var r := WithRecentFile(files, path);
    assert moved == r + moved[|r|..];
    assert multiset(moved) == multiset(r) + multiset(moved[|r|..]);
    forall x
      ensures multiset(r)[x] <= 1
    {
      assert multiset(r)[x] <= multiset(moved)[x];
    }
  }

  /** `list.remove` drops only the entry equal to `path`, so the other entries keep their order. */
  lemma {:induction false} RemoveFirstKeepsOthers(s: seq<string>, path: string)
    ensures Filter(RemoveFirst(s, path), Other(path)) == Filter(s, Other(path))
  {
    if s != [] {
      assert s == [s[0]] + s[1..];
      FilterAppend([s[0]], s[1..], Other(path));
      FilterSingleton(s[0], Other(path));
      if s[0] != path {
        RemoveFirstKeepsOthers(s[1..], path);
        FilterAppend([s[0]], RemoveFirst(s[1..], path), Other(path));
      }
    }
  }

  /** Filtering a prefix gives a prefix of the filtered whole. */
  lemma FilterOfPrefix(s: seq<string>, k: nat, p: string -> bool)
    requires k <= |s|
    ensures Filter(s[..k], p) <= Filter(s, p)
  {
    assert s == s[..k] + s[k..];
    FilterAppend(s[..k], s[k..], p);
  }

  /**
   * Apart from `path`, the new list is the old one in the same order, possibly
   * cut short: the other entries form a prefix of the old list's other entries.
   */
  lemma RecentFileKeepsOrder(files: seq<string>, path: string)
    ensures Filter(WithRecentFile(files, path), Other(path)) <= Filter(files, Other(path))
  {
    var rest := RemoveFirst(files, path);
    var moved := [path] + rest;
    RemoveFirstKeepsOthers(files, path);
    FilterAppend([path], rest, Other(path));
    FilterSingleton(path, Other(path));
    assert Filter(moved, Other(path)) == Filter(files, Other(path));
    if |moved| > MaxRecentFiles {
      FilterOfPrefix(moved, MaxRecentFiles, Other(path));
    }
  }

  /** Opening the same file twice in a row changes nothing the second time. */
  lemma RecentFileIdempotent(files: seq<string>, path: string)
    ensures WithRecentFile(WithRecentFile(files, path), path) == WithRecentFile(files, path)
  {
    var r := WithRecentFile(files, path);
    RecentFileFirst(files, path);
    assert r == [path] + r[1..];
    assert RemoveFirst(r, path) == r[1..];
  }

  /** Keeps the files that exist. */
  function Exists(existing: set<string>): string -> bool {
    (q: string) => q in existing
  }

  /** A filter that drops nothing leaves the list as it was. */
  lemma {:induction false} FilterKeepingLengthKeepsAll(s: seq<string>, existing: set<string>)
    requires |Filter(s, Exists(existing))| == |s|
    ensures Filter(s, Exists(existing)) == s
  {
    if s != [] {
      var init := s[..|s| - 1];
      assert |Filter(init, Exists(existing))| <= |init|;
      FilterKeepingLengthKeepsAll(init, existing);
      assert init + [s[|s| - 1]] == s;
    }
  }

  // ---------------------------------------------------------------------------
  // Backups

  /** `filename.endswith('.json')`: the files `cleanup_old_backups` treats as backups. */
  predicate IsBackupName(name: string) {
    EndsWith(name, ".json")
  }

  /** The backups in a directory listing (file name to modification time). */
  function BackupNames(dir: map<string, int>): set<string> {
    set n | n in dir && IsBackupName(n)
  }

  /** Newest first: modification times never increase along the list. */
  ghost predicate NewestFirst(s: seq<(string, int)>) {
    forall i, j :: 0 <= i < j < |s| ==> s[i].1 >= s[j].1
  }

  /** Puts `x` before the first entry that is not newer than it. */
  function InsertByAge(x: (string, int), s: seq<(string, int)>): (r: seq<(string, int)>)
    requires NewestFirst(s)
    ensures NewestFirst(r)
    ensures multiset(r) == multiset(s) + multiset{x}
    ensures forall e :: e in r ==> e == x || e in s
    ensures r[0] == x || (s != [] && r[0] == s[0])
  {
    if s == [] then [x]
    else if x.1 >= s[0].1 then
      ConsNewestFirst(x, s);
      [x] + s
    else
      assert s == [s[0]] + s[1..];
      var rec := InsertByAge(x, s[1..]);
      ConsNewestFirst(s[0], rec);
      [s[0]] + rec
  }

  /** An entry at least as new as the head of a newest-first list can go in front of it. */
  lemma ConsNewestFirst(h: (string, int), s: seq<(string, int)>)
    requires NewestFirst(s) && (s != [] ==> s[0].1 <= h.1)
    ensures NewestFirst([h] + s)
  {
  }

  /** `sort(key=mtime, reverse=True)`: newest first, ties kept in listing order. */
  function SortNewestFirst(s: seq<(string, int)>): (r: seq<(string, int)>)
    ensures NewestFirst(r)
    ensures multiset(r) == multiset(s)
  {
    if s == [] then []
    else
      assert s == [s[0]] + s[1..];
      InsertByAge(s[0], SortNewestFirst(s[1..]))
  }

  /** Where Python's `s[n:]` starts on a list of `len` entries; a negative `n` counts from the end. */
  function SliceStart(len: nat, n: int): (r: nat)
    ensures r <= len
    ensures n >= 0 ==> r == if n <= len then n else len
    ensures n < 0 ==> r == if len + n >= 0 then len + n else 0
  {
    if n >= 0 then (if n <= len then n else len)
    else if len + n >= 0 then len + n else 0
  }

  /** The file names in a listing. */
  ghost function NamesOf(s: seq<(string, int)>): set<string> {
    if s == [] then {} else NamesOf(s[..|s| - 1]) + {s[|s| - 1].0}
  }

  /** A name is in a listing's names exactly when some entry carries it. */
  lemma {:induction false} InNamesOf(s: seq<(string, int)>, n: string)
    ensures n in NamesOf(s) <==> exists i :: 0 <= i < |s| && s[i].0 == n
  {
    if s != [] {
      InNamesOf(s[..|s| - 1], n);
      if n in NamesOf(s[..|s| - 1]) {
        var i :| 0 <= i < |s| - 1 && s[..|s| - 1][i].0 == n;
        assert s[i].0 == n;
      }
    }
  }

  /** The names of two listings one after the other. */
  lemma {:induction false} NamesOfAppend(s: seq<(string, int)>, t: seq<(string, int)>)
    ensures NamesOf(s + t) == NamesOf(s) + NamesOf(t)
  {
    if t == [] {
      assert s + t == s;
    } else {
      assert (s + t)[..|s + t| - 1] == s + t[..|t| - 1];
      NamesOfAppend(s, t[..|t| - 1]);
    }
  }

  /** A listing names at most as many files as it has entries. */
  lemma {:induction false} NamesOfAtMostLength(s: seq<(string, int)>)
    ensures |NamesOf(s)| <= |s|
  {
    if s != [] {
      NamesOfAtMostLength(s[..|s| - 1]);
    }
  }

  /** When a listing names as many files as it has entries, each part of it names as many as it has. */
  lemma DistinctNamesSplit(s: seq<(string, int)>, k: nat)
    requires k <= |s| && |NamesOf(s)| == |s|
    ensures |NamesOf(s[..k])| == k && |NamesOf(s[k..])| == |s| - k
    ensures NamesOf(s[..k]) !! NamesOf(s[k..])
    ensures NamesOf(s) == NamesOf(s[..k]) + NamesOf(s[k..])
  {
    assert s == s[..k] + s[k..];
    NamesOfAppend(s[..k], s[k..]);
    NamesOfAtMostLength(s[..k]);
    NamesOfAtMostLength(s[k..]);
    var a, b := NamesOf(s[..k]), NamesOf(s[k..]);
    assert |a + b| + |a * b| == |a| + |b|;
    assert |a * b| == 0;
    assert a * b == {};
  }

  /**
   * Deleting the files named in the tail of a newest-first listing of the
   * backups leaves the files named in its head: only backups go, and none
   * that goes is newer than one that stays.
   */
  lemma KeptAreNewest(dir: map<string, int>, sorted: seq<(string, int)>, cut: nat)
    requires NewestFirst(sorted) && cut <= |sorted|
    requires |NamesOf(sorted)| == |sorted| && NamesOf(sorted) == BackupNames(dir)
    requires forall e :: e in sorted ==> e.0 in dir && e.1 == dir[e.0]
    ensures var kept := dir - NamesOf(sorted[cut..]);
      && BackupNames(kept) == NamesOf(sorted[..cut])
      && |BackupNames(kept)| == cut
      && (forall n :: n in dir && !IsBackupName(n) ==> n in kept)
      && (forall k, d :: k in kept && IsBackupName(k) && d in dir && d !in kept ==> dir[d] <= dir[k])
  {
    DistinctNamesSplit(sorted, cut);
    var kept := dir - NamesOf(sorted[cut..]);
    assert BackupNames(kept) == NamesOf(sorted[..cut]);
    forall k, d | k in kept && IsBackupName(k) && d in dir && d !in kept
      ensures dir[d] <= dir[k]
    {
      assert k in BackupNames(kept);
      HeadNotOlder(dir, sorted, cut, k, d);
    }
  }

  /** A name in the head of a newest-first listing is not older than a name in its tail. */
  lemma HeadNotOlder(dir: map<string, int>, sorted: seq<(string, int)>, cut: nat, k: string, d: string)
    requires NewestFirst(sorted) && cut <= |sorted|
    requires forall e :: e in sorted ==> e.0 in dir && e.1 == dir[e.0]
    requires k in NamesOf(sorted[..cut]) && d in NamesOf(sorted[cut..])
    ensures k in dir && d in dir && dir[d] <= dir[k]
  {
    InNamesOf(sorted[..cut], k);
    InNamesOf(sorted[cut..], d);
    var i :| 0 <= i < cut && sorted[..cut][i].0 == k;
    var j :| 0 <= j < |sorted| - cut && sorted[cut..][j].0 == d;
    assert sorted[..cut][i] == sorted[i] && sorted[cut..][j] == sorted[cut + j];
    NotNewerLater(dir, sorted, i, cut + j);
  }

  /** In a newest-first listing that agrees with `dir`, a later entry's file is not newer than an earlier one's. */
  lemma NotNewerLater(dir: map<string, int>, sorted: seq<(string, int)>, i: nat, j: nat)
    requires NewestFirst(sorted) && i < j < |sorted|
    requires forall e :: e in sorted ==> e.0 in dir && e.1 == dir[e.0]
    ensures sorted[i].0 in dir && sorted[j].0 in dir
    ensures dir[sorted[j].0] <= dir[sorted[i].0]
  {
    assert sorted[i] in sorted && sorted[j] in sorted;
  }

  /** The backups of a directory, each with its modification time, in an arbitrary listing order. */
  method ListBackups(dir: map<string, int>) returns (listing: seq<(string, int)>)
    ensures NamesOf(listing) == BackupNames(dir)
    ensures |NamesOf(listing)| == |listing|
    ensures forall e :: e in listing ==> e.0 in dir && e.1 == dir[e.0]
  {
    listing := [];
    var todo := dir.Keys;
    while todo != {}
      invariant todo <= dir.Keys
      invariant NamesOf(listing) == BackupNames(dir) - todo
      invariant |NamesOf(listing)| == |listing|
      invariant forall e :: e in listing ==> e.0 in dir && e.1 == dir[e.0]
      decreases todo
    {
      var name :| name in todo;
      ListBackupsStep(dir, listing, todo, name);
      if IsBackupName(name) {
        listing := listing + [(name, dir[name])];
      }
      todo := todo - {name};
    }
  }

  /** Listing one more file of the directory keeps the listing's names distinct and complete so far. */
  lemma ListBackupsStep(dir: map<string, int>, listing: seq<(string, int)>, todo: set<string>, name: string)
    requires todo <= dir.Keys && name in todo
    requires NamesOf(listing) == BackupNames(dir) - todo
    requires |NamesOf(listing)| == |listing|
    ensures var next := if IsBackupName(name) then listing + [(name, dir[name])] else listing;
      && NamesOf(next) == BackupNames(dir) - (todo - {name})
      && |NamesOf(next)| == |next|
  {
    if IsBackupName(name) {
      var next := listing + [(name, dir[name])];
      assert next[..|listing|] == listing;
      assert NamesOf(next) == NamesOf(listing) + {name};
      assert name !in NamesOf(listing);
    }
  }

  /**
   * The backups `cleanup_old_backups` deletes: after sorting the listing
   * newest first, those from position `maxBackups` on.
   */
  method StaleBackups(dir: map<string, int>, maxBackups: int) returns (stale: seq<(string, int)>)
    ensures var kept := dir - NamesOf(stale);
      && |BackupNames(kept)| == SliceStart(|BackupNames(dir)|, maxBackups)
      && (forall n :: n in dir && !IsBackupName(n) ==> n in kept)
      && (forall k, d :: k in kept && IsBackupName(k) && d in dir && d !in kept ==> dir[d] <= dir[k])
  {
    var listing := ListBackups(dir);
    var sorted := SortNewestFirst(listing);
    NamesOfPermutation(listing, sorted);
    assert |sorted| == |multiset(sorted)| == |multiset(listing)| == |listing|;
    forall e | e in sorted
      ensures e.0 in dir && e.1 == dir[e.0]
    {
      assert e in multiset(sorted);
      assert e in listing;
    }
    var cut := SliceStart(|sorted|, maxBackups);
    KeptAreNewest(dir, sorted, cut);
    stale := sorted[cut..];
  }

  /** Reordering a listing names the same files. */
  lemma NamesOfPermutation(s: seq<(string, int)>, t: seq<(string, int)>)
    requires multiset(s) == multiset(t)
    ensures NamesOf(s) == NamesOf(t)
  {
    forall n | n in NamesOf(s)
      ensures n in NamesOf(t)
    {
      InNamesOf(s, n);
      var i :| 0 <= i < |s| && s[i].0 == n;
      assert s[i] in multiset(t);
      var j :| 0 <= j < |t| && t[j] == s[i];
      InNamesOf(t, n);
    }
    forall n | n in NamesOf(t)
      ensures n in NamesOf(s)
    {
      InNamesOf(t, n);
      var j :| 0 <= j < |t| && t[j].0 == n;
      assert t[j] in multiset(s);
      var i :| 0 <= i < |s| && s[i] == t[j];
      InNamesOf(s, n);
    }
  }

  // ---------------------------------------------------------------------------
  // The data manager

  class DataManager {
    /** `settings['recent_files']`. */
    var recentFiles: seq<string>
    /** How many times the settings have been written back. */
    var settingsWrites: nat
    /** The backup directory: each file name with its modification time. */
    var backupDir: map<string, int>

    constructor (stored: seq<string>, backups: map<string, int>)
      ensures recentFiles == stored && settingsWrites == 0 && backupDir == backups
    {
      recentFiles := stored;
      settingsWrites := 0;
      backupDir := backups;
    }

    /** `add_recent_file`: moves or puts `path` in front, keeps ten entries, and saves the settings. */
    method AddRecentFile(path: string)
      modifies this`recentFiles, this`settingsWrites
      ensures recentFiles == WithRecentFile(old(recentFiles), path)
      ensures settingsWrites == old(settingsWrites) + 1
    {
      var files := recentFiles;
      if path in files {
        files := RemoveFirst(files, path);
      }
      files := [path] + files;
      if |files| > MaxRecentFiles {
        files := files[..MaxRecentFiles];
      }
      recentFiles := files;
      settingsWrites := settingsWrites + 1;
    }

    /**
     * `get_recent_files`: the stored files that exist, in stored order; the
     * settings are written back only when some file was dropped, and then
     * hold exactly the files returned.
     */
    method GetRecentFiles(existing: set<string>) returns (valid: seq<string>)
      modifies this`recentFiles, this`settingsWrites
      ensures valid == Filter(old(recentFiles), Exists(existing))
      ensures |valid| != |old(recentFiles)| ==> recentFiles == valid && settingsWrites == old(settingsWrites) + 1
      ensures |valid| == |old(recentFiles)| ==>
                (recentFiles == old(recentFiles) == valid && settingsWrites == old(settingsWrites))
    {
      var files := recentFiles;
      valid := [];
      for i := 0 to |files|
        invariant valid == Filter(files[..i], Exists(existing))
      {
        assert files[..i + 1][..i] == files[..i];
        if files[i] in existing {
          valid := valid + [files[i]];
        }
      }
      assert files[..|files|] == files;
      if |valid| != |files| {
        recentFiles := valid;
        settingsWrites := settingsWrites + 1;
      } else {
        FilterKeepingLengthKeepsAll(files, existing);
      }
    }

    /**
     * `cleanup_old_backups`: lists the backups, sorts them newest first and
     * deletes all but the first `maxBackups`. Other files stay; the backups
     * kept are the newest ones; and exactly `maxBackups` of them remain when
     * there were more (all remain when there were not).
     */
    method CleanupOldBackups(maxBackups: int)
      modifies this`backupDir
      ensures forall n :: n in backupDir ==> n in old(backupDir) && backupDir[n] == old(backupDir)[n]
      ensures forall n :: n in old(backupDir) && !IsBackupName(n) ==> n in backupDir
      ensures forall k, d :: k in backupDir && IsBackupName(k) && d in old(backupDir) && d !in backupDir
                ==> old(backupDir)[d] <= old(backupDir)[k]
      ensures |BackupNames(backupDir)| == SliceStart(|BackupNames(old(backupDir))|, maxBackups)
    {
      var stale := StaleBackups(backupDir, maxBackups);
      for i := 0 to |stale|
        invariant backupDir == old(backupDir) - NamesOf(stale[..i])
      {
        assert stale[..i + 1][..i] == stale[..i];
        backupDir := backupDir - {stale[i].0};
      }
      assert stale[..|stale|] == stale;
    }
  }
}

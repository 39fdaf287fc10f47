/** Transactional apply (internal/service/service.go): back the live files up, write the
    rendered ones, reload, and roll back when something fails. The disk is a map from
    live path to content; every operation that can fail is told by the caller whether it does. */
module Apply {
  import opened Text
  import opened Model
  import opened Paths

  type Disk = map<string, string>

  /** A rendered file and where it goes. */
  datatype File = File(live: string, content: string)

  function At(disk: Disk, path: string): Option<string> {
    if path in disk then Some(disk[path]) else None
  }

  // ---- writing ----

  function Write(disk: Disk, f: File): Disk {
    disk[f.live := f.content]
  }

  function WriteAll(disk: Disk, files: seq<File>): Disk
    decreases |files|
  {
    if files == [] then disk else WriteAll(Write(disk, files[0]), files[1..])
  }

  function LivePaths(files: seq<File>): seq<string> {
    if files == [] then [] else [files[0].live] + LivePaths(files[1..])
  }

  lemma {:induction false} LivePathsAt(files: seq<File>)
    ensures |LivePaths(files)| == |files| && forall i :: 0 <= i < |files| ==> LivePaths(files)[i] == files[i].live
  {
    if files != [] { LivePathsAt(files[1..]); }
  }

  /** Every path holds what it held before, or what one of the files puts there. */
  ghost predicate OldOrNew(before: Disk, files: seq<File>, after: Disk) {
    forall p: string :: OldOrNewAt(before, files, after, p)
  }

  ghost predicate OldOrNewAt(before: Disk, files: seq<File>, after: Disk, p: string) {
    At(after, p) == At(before, p) || exists i :: 0 <= i < |files| && files[i].live == p && At(after, p) == Some(files[i].content)
  }

  lemma {:induction false} WriteAllAppend(disk: Disk, x: seq<File>, y: seq<File>)
    ensures WriteAll(disk, x + y) == WriteAll(WriteAll(disk, x), y)
    decreases |x|
  {
    if x == [] {
      assert x + y == y;
    } else {
      WriteAllAppend(Write(disk, x[0]), x[1..], y);
      assert (x + y)[1..] == x[1..] + y;
    }
  }

  /** A path none of the files names is not touched. */
  lemma {:induction false} WriteAllElsewhere(disk: Disk, files: seq<File>, p: string)
    requires forall i :: 0 <= i < |files| ==> files[i].live != p
    ensures At(WriteAll(disk, files), p) == At(disk, p)
    decreases |files|
  {
    if files != [] {
      forall i | 0 <= i < |files[1..]| ensures files[1..][i].live != p { assert files[1..][i] == files[i + 1]; }
      WriteAllElsewhere(Write(disk, files[0]), files[1..], p);
    }
  }

  /** With one file per live path, every file ends with its own content. */
  lemma {:induction false} WriteAllContents(disk: Disk, files: seq<File>, i: nat)
    requires i < |files| && forall j :: i < j < |files| ==> files[j].live != files[i].live
    ensures At(WriteAll(disk, files), files[i].live) == Some(files[i].content)
    decreases |files|
  {
    if i == 0 {
      forall j | 0 <= j < |files[1..]| ensures files[1..][j].live != files[0].live { assert files[1..][j] == files[j + 1]; }
      WriteAllElsewhere(Write(disk, files[0]), files[1..], files[0].live);
    } else {
      forall j | i - 1 < j < |files[1..]| ensures files[1..][j].live != files[1..][i - 1].live { assert files[1..][j] == files[j + 1]; }
      WriteAllContents(Write(disk, files[0]), files[1..], i - 1);
    }
  }

  /** At every step of the writing each file is old or new. */
  lemma {:induction false} WriteAllOldOrNew(disk: Disk, files: seq<File>, k: nat)
    requires k <= |files|
    ensures OldOrNew(disk, files, WriteAll(disk, files[..k]))
    decreases k
  {
    if k == 0 {
      assert files[..0] == [];
    } else {
      var before := WriteAll(disk, files[..k - 1]);
      WriteAllOldOrNew(disk, files, k - 1);
      assert files[..k] == files[..k - 1] + [files[k - 1]];
      WriteAllAppend(disk, files[..k - 1], [files[k - 1]]);
      WriteOne(before, files[k - 1]);
      forall p: string ensures OldOrNewAt(disk, files, WriteAll(disk, files[..k]), p) {
        assert OldOrNewAt(disk, files, before, p);
      }
    }
  }

  lemma WriteOne(disk: Disk, f: File)
    ensures WriteAll(disk, [f]) == Write(disk, f)
  {
    assert [f][1..] == [];
  }

  // ---- backup and rollback ----

  /** `backupFiles` into a folder: copies of the live files that exist. */
  function Backup(folder: Disk, disk: Disk, paths: seq<string>): Disk
    decreases |paths|
  {
    if paths == [] then folder
    else Backup(if paths[0] in disk then folder[paths[0] := disk[paths[0]]] else folder, disk, paths[1..])
  }

  /** The live paths that did not exist. */
  function Missing(disk: Disk, paths: seq<string>): set<string> {
    set p | p in paths && p !in disk
  }

  /** A copy that fails can leave anything behind. */
  type Spoiled = map<string, Option<string>>

  function Spoil(disk: Disk, p: string, left: Option<string>): Disk {
    match left case Some(c) => disk[p := c] case None => disk - {p}
  }

  /** `restore` of an apply, one path: files that were new are removed. */
  function UndoOne(disk: Disk, p: string, folder: Disk, wasNew: set<string>, spoiled: Spoiled): Disk {
    if p in spoiled then Spoil(disk, p, spoiled[p])
    else if p in wasNew then disk - {p}
    else if p in folder then disk[p := folder[p]]
    else disk
  }

  function Undo(disk: Disk, applied: seq<string>, folder: Disk, wasNew: set<string>, spoiled: Spoiled): Disk
    decreases |applied|
  {
    if applied == [] then disk else Undo(UndoOne(disk, applied[0], folder, wasNew, spoiled), applied[1..], folder, wasNew, spoiled)
  }

  lemma {:induction false} BackupAt(folder: Disk, disk: Disk, paths: seq<string>, p: string)
    ensures At(Backup(folder, disk, paths), p) == if p in paths && p in disk then Some(disk[p]) else At(folder, p)
    decreases |paths|
  {
    if paths != [] {
      BackupAt(if paths[0] in disk then folder[paths[0] := disk[paths[0]]] else folder, disk, paths[1..], p);
      assert paths == [paths[0]] + paths[1..];
    }
  }

  /** What undoing makes of one path. */
  function Undone(before: Option<string>, p: string, folder: Disk, wasNew: set<string>, spoiled: Spoiled): Option<string> {
    if p in spoiled then spoiled[p] else if p in wasNew then None else if p in folder then Some(folder[p]) else before
  }

  lemma {:induction false} UndoAt(disk: Disk, applied: seq<string>, folder: Disk, wasNew: set<string>, spoiled: Spoiled, p: string)
    ensures At(Undo(disk, applied, folder, wasNew, spoiled), p)
      == if p in applied then Undone(At(disk, p), p, folder, wasNew, spoiled) else At(disk, p)
    decreases |applied|
  {
    if applied != [] {
      UndoAt(UndoOne(disk, applied[0], folder, wasNew, spoiled), applied[1..], folder, wasNew, spoiled, p);
      assert applied == [applied[0]] + applied[1..];
    }
  }

  ghost predicate SameExcept(before: Disk, after: Disk, except: set<string>) {
    forall p: string :: p !in except ==> At(after, p) == At(before, p)
  }

  lemma {:induction false} PathsOf(files: seq<File>, p: string)
    ensures p in LivePaths(files) <==> exists i :: 0 <= i < |files| && files[i].live == p
  {
    LivePathsAt(files);
    if p in LivePaths(files) {
      var i :| 0 <= i < |LivePaths(files)| && LivePaths(files)[i] == p;
      assert files[i].live == p;
    }
  }

  /** Undoing the first `k` writes of an apply gives every file back as it was, whatever
      else the backup folder held; only files whose copy failed may differ. */
  lemma RollbackRestores(disk: Disk, files: seq<File>, k: nat, stale: Disk, spoiled: Spoiled)
    requires k <= |files|
    ensures var paths := LivePaths(files);
      SameExcept(disk, Undo(WriteAll(disk, files[..k]), LivePaths(files[..k]), Backup(stale, disk, paths), Missing(disk, paths), spoiled), spoiled.Keys)
  {
    var paths := LivePaths(files);
    var folder, wasNew := Backup(stale, disk, paths), Missing(disk, paths);
    var after := Undo(WriteAll(disk, files[..k]), LivePaths(files[..k]), folder, wasNew, spoiled);
    forall p: string | p !in spoiled.Keys ensures At(after, p) == At(disk, p) {
      RollbackOne(disk, files, k, stale, spoiled, p);
    }
  }

  lemma RollbackOne(disk: Disk, files: seq<File>, k: nat, stale: Disk, spoiled: Spoiled, p: string)
    requires k <= |files| && p !in spoiled
    ensures var paths := LivePaths(files);
      At(Undo(WriteAll(disk, files[..k]), LivePaths(files[..k]), Backup(stale, disk, paths), Missing(disk, paths), spoiled), p) == At(disk, p)
  {
    var paths := LivePaths(files);
    UndoAt(WriteAll(disk, files[..k]), LivePaths(files[..k]), Backup(stale, disk, paths), Missing(disk, paths), spoiled, p);
    BackupAt(stale, disk, paths, p);
    PathsOf(files, p);
    PathsOf(files[..k], p);
    if p !in LivePaths(files[..k]) { WriteAllElsewhere(disk, files[..k], p); }
  }

  // ---- restore without the new-file case ----

  /** `restore` in `Backups.Restore`: a file the safety folder lacks is left as it is. */
  function CopyBack(disk: Disk, applied: seq<string>, folder: Disk): Disk {
    Undo(disk, applied, folder, {}, map[])
  }

  /** That rollback gives the disk back exactly when every file it had written existed. */
  lemma CopyBackIff(disk: Disk, files: seq<File>, k: nat, stale: Disk)
    requires k <= |files|
    ensures CopyBack(WriteAll(disk, files[..k]), LivePaths(files[..k]), Backup(stale, disk, LivePaths(files))) == disk
      <==> forall i :: 0 <= i < k ==> files[i].live in disk
  {
    var after := CopyBack(WriteAll(disk, files[..k]), LivePaths(files[..k]), Backup(stale, disk, LivePaths(files)));
    if forall i :: 0 <= i < k ==> files[i].live in disk {
      forall p: string ensures At(after, p) == At(disk, p) { CopyBackKeeps(disk, files, k, stale, p); }
      SameAt(after, disk);
    } else {
      var i :| 0 <= i < k && files[i].live !in disk;
      CopyBackLeaves(disk, files, k, stale, i);
    }
  }

  lemma SameAt(x: Disk, y: Disk)
    requires forall p: string :: At(x, p) == At(y, p)
    ensures x == y
  {
    forall p: string ensures p in x <==> p in y { assert At(x, p) == At(y, p); }
    forall p: string | p in x ensures x[p] == y[p] { assert At(x, p) == At(y, p); }
  }

  lemma CopyBackKeeps(disk: Disk, files: seq<File>, k: nat, stale: Disk, p: string)
    requires k <= |files| && forall i :: 0 <= i < k ==> files[i].live in disk
    ensures At(CopyBack(WriteAll(disk, files[..k]), LivePaths(files[..k]), Backup(stale, disk, LivePaths(files))), p) == At(disk, p)
  {
    UndoAt(WriteAll(disk, files[..k]), LivePaths(files[..k]), Backup(stale, disk, LivePaths(files)), {}, map[], p);
    BackupAt(stale, disk, LivePaths(files), p);
    PathsOf(files, p);
    PathsOf(files[..k], p);
    if p !in LivePaths(files[..k]) { WriteAllElsewhere(disk, files[..k], p); }
  }

  /** A file that was new stays on the disk. */
  lemma CopyBackLeaves(disk: Disk, files: seq<File>, k: nat, stale: Disk, i: nat)
    requires i < k <= |files| && files[i].live !in disk
    ensures files[i].live in CopyBack(WriteAll(disk, files[..k]), LivePaths(files[..k]), Backup(stale, disk, LivePaths(files)))
  {
    var p := files[i].live;
    UndoAt(WriteAll(disk, files[..k]), LivePaths(files[..k]), Backup(stale, disk, LivePaths(files)), {}, map[], p);
    assert files[..k][i] == files[i];
    WriteAllIncludes(disk, files[..k], p);
    PathsOf(files[..k], p);
  }

  lemma {:induction false} WriteAllIncludes(disk: Disk, files: seq<File>, p: string)
    requires p in disk || exists i :: 0 <= i < |files| && files[i].live == p
    ensures p in WriteAll(disk, files)
    decreases |files|
  {
    if files != [] {
      if p !in disk && files[0].live != p {
        var i :| 0 <= i < |files| && files[i].live == p;
        assert files[1..][i - 1].live == p;
      }
      WriteAllIncludes(Write(disk, files[0]), files[1..], p);
    }
  }

  /** The smallest case: a file that did not exist survives that rollback. */
  lemma CopyBackCounterexample()
    ensures var f := File("/etc/haproxy/haproxy.cfg", "frontend");
      CopyBack(WriteAll(map[], [f]), LivePaths([f]), Backup(map[], map[], LivePaths([f]))) != map[]
  {
    var f := File("/etc/haproxy/haproxy.cfg", "frontend");
    assert [f][..1] == [f];
    var empty: Disk := map[];
    CopyBackIff(empty, [f], 1, empty);
    assert [f][0].live !in empty;
  }
}

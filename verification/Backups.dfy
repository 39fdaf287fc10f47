/** `Backups.Restore` (internal/service/backups.go): validate a backup folder, save the
    current files, write the folder's files back and reload. */
module Backups {
  import opened Text
  import opened Model
  import opened Paths
  import opened Apply
  import opened Service

  /** What the outside world does during one restore: the order the folder is walked and the
      engine map is ranged over, what cannot be read, validated, saved, written or reloaded. */
  datatype RestoreWorld = RestoreWorld(
    walk: seq<string>, engines: seq<Engine>, readFails: set<string>, invalid: set<Engine>, backupFails: set<string>,
    writeFails: set<nat>, reloadFails: set<Engine>, spoiled: Spoiled, stamp: nat)

  // ---- collecting ----

  /** `classify`: the first engine that knows the path. */
  function Classify(p: Paths, live: string, engines: seq<Engine>): Option<(Engine, string)> {
    if engines == [] then None
    else match StagedRel(engines[0], p, live)
      case Some(rel) => Some((engines[0], rel))
      case None => Classify(p, live, engines[1..])
  }

  datatype Item = Item(engine: Engine, rel: string, live: string, content: string)

  /** The known files of the folder, in walk order. */
  function Collect(folder: Disk, walk: seq<string>, p: Paths, engines: seq<Engine>): seq<Item> {
    if walk == [] then []
    else
      var rest := Collect(folder, walk[1..], p, engines);
      match Classify(p, walk[0], engines)
      case Some(c) => if walk[0] in folder then [Item(c.0, c.1, walk[0], folder[walk[0]])] + rest else rest
      case None => rest
  }

  predicate Known(folder: Disk, live: string, p: Paths, engines: seq<Engine>) {
    live in folder && Classify(p, live, engines).Some?
  }

  /** The engines in order of first appearance. */
  function Order(items: seq<Item>): seq<Engine> {
    if items == [] then []
    else
      var before := Order(items[..|items| - 1]);
      var e := items[|items| - 1].engine;
      if e in before then before else before + [e]
  }

  function FilesFor(e: Engine, items: seq<Item>, p: Paths): seq<File> {
    if items == [] then []
    else (if items[0].engine == e then [File(LivePath(e, p, items[0].rel), items[0].content)] else []) + FilesFor(e, items[1..], p)
  }

  function StagedIn(order: seq<Engine>, items: seq<Item>, p: Paths): seq<StagedEngine> {
    if order == [] then [] else [StagedEngine(order[0], FilesFor(order[0], items, p))] + StagedIn(order[1..], items, p)
  }

  /** What a restore writes, engine by engine. */
  function StagedEngines(folder: Disk, w: RestoreWorld, p: Paths): seq<StagedEngine> {
    var items := Collect(folder, w.walk, p, w.engines);
    StagedIn(Order(items), items, p)
  }

  function RestoredFiles(folder: Disk, w: RestoreWorld, p: Paths): seq<File> {
    AllFiles(StagedEngines(folder, w, p))
  }

  lemma {:induction false} ClassifyFinds(p: Paths, live: string, engines: seq<Engine>)
    ensures Classify(p, live, engines).Some? <==> exists e :: e in engines && StagedRel(e, p, live).Some?
    ensures Classify(p, live, engines).Some? ==>
      LivePath(Classify(p, live, engines).value.0, p, Classify(p, live, engines).value.1) == live
  {
    if engines != [] {
      ClassifyFinds(p, live, engines[1..]);
      assert engines == [engines[0]] + engines[1..];
      if StagedRel(engines[0], p, live).Some? { LiveOfStaged(engines[0], p, live); }
    }
  }

  /** Items are copies of the folder's files, on their way back to where they came from. */
  ghost predicate ItemOk(folder: Disk, p: Paths, item: Item) {
    item.live in folder && item.content == folder[item.live] && LivePath(item.engine, p, item.rel) == item.live
  }

  lemma {:induction false} CollectOk(folder: Disk, walk: seq<string>, p: Paths, engines: seq<Engine>)
    ensures forall i :: 0 <= i < |Collect(folder, walk, p, engines)| ==> ItemOk(folder, p, Collect(folder, walk, p, engines)[i])
    decreases |walk|
  {
    if walk != [] {
      CollectOk(folder, walk[1..], p, engines);
      ClassifyFinds(p, walk[0], engines);
    }
  }

  ghost predicate HasLive(items: seq<Item>, live: string) {
    exists i :: 0 <= i < |items| && items[i].live == live
  }

  lemma {:induction false} CollectFinds(folder: Disk, walk: seq<string>, p: Paths, engines: seq<Engine>, live: string)
    requires live in walk && Known(folder, live, p, engines)
    ensures HasLive(Collect(folder, walk, p, engines), live)
    decreases |walk|
  {
    var items := Collect(folder, walk, p, engines);
    if walk[0] == live {
      assert items[0].live == live;
    } else {
      assert live in walk[1..];
      CollectFinds(folder, walk[1..], p, engines, live);
      var rest := Collect(folder, walk[1..], p, engines);
      var i :| 0 <= i < |rest| && rest[i].live == live;
      assert items[|items| - |rest| + i] == rest[i];
    }
  }

  lemma {:induction false} OrderHas(items: seq<Item>, i: nat)
    requires i < |items|
    ensures items[i].engine in Order(items)
    decreases |items|
  {
    if i < |items| - 1 {
      OrderHas(items[..|items| - 1], i);
    }
  }

  ghost predicate FromItem(f: File, items: seq<Item>, p: Paths) {
    exists i :: 0 <= i < |items| && MadeFrom(f, items[i], p)
  }

  ghost predicate MadeFrom(f: File, item: Item, p: Paths) {
    f == File(LivePath(item.engine, p, item.rel), item.content)
  }

  lemma {:induction false} FilesForFrom(e: Engine, items: seq<Item>, p: Paths, k: nat)
    requires k < |FilesFor(e, items, p)|
    ensures FromItem(FilesFor(e, items, p)[k], items, p)
    decreases |items|
  {
    var f := FilesFor(e, items, p)[k];
    var n := if items[0].engine == e then 1 else 0;
    if k < n {
      assert MadeFrom(f, items[0], p);
    } else {
      FilesForFrom(e, items[1..], p, k - n);
      var i :| 0 <= i < |items[1..]| && MadeFrom(f, items[1..][i], p);
      assert MadeFrom(f, items[i + 1], p);
    }
  }

  lemma {:induction false} FilesForHas(e: Engine, items: seq<Item>, p: Paths, i: nat)
    requires i < |items| && items[i].engine == e
    ensures Includes(FilesFor(e, items, p), File(LivePath(e, p, items[i].rel), items[i].content))
    decreases |items|
  {
    var files, f := FilesFor(e, items, p), File(LivePath(e, p, items[i].rel), items[i].content);
    if i == 0 {
      assert files[0] == f;
    } else {
      FilesForHas(e, items[1..], p, i - 1);
      var rest := FilesFor(e, items[1..], p);
      var k :| 0 <= k < |rest| && rest[k] == f;
      assert files[|files| - |rest| + k] == f;
    }
  }

  lemma {:induction false} StagedFromItems(order: seq<Engine>, items: seq<Item>, p: Paths, k: nat)
    requires k < |AllFiles(StagedIn(order, items, p))|
    ensures FromItem(AllFiles(StagedIn(order, items, p))[k], items, p)
    decreases |order|
  {
    var head := FilesFor(order[0], items, p);
    assert StagedIn(order, items, p)[1..] == StagedIn(order[1..], items, p);
    if k < |head| {
      FilesForFrom(order[0], items, p, k);
    } else {
      StagedFromItems(order[1..], items, p, k - |head|);
    }
  }

  lemma {:induction false} StagedHas(order: seq<Engine>, items: seq<Item>, p: Paths, i: nat)
    requires i < |items| && items[i].engine in order
    ensures Includes(AllFiles(StagedIn(order, items, p)), File(LivePath(items[i].engine, p, items[i].rel), items[i].content))
    decreases |order|
  {
    var f := File(LivePath(items[i].engine, p, items[i].rel), items[i].content);
    var all, head := AllFiles(StagedIn(order, items, p)), FilesFor(order[0], items, p);
    assert StagedIn(order, items, p)[1..] == StagedIn(order[1..], items, p);
    if order[0] == items[i].engine {
      FilesForHas(order[0], items, p, i);
      var k :| 0 <= k < |head| && head[k] == f;
      assert all[k] == f;
    } else {
      StagedHas(order[1..], items, p, i);
      var rest := AllFiles(StagedIn(order[1..], items, p));
      var k :| 0 <= k < |rest| && rest[k] == f;
      assert all[|head| + k] == f;
    }
  }

  // ---- what a restore writes ----

  lemma {:induction false} WriteAllSame(disk: Disk, files: seq<File>, live: string, content: string)
    requires forall i :: 0 <= i < |files| && files[i].live == live ==> files[i].content == content
    requires At(disk, live) == Some(content) || exists i :: 0 <= i < |files| && files[i].live == live
    ensures At(WriteAll(disk, files), live) == Some(content)
    decreases |files|
  {
    if files != [] {
      forall i | 0 <= i < |files[1..]| && files[1..][i].live == live ensures files[1..][i].content == content {
        assert files[1..][i] == files[i + 1];
      }
      if files[0].live != live && At(disk, live) != Some(content) {
        var i :| 0 <= i < |files| && files[i].live == live;
        assert files[1..][i - 1].live == live;
      }
      WriteAllSame(Write(disk, files[0]), files[1..], live, content);
    }
  }

  /** The walk sees the whole folder. */
  predicate Walks(folder: Disk, walk: seq<string>) {
    forall live :: live in folder ==> live in walk
  }

  lemma RestoredContent(folder: Disk, w: RestoreWorld, p: Paths, k: nat)
    requires k < |RestoredFiles(folder, w, p)|
    ensures var f := RestoredFiles(folder, w, p)[k]; f.live in folder && f.content == folder[f.live]
  {
    var items := Collect(folder, w.walk, p, w.engines);
    var f := RestoredFiles(folder, w, p)[k];
    CollectOk(folder, w.walk, p, w.engines);
    StagedFromItems(Order(items), items, p, k);
    var i :| 0 <= i < |items| && MadeFrom(f, items[i], p);
    assert ItemOk(folder, p, items[i]);
  }

  /** A restore puts every known file of the folder back with the folder's content, and
      touches nothing that is not in the folder. */
  lemma RestoreWrites(disk: Disk, folder: Disk, w: RestoreWorld, p: Paths, live: string)
    requires Walks(folder, w.walk)
    ensures Known(folder, live, p, w.engines) ==> At(WriteAll(disk, RestoredFiles(folder, w, p)), live) == Some(folder[live])
    ensures live !in folder ==> At(WriteAll(disk, RestoredFiles(folder, w, p)), live) == At(disk, live)
  {
    var files := RestoredFiles(folder, w, p);
    forall k | 0 <= k < |files| ensures files[k].live in folder && files[k].content == folder[files[k].live] {
      RestoredContent(folder, w, p, k);
    }
    if live !in folder {
      WriteAllElsewhere(disk, files, live);
    } else if Known(folder, live, p, w.engines) {
      KnownIsWritten(folder, w, p, live);
      WriteAllSame(disk, files, live, folder[live]);
    }
  }

  lemma KnownIsWritten(folder: Disk, w: RestoreWorld, p: Paths, live: string)
    requires Walks(folder, w.walk) && Known(folder, live, p, w.engines)
    ensures exists k :: 0 <= k < |RestoredFiles(folder, w, p)| && RestoredFiles(folder, w, p)[k].live == live
  {
    var items, files := Collect(folder, w.walk, p, w.engines), RestoredFiles(folder, w, p);
    CollectFinds(folder, w.walk, p, w.engines, live);
    CollectOk(folder, w.walk, p, w.engines);
    var i :| 0 <= i < |items| && items[i].live == live;
    assert ItemOk(folder, p, items[i]);
    OrderHas(items, i);
    StagedHas(Order(items), items, p, i);
    var k :| 0 <= k < |files| && files[k] == File(LivePath(items[i].engine, p, items[i].rel), items[i].content);
  }

  // ---- backup, then restore ----

  lemma ManagedIsKnown(e: Engine, p: Paths, rel: string, engines: seq<Engine>)
    requires e in engines && Staged(e, rel)
    ensures Classify(p, LivePath(e, p, rel), engines).Some?
  {
    ClassifyFinds(p, LivePath(e, p, rel), engines);
    RelsDiffer();
    assert StagedRel(e, p, LivePath(e, p, rel)).Some?;
  }

  /** Restoring the folder an apply wrote, whatever has become of the disk since, gives
      every managed file that existed at that apply its content of then, and leaves files
      the folder does not hold alone. */
  lemma BackupThenRestore(earlier: Disk, later: Disk, stale: Disk, paths: seq<string>, w: RestoreWorld, p: Paths, e: Engine, rel: string)
    requires var folder := Backup(stale, earlier, paths); Walks(folder, w.walk)
    requires e in w.engines && Staged(e, rel) && LivePath(e, p, rel) in paths && LivePath(e, p, rel) in earlier
    ensures At(WriteAll(later, RestoredFiles(Backup(stale, earlier, paths), w, p)), LivePath(e, p, rel)) == Some(earlier[LivePath(e, p, rel)])
  {
    var folder, live := Backup(stale, earlier, paths), LivePath(e, p, rel);
    BackupAt(stale, earlier, paths, live);
    ManagedIsKnown(e, p, rel, w.engines);
    RestoreWrites(later, folder, w, p, live);
  }

  // ---- the program ----

  predicate SomeReadFails(folder: Disk, w: RestoreWorld, p: Paths) {
    exists i :: 0 <= i < |w.walk| && Known(folder, w.walk[i], p, w.engines) && w.walk[i] in w.readFails
  }

  predicate SomeInvalid(engines: seq<StagedEngine>, w: RestoreWorld) {
    exists i :: 0 <= i < |engines| && engines[i].engine in w.invalid
  }

  /** The restore gets as far as writing. */
  predicate Ready(backups: map<nat, Disk>, ts: nat, w: RestoreWorld, p: Paths) {
    ts in backups
    && var folder := backups[ts];
    && !SomeReadFails(folder, w, p)
    && StagedEngines(folder, w, p) != []
    && !SomeInvalid(StagedEngines(folder, w, p), w)
    && NoneIn(LivePaths(RestoredFiles(folder, w, p)), w.backupFails)
  }

  predicate SomeFileFails(files: seq<File>, w: RestoreWorld) {
    exists i :: 0 <= i < |files| && i in w.writeFails
  }

  predicate SomeEngineFails(engines: seq<StagedEngine>, w: RestoreWorld) {
    exists i :: 0 <= i < |engines| && engines[i].engine in w.reloadFails
  }

  predicate RestoreSucceeds(backups: map<nat, Disk>, ts: nat, w: RestoreWorld, p: Paths) {
    Ready(backups, ts, w, p) && !SomeFileFails(RestoredFiles(backups[ts], w, p), w) && !SomeEngineFails(StagedEngines(backups[ts], w, p), w)
  }

  /** How many files were written when a ready restore fails. */
  function WrittenBefore(files: seq<File>, w: RestoreWorld): (k: nat)
    ensures k <= |files|
  {
    FirstFail(0, |files|, w.writeFails)
  }

  /** What a failed restore leaves behind. */
  function AfterFailure(disk: Disk, backups: map<nat, Disk>, ts: nat, w: RestoreWorld, p: Paths): Disk {
    if !Ready(backups, ts, w, p) then disk
    else
      var files := RestoredFiles(backups[ts], w, p);
      UndoneAt(disk, files, WrittenBefore(files, w), Backup(Folder(backups, w.stamp), disk, LivePaths(files)), {}, w.spoiled)
  }

  /** A failed restore, all its copies back succeeding, leaves the disk as it was exactly
      when every file it had written was already there. */
  lemma RestoreRollbackIff(disk: Disk, backups: map<nat, Disk>, ts: nat, w: RestoreWorld, p: Paths)
    requires w.spoiled == map[] && Ready(backups, ts, w, p)
    ensures AfterFailure(disk, backups, ts, w, p) == disk
      <==> forall i :: 0 <= i < WrittenBefore(RestoredFiles(backups[ts], w, p), w) ==> RestoredFiles(backups[ts], w, p)[i].live in disk
  {
    var files := RestoredFiles(backups[ts], w, p);
    CopyBackIff(disk, files, WrittenBefore(files, w), Folder(backups, w.stamp));
  }

  /** The same restore under other faults of its writes and reloads. */
  function WithFaults(w: RestoreWorld, writeFails: set<nat>, reloadFails: set<Engine>): RestoreWorld {
    w.(writeFails := writeFails, reloadFails := reloadFails)
  }

  ghost predicate RollsBack(disk: Disk, backups: map<nat, Disk>, ts: nat, w: RestoreWorld, p: Paths, writeFails: set<nat>, reloadFails: set<Engine>) {
    var v := WithFaults(w, writeFails, reloadFails);
    !RestoreSucceeds(backups, ts, v, p) ==> AfterFailure(disk, backups, ts, v, p) == disk
  }

  lemma FaultsKeepReady(backups: map<nat, Disk>, ts: nat, w: RestoreWorld, p: Paths, writeFails: set<nat>, reloadFails: set<Engine>)
    requires Ready(backups, ts, w, p)
    ensures var v := WithFaults(w, writeFails, reloadFails);
      Ready(backups, ts, v, p) && RestoredFiles(backups[ts], v, p) == RestoredFiles(backups[ts], w, p)
      && StagedEngines(backups[ts], v, p) == StagedEngines(backups[ts], w, p)
  {}

  lemma {:induction false} NoneFailsFirst(i: nat, n: nat)
    requires i <= n
    ensures FirstFail(i, n, {}) == n
    decreases n - i
  {
    if i < n { NoneFailsFirst(i + 1, n); }
  }

  /** What is restored is what the folder knows. */
  lemma RestoredIsKnown(folder: Disk, w: RestoreWorld, p: Paths, k: nat)
    requires k < |RestoredFiles(folder, w, p)|
    ensures Known(folder, RestoredFiles(folder, w, p)[k].live, p, w.engines)
  {
    var items := Collect(folder, w.walk, p, w.engines);
    StagedFromItems(Order(items), items, p, k);
    CollectOk(folder, w.walk, p, w.engines);
    CollectKnown(folder, w.walk, p, w.engines);
    var i :| 0 <= i < |items| && MadeFrom(RestoredFiles(folder, w, p)[k], items[i], p);
    assert ItemOk(folder, p, items[i]);
  }

  lemma {:induction false} CollectKnown(folder: Disk, walk: seq<string>, p: Paths, engines: seq<Engine>)
    ensures forall i :: 0 <= i < |Collect(folder, walk, p, engines)| ==> Known(folder, Collect(folder, walk, p, engines)[i].live, p, engines)
    decreases |walk|
  {
    if walk != [] { CollectKnown(folder, walk[1..], p, engines); }
  }

  /** The rollback of a restore is exact under every fault of a write or reload exactly when
      every known file of the folder is on the disk before the call. */
  lemma RestoreSafeIff(disk: Disk, backups: map<nat, Disk>, ts: nat, w: RestoreWorld, p: Paths)
    requires w.spoiled == map[] && Ready(backups, ts, w, p) && Walks(backups[ts], w.walk)
    ensures (forall writeFails: set<nat>, reloadFails: set<Engine> :: RollsBack(disk, backups, ts, w, p, writeFails, reloadFails))
      <==> (forall live :: Known(backups[ts], live, p, w.engines) ==> live in disk)
  {
    var files := RestoredFiles(backups[ts], w, p);
    if forall live :: Known(backups[ts], live, p, w.engines) ==> live in disk {
      forall writeFails: set<nat>, reloadFails: set<Engine> ensures RollsBack(disk, backups, ts, w, p, writeFails, reloadFails) {
        FaultsKeepReady(backups, ts, w, p, writeFails, reloadFails);
        forall i | 0 <= i < |files| ensures files[i].live in disk { RestoredIsKnown(backups[ts], w, p, i); }
        RestoreRollbackIff(disk, backups, ts, WithFaults(w, writeFails, reloadFails), p);
      }
    } else {
      UnsafeFails(disk, backups, ts, w, p);
    }
  }

  /** Otherwise a failing reload leaves a file behind. */
  lemma UnsafeFails(disk: Disk, backups: map<nat, Disk>, ts: nat, w: RestoreWorld, p: Paths)
    requires w.spoiled == map[] && Ready(backups, ts, w, p) && Walks(backups[ts], w.walk)
    requires !forall live :: Known(backups[ts], live, p, w.engines) ==> live in disk
    ensures !RollsBack(disk, backups, ts, w, p, {}, {Nginx, HAProxy})
  {
    var v := WithFaults(w, {}, {Nginx, HAProxy});
    var files := RestoredFiles(backups[ts], w, p);
    FaultsKeepReady(backups, ts, w, p, {}, {Nginx, HAProxy});
    var engines := StagedEngines(backups[ts], v, p);
    assert engines[0].engine in v.reloadFails;
    NoneFailsFirst(0, |files|);
    var live :| Known(backups[ts], live, p, w.engines) && live !in disk;
    KnownIsWritten(backups[ts], w, p, live);
    var k :| 0 <= k < |files| && files[k].live == live;
    RestoreRollbackIff(disk, backups, ts, v, p);
  }

  lemma {:induction false} AllWritten(files: seq<File>, w: RestoreWorld, i: nat)
    requires i <= |files| && !SomeFileFails(files, w)
    ensures FirstFail(i, |files|, w.writeFails) == |files|
    decreases |files| - i
  {
    if i < |files| { AllWritten(files, w, i + 1); }
  }

  method Validate(engines: seq<StagedEngine>, w: RestoreWorld) returns (ok: bool)
    ensures ok <==> !SomeInvalid(engines, w)
  {
    for i := 0 to |engines|
      invariant forall j :: 0 <= j < i ==> engines[j].engine !in w.invalid
    {
      if engines[i].engine in w.invalid {
        return false;
      }
    }
    ok := true;
  }

  method Reload(engines: seq<StagedEngine>, w: RestoreWorld) returns (ok: bool)
    ensures ok <==> !SomeEngineFails(engines, w)
  {
    for i := 0 to |engines|
      invariant forall j :: 0 <= j < i ==> engines[j].engine !in w.reloadFails
    {
      if engines[i].engine in w.reloadFails {
        return false;
      }
    }
    ok := true;
  }

  /** The walk over the folder. */
  method CollectFiles(folder: Disk, w: RestoreWorld, p: Paths) returns (ok: bool, items: seq<Item>)
    ensures ok <==> !SomeReadFails(folder, w, p)
    ensures ok ==> items == Collect(folder, w.walk, p, w.engines)
  {
    items := [];
    assert w.walk[0..] == w.walk;
    for i := 0 to |w.walk|
      invariant forall j :: 0 <= j < i ==> !(Known(folder, w.walk[j], p, w.engines) && w.walk[j] in w.readFails)
      invariant Collect(folder, w.walk, p, w.engines) == items + Collect(folder, w.walk[i..], p, w.engines)
    {
      assert w.walk[i..][1..] == w.walk[i + 1..];
      var c := Classify(p, w.walk[i], w.engines);
      if c.None? || w.walk[i] !in folder {
        continue;
      }
      if w.walk[i] in w.readFails {
        return false, items;
      }
      items := items + [Item(c.value.0, c.value.1, w.walk[i], folder[w.walk[i]])];
    }
    ok := true;
  }

  /** Steps 3 and 4: write everything and reload, or copy the safety folder back. */
  method WriteBack(svc: Service, engines: seq<StagedEngine>, files: seq<File>, w: RestoreWorld) returns (ok: bool)
    requires files == AllFiles(engines)
    modifies svc`disk, svc`history
    ensures ok <==> !SomeFileFails(files, w) && !SomeEngineFails(engines, w)
    ensures ok ==> svc.disk == WriteAll(old(svc.disk), files)
    ensures !ok ==> svc.disk == UndoneAt(old(svc.disk), files, WrittenBefore(files, w), Folder(svc.backups, w.stamp), {}, w.spoiled)
  {
    ok := svc.WriteFiles(files, w.writeFails, Folder(svc.backups, w.stamp), {}, w.spoiled);
    if !ok {
      return;
    }
    ok := Reload(engines, w);
    if !ok {
      svc.RestoreFiles(LivePaths(files), Folder(svc.backups, w.stamp), {}, w.spoiled);
      AllWritten(files, w, 0);
      assert files[..|files|] == files;
    }
  }

  /** `Restore`. */
  method Restore(svc: Service, ts: nat, w: RestoreWorld, p: Paths) returns (ok: bool)
    modifies svc`disk, svc`backups, svc`history
    ensures ok <==> RestoreSucceeds(old(svc.backups), ts, w, p)
    ensures ok ==> svc.disk == WriteAll(old(svc.disk), RestoredFiles(old(svc.backups)[ts], w, p))
    ensures !ok ==> svc.disk == AfterFailure(old(svc.disk), old(svc.backups), ts, w, p)
  {
    if ts !in svc.backups {
      return false;
    }
    var folder := svc.backups[ts];
    var read, items := CollectFiles(folder, w, p);
    if !read {
      return false;
    }
    var engines := StagedIn(Order(items), items, p);
    if engines == [] {
      return false;
    }
    var valid := Validate(engines, w);
    if !valid {
      return false;
    }
    var files := AllFiles(engines);
    var saved := svc.BackupFiles(w.stamp, LivePaths(files), w.backupFails);
    if !saved {
      return false;
    }
    ok := WriteBack(svc, engines, files, w);
  }
}

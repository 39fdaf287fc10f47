/** `Service.ApplyAll` (internal/service/service.go) as a program over the disk, the backup
    folders and the deploy results of the config versions. */
module Service {
  import opened Text
  import opened Model
  import opened Paths
  import opened Apply

  // ---- what the outside world does during one call ----

  datatype Rendering = RenderError | Rendering(files: seq<(string, string)>)

  /** The binaries that are missing, what each engine renders (in map order), which engine
      refuses its files, and which reads, writes, copies and reloads fail. `version` is the
      row recorded for the call, 0 when that failed; `stamp` is the clock. */
  datatype World = World(
    missing: set<Engine>, nginx: Rendering, haproxy: Rendering, invalid: set<Engine>, certsFail: bool,
    backupFails: set<string>, writeFails: set<nat>, reloadFails: set<Engine>, spoiled: Spoiled, version: nat, stamp: nat)

  function Renders(w: World, e: Engine): Rendering {
    match e case Nginx => w.nginx case HAProxy => w.haproxy
  }

  function Name(e: Engine): string {
    match e case Nginx => "nginx" case HAProxy => "haproxy"
  }

  function CountEngine(ms: seq<Mapping>, e: Engine): nat {
    if ms == [] then 0 else (if ms[0].enabled && ms[0].engine == e then 1 else 0) + CountEngine(ms[1..], e)
  }

  // ---- staging ----

  datatype StagedEngine = StagedEngine(engine: Engine, files: seq<File>)

  /** Refused with the deploy result to record, if any. */
  datatype Staging = Refused(result: Option<string>) | Staging(engines: seq<StagedEngine>)

  function LiveFiles(e: Engine, p: Paths, files: seq<(string, string)>): seq<File> {
    if files == [] then [] else [File(LivePath(e, p, files[0].0), files[0].1)] + LiveFiles(e, p, files[1..])
  }

  function StageOne(e: Engine, ms: seq<Mapping>, w: World, p: Paths): Staging {
    if e in w.missing then (if CountEngine(ms, e) > 0 then Refused(None) else Staging([]))
    else if Renders(w, e).RenderError? then Refused(Some("error: render " + Name(e)))
    else if e in w.invalid then Refused(Some("error: validate " + Name(e)))
    else Staging([StagedEngine(e, LiveFiles(e, p, Renders(w, e).files))])
  }

  /** The engines in the order the map hands them out, up to the first refusal. */
  function Stage(order: seq<Engine>, ms: seq<Mapping>, w: World, p: Paths): Staging
    decreases |order|
  {
    if order == [] then Staging([]) else Then(StageOne(order[0], ms, w, p), Stage(order[1..], ms, w, p))
  }

  function Then(x: Staging, y: Staging): Staging {
    if x.Refused? then x else if y.Refused? then y else Staging(x.engines + y.engines)
  }

  /** Every file that will be written, in order. */
  function AllFiles(engines: seq<StagedEngine>): seq<File> {
    if engines == [] then [] else engines[0].files + AllFiles(engines[1..])
  }

  lemma ThenAssociates(x: Staging, y: Staging, z: Staging)
    ensures Then(Then(x, y), z) == Then(x, Then(y, z))
  {
    if x.Staging? && y.Staging? && z.Staging? { assert x.engines + y.engines + z.engines == x.engines + (y.engines + z.engines); }
  }

  lemma {:induction false} AllFilesAppend(x: seq<StagedEngine>, y: seq<StagedEngine>)
    ensures AllFiles(x + y) == AllFiles(x) + AllFiles(y)
    decreases |x|
  {
    if x == [] {
      assert x + y == y;
    } else {
      AllFilesAppend(x[1..], y);
      assert (x + y)[1..] == x[1..] + y;
    }
  }

  lemma {:induction false} LivePathsAppend(x: seq<File>, y: seq<File>)
    ensures LivePaths(x + y) == LivePaths(x) + LivePaths(y)
    decreases |x|
  {
    if x == [] {
      assert x + y == y;
    } else {
      LivePathsAppend(x[1..], y);
      assert (x + y)[1..] == x[1..] + y;
    }
  }

  // ---- the deploy result ----

  predicate SomeReloadFails(engines: seq<StagedEngine>, w: World) {
    exists i :: 0 <= i < |engines| && engines[i].engine in w.reloadFails
  }

  predicate SomeWriteFails(files: seq<File>, w: World) {
    exists i :: 0 <= i < |files| && i in w.writeFails
  }

  /** A path is read, and copied when it exists; either can fail. */
  predicate SomeBackupFails(files: seq<File>, w: World) {
    exists i :: 0 <= i < |files| && files[i].live in w.backupFails
  }

  /** An apply succeeds when nothing it does fails. */
  predicate Succeeds(order: seq<Engine>, ms: seq<Mapping>, w: World, p: Paths) {
    var st := Stage(order, ms, w, p);
    st.Staging? && !w.certsFail && !SomeBackupFails(AllFiles(st.engines), w) && !SomeWriteFails(AllFiles(st.engines), w)
    && !SomeReloadFails(st.engines, w)
  }

  function FirstReloadFailure(engines: seq<StagedEngine>, w: World): string {
    if engines == [] then "" else if engines[0].engine in w.reloadFails then Name(engines[0].engine) else FirstReloadFailure(engines[1..], w)
  }

  function CommitResult(engines: seq<StagedEngine>, files: seq<File>, w: World): Option<string> {
    if SomeWriteFails(files, w) then None
    else if SomeReloadFails(engines, w) then Some("rolled back: reload " + FirstReloadFailure(engines, w))
    else Some("ok")
  }

  predicate Commits(engines: seq<StagedEngine>, files: seq<File>, w: World) {
    !SomeWriteFails(files, w) && !SomeReloadFails(engines, w)
  }

  /** What gets stamped on the version; a missing binary and a failed write stamp nothing. */
  function Result(order: seq<Engine>, ms: seq<Mapping>, w: World, p: Paths): Option<string> {
    var st := Stage(order, ms, w, p);
    if st.Refused? then st.result
    else if w.certsFail then Some("error: cert write")
    else if SomeBackupFails(AllFiles(st.engines), w) then Some("error: backup")
    else CommitResult(st.engines, AllFiles(st.engines), w)
  }

  lemma {:induction false} RefusedIsNotOk(order: seq<Engine>, ms: seq<Mapping>, w: World, p: Paths)
    ensures var st := Stage(order, ms, w, p); st.Refused? && st.result.Some? ==> |st.result.value| > 2
    decreases |order|
  {
    if order != [] { RefusedIsNotOk(order[1..], ms, w, p); }
  }

  /** The recorded result is "ok" exactly for applies that succeed. */
  lemma ResultOkIff(order: seq<Engine>, ms: seq<Mapping>, w: World, p: Paths)
    ensures Result(order, ms, w, p) == Some("ok") <==> Succeeds(order, ms, w, p)
  {
    RefusedIsNotOk(order, ms, w, p);
    var r := Result(order, ms, w, p);
    assert !Succeeds(order, ms, w, p) && r.Some? ==> |r.value| > 2;
  }

  // ---- what staging must refuse ----

  ghost predicate Needed(ms: seq<Mapping>, e: Engine) {
    exists i :: 0 <= i < |ms| && ms[i].enabled && ms[i].engine == e
  }

  predicate RendersFiles(e: Engine, w: World) {
    (e == Nginx ==> w.nginx.Rendering?) && (e == HAProxy ==> w.haproxy.Rendering?)
  }

  /** The engine is installed, renders and accepts its files, or nobody needs it. */
  ghost predicate CanStage(e: Engine, ms: seq<Mapping>, w: World) {
    if e in w.missing then !Needed(ms, e) else RendersFiles(e, w) && e !in w.invalid
  }

  ghost predicate AllCanStage(order: seq<Engine>, ms: seq<Mapping>, w: World) {
    forall i :: 0 <= i < |order| ==> CanStage(order[i], ms, w)
  }

  /** The first engine of the order that cannot be staged. */
  ghost predicate FirstUnable(order: seq<Engine>, ms: seq<Mapping>, w: World, i: nat) {
    i < |order| && !CanStage(order[i], ms, w) && forall j :: 0 <= j < i ==> CanStage(order[j], ms, w)
  }

  /** What is recorded when that engine ends the apply. */
  function RefusalOf(e: Engine, w: World): Option<string> {
    if e in w.missing then None
    else if !RendersFiles(e, w) then Some(if e == Nginx then "error: render nginx" else "error: render haproxy")
    else Some(if e == Nginx then "error: validate nginx" else "error: validate haproxy")
  }

  lemma {:induction false} CountIsNeed(ms: seq<Mapping>, e: Engine)
    ensures CountEngine(ms, e) > 0 <==> Needed(ms, e)
  {
    if ms != [] {
      CountIsNeed(ms[1..], e);
      if Needed(ms[1..], e) {
        var i :| 0 <= i < |ms[1..]| && ms[1..][i].enabled && ms[1..][i].engine == e;
        assert ms[i + 1].enabled;
      }
      if Needed(ms, e) && !(ms[0].enabled && ms[0].engine == e) {
        var i :| 0 <= i < |ms| && ms[i].enabled && ms[i].engine == e;
        assert ms[1..][i - 1].enabled;
      }
    }
  }

  lemma OneStages(e: Engine, ms: seq<Mapping>, w: World, p: Paths)
    ensures StageOne(e, ms, w, p).Staging? <==> CanStage(e, ms, w)
    ensures !CanStage(e, ms, w) ==> StageOne(e, ms, w, p) == Refused(RefusalOf(e, w))
  {
    CountIsNeed(ms, e);
    assert "error: render " + "nginx" == "error: render nginx" && "error: render " + "haproxy" == "error: render haproxy";
    assert "error: validate " + "nginx" == "error: validate nginx" && "error: validate " + "haproxy" == "error: validate haproxy";
  }

  lemma {:induction false} StagesIff(order: seq<Engine>, ms: seq<Mapping>, w: World, p: Paths)
    ensures Stage(order, ms, w, p).Staging? <==> AllCanStage(order, ms, w)
    decreases |order|
  {
    if order != [] {
      OneStages(order[0], ms, w, p);
      StagesIff(order[1..], ms, w, p);
      assert forall i :: 0 <= i < |order[1..]| ==> order[1..][i] == order[i + 1];
      if AllCanStage(order, ms, w) {
        forall i | 0 <= i < |order[1..]| ensures CanStage(order[1..][i], ms, w) { assert CanStage(order[i + 1], ms, w); }
      }
      if CanStage(order[0], ms, w) && AllCanStage(order[1..], ms, w) {
        forall i | 0 <= i < |order| ensures CanStage(order[i], ms, w) { if i > 0 { assert CanStage(order[1..][i - 1], ms, w); } }
      }
    }
  }

  lemma {:induction false} RefusedBy(order: seq<Engine>, ms: seq<Mapping>, w: World, p: Paths, i: nat)
    requires FirstUnable(order, ms, w, i)
    ensures Stage(order, ms, w, p) == Refused(RefusalOf(order[i], w))
    decreases |order|
  {
    OneStages(order[0], ms, w, p);
    if i > 0 {
      assert CanStage(order[0], ms, w);
      forall j | 0 <= j < i - 1 ensures CanStage(order[1..][j], ms, w) { assert order[1..][j] == order[j + 1]; }
      RefusedBy(order[1..], ms, w, p, i - 1);
    }
  }

  lemma {:induction false} SomeFirstUnable(order: seq<Engine>, ms: seq<Mapping>, w: World) returns (i: nat)
    requires !AllCanStage(order, ms, w)
    ensures FirstUnable(order, ms, w, i)
    decreases |order|
  {
    if !CanStage(order[0], ms, w) {
      i := 0;
    } else {
      var k :| 0 <= k < |order| && !CanStage(order[k], ms, w);
      assert order[1..][k - 1] == order[k];
      var j := SomeFirstUnable(order[1..], ms, w);
      i := j + 1;
      forall j | 0 <= j < i ensures CanStage(order[j], ms, w) { if j > 0 { assert order[1..][j - 1] == order[j]; } }
    }
  }

  /** An apply gets past staging exactly when every engine can be staged; the first that
      cannot decides what is recorded, and nothing succeeds. */
  lemma RefusedIff(order: seq<Engine>, ms: seq<Mapping>, w: World, p: Paths)
    ensures !AllCanStage(order, ms, w) ==> !Succeeds(order, ms, w, p) && !BacksUp(order, ms, w, p) && ApplyFiles(order, ms, w, p) == []
    ensures AllCanStage(order, ms, w) && !w.certsFail && w.backupFails == {} ==> BacksUp(order, ms, w, p)
    ensures forall i: nat :: FirstUnable(order, ms, w, i) ==> Result(order, ms, w, p) == RefusalOf(order[i], w)
  {
    StagesIff(order, ms, w, p);
    forall i: nat | FirstUnable(order, ms, w, i) ensures Result(order, ms, w, p) == RefusalOf(order[i], w) { RefusedBy(order, ms, w, p, i); }
  }

  // ---- when an apply succeeds ----

  function RenderedFiles(e: Engine, w: World): seq<(string, string)> {
    match e
    case Nginx => if w.nginx.Rendering? then w.nginx.files else []
    case HAProxy => if w.haproxy.Rendering? then w.haproxy.files else []
  }

  /** How many files the installed engines render. */
  function FileCount(order: seq<Engine>, w: World): nat {
    if order == [] then 0 else (if order[0] in w.missing then 0 else |RenderedFiles(order[0], w)|) + FileCount(order[1..], w)
  }

  /** No live path of an installed engine fails to be copied. */
  ghost predicate BackupsSound(order: seq<Engine>, w: World, p: Paths) {
    forall i, k :: 0 <= i < |order| && order[i] !in w.missing && 0 <= k < |RenderedFiles(order[i], w)| ==>
      LivePath(order[i], p, RenderedFiles(order[i], w)[k].0) !in w.backupFails
  }

  ghost predicate ReloadsSound(order: seq<Engine>, w: World) {
    forall i :: 0 <= i < |order| && order[i] !in w.missing ==> order[i] !in w.reloadFails
  }

  lemma {:induction false} StagedCount(order: seq<Engine>, ms: seq<Mapping>, w: World, p: Paths)
    requires AllCanStage(order, ms, w)
    ensures Stage(order, ms, w, p).Staging? && |AllFiles(Stage(order, ms, w, p).engines)| == FileCount(order, w)
    decreases |order|
  {
    StagesIff(order, ms, w, p);
    if order != [] {
      TailCanStage(order, ms, w);
      StagedCount(order[1..], ms, w, p);
      OneStagedCount(order[0], ms, w, p);
      AllFilesAppend(StageOne(order[0], ms, w, p).engines, Stage(order[1..], ms, w, p).engines);
    }
  }

  lemma TailCanStage(order: seq<Engine>, ms: seq<Mapping>, w: World)
    requires order != [] && AllCanStage(order, ms, w)
    ensures AllCanStage(order[1..], ms, w) && CanStage(order[0], ms, w)
  {
    forall i | 0 <= i < |order[1..]| ensures CanStage(order[1..][i], ms, w) { assert CanStage(order[i + 1], ms, w); }
  }

  lemma OneStagedCount(e: Engine, ms: seq<Mapping>, w: World, p: Paths)
    requires CanStage(e, ms, w)
    ensures var one := StageOne(e, ms, w, p);
      && one.Staging? && |AllFiles(one.engines)| == (if e in w.missing then 0 else |RenderedFiles(e, w)|)
      && (e in w.missing ==> one.engines == [])
      && (e !in w.missing ==> one.engines == [StagedEngine(e, LiveFiles(e, p, RenderedFiles(e, w)))])
  {
    OneStages(e, ms, w, p);
    OneEngine(StageOne(e, ms, w, p).engines);
    LiveFilesAt(e, p, RenderedFiles(e, w));
  }

  lemma {:induction false} StagedReloads(order: seq<Engine>, ms: seq<Mapping>, w: World, p: Paths)
    requires AllCanStage(order, ms, w)
    ensures Stage(order, ms, w, p).Staging? && (SomeReloadFails(Stage(order, ms, w, p).engines, w) <==> !ReloadsSound(order, w))
    decreases |order|
  {
    StagesIff(order, ms, w, p);
    if order != [] {
      TailCanStage(order, ms, w);
      StagedReloads(order[1..], ms, w, p);
      OneStagedCount(order[0], ms, w, p);
      ReloadsAppend(StageOne(order[0], ms, w, p).engines, Stage(order[1..], ms, w, p).engines, w);
      ReloadsCons(order, w);
    }
  }

  lemma ReloadsAppend(x: seq<StagedEngine>, y: seq<StagedEngine>, w: World)
    ensures SomeReloadFails(x + y, w) <==> SomeReloadFails(x, w) || SomeReloadFails(y, w)
  {
    var all := x + y;
    assert forall i :: 0 <= i < |x| ==> all[i] == x[i];
    assert forall i :: 0 <= i < |y| ==> all[|x| + i] == y[i];
  }

  lemma ReloadsCons(order: seq<Engine>, w: World)
    requires order != []
    ensures ReloadsSound(order, w) <==> (order[0] !in w.missing ==> order[0] !in w.reloadFails) && ReloadsSound(order[1..], w)
  {
    assert forall i :: 0 <= i < |order[1..]| ==> order[1..][i] == order[i + 1];
    if ReloadsSound(order, w) {
      forall i | 0 <= i < |order[1..]| && order[1..][i] !in w.missing ensures order[1..][i] !in w.reloadFails { assert order[i + 1] !in w.missing; }
    }
  }

  lemma {:induction false} StagedBackups(order: seq<Engine>, ms: seq<Mapping>, w: World, p: Paths)
    requires AllCanStage(order, ms, w)
    ensures Stage(order, ms, w, p).Staging? && (SomeBackupFails(AllFiles(Stage(order, ms, w, p).engines), w) <==> !BackupsSound(order, w, p))
    decreases |order|
  {
    StagesIff(order, ms, w, p);
    if order != [] {
      TailCanStage(order, ms, w);
      StagedBackups(order[1..], ms, w, p);
      OneStagedCount(order[0], ms, w, p);
      var head, tail := StageOne(order[0], ms, w, p).engines, Stage(order[1..], ms, w, p).engines;
      OneBackups(order[0], head, w, p);
      AllFilesAppend(head, tail);
      BackupsAppend(AllFiles(head), AllFiles(tail), w);
      BackupsCons(order, w, p);
    }
  }

  ghost predicate OneSound(e: Engine, w: World, p: Paths) {
    e !in w.missing ==> forall k :: 0 <= k < |RenderedFiles(e, w)| ==> LivePath(e, p, RenderedFiles(e, w)[k].0) !in w.backupFails
  }

  lemma OneBackups(e: Engine, head: seq<StagedEngine>, w: World, p: Paths)
    requires if e in w.missing then head == [] else head == [StagedEngine(e, LiveFiles(e, p, RenderedFiles(e, w)))]
    ensures SomeBackupFails(AllFiles(head), w) <==> !OneSound(e, w, p)
  {
    OneEngine(head);
    var files := RenderedFiles(e, w);
    LiveFilesAt(e, p, files);
    if e !in w.missing {
      assert forall k :: 0 <= k < |files| ==> AllFiles(head)[k].live == LivePath(e, p, files[k].0);
    }
  }

  lemma BackupsAppend(x: seq<File>, y: seq<File>, w: World)
    ensures SomeBackupFails(x + y, w) <==> SomeBackupFails(x, w) || SomeBackupFails(y, w)
  {
    var all := x + y;
    assert forall i :: 0 <= i < |x| ==> all[i] == x[i];
    assert forall i :: 0 <= i < |y| ==> all[|x| + i] == y[i];
  }

  lemma BackupsCons(order: seq<Engine>, w: World, p: Paths)
    requires order != []
    ensures BackupsSound(order, w, p) <==> OneSound(order[0], w, p) && BackupsSound(order[1..], w, p)
  {
    var rest := order[1..];
    assert forall i :: 0 <= i < |rest| ==> rest[i] == order[i + 1];
    if BackupsSound(order, w, p) {
      forall i, k | 0 <= i < |rest| && rest[i] !in w.missing && 0 <= k < |RenderedFiles(rest[i], w)|
        ensures LivePath(rest[i], p, RenderedFiles(rest[i], w)[k].0) !in w.backupFails
      {
        assert order[i + 1] !in w.missing;
      }
    }
  }

  /** An apply succeeds exactly when every engine can be staged, the certificates are
      written, every live path is copied, every write goes through and every installed
      engine reloads. */
  lemma SucceedsIff(order: seq<Engine>, ms: seq<Mapping>, w: World, p: Paths)
    ensures Succeeds(order, ms, w, p) <==>
      AllCanStage(order, ms, w) && !w.certsFail && BackupsSound(order, w, p)
      && (forall n :: n in w.writeFails ==> n >= FileCount(order, w)) && ReloadsSound(order, w)
  {
    StagesIff(order, ms, w, p);
    if AllCanStage(order, ms, w) {
      StagedCount(order, ms, w, p);
      StagedReloads(order, ms, w, p);
      StagedBackups(order, ms, w, p);
      WritesCount(AllFiles(Stage(order, ms, w, p).engines), w);
    }
  }

  lemma WritesCount(files: seq<File>, w: World)
    ensures SomeWriteFails(files, w) <==> !forall n :: n in w.writeFails ==> n >= |files|
  {}

  /** The first engine of the order that is installed and does not reload. */
  ghost predicate FirstUnloadable(order: seq<Engine>, w: World, i: nat) {
    && i < |order| && order[i] !in w.missing && order[i] in w.reloadFails
    && forall j :: 0 <= j < i ==> order[j] in w.missing || order[j] !in w.reloadFails
  }

  lemma {:induction false} FailsFirst(order: seq<Engine>, ms: seq<Mapping>, w: World, p: Paths, i: nat)
    requires AllCanStage(order, ms, w) && FirstUnloadable(order, w, i)
    ensures Stage(order, ms, w, p).Staging?
    ensures FirstReloadFailure(Stage(order, ms, w, p).engines, w) == if order[i] == Nginx then "nginx" else "haproxy"
    decreases |order|
  {
    StagesIff(order, ms, w, p);
    TailCanStage(order, ms, w);
    OneStagedCount(order[0], ms, w, p);
    StagesIff(order[1..], ms, w, p);
    var head, tail := StageOne(order[0], ms, w, p).engines, Stage(order[1..], ms, w, p).engines;
    if i > 0 {
      assert FirstUnloadable(order[1..], w, i - 1);
      FailsFirst(order[1..], ms, w, p, i - 1);
      if head != [] { assert (head + tail)[1..] == tail; } else { assert head + tail == tail; }
    }
  }

  /** The result of an apply that gets past staging and then fails, step by step. */
  lemma ResultSays(order: seq<Engine>, ms: seq<Mapping>, w: World, p: Paths, i: nat)
    requires AllCanStage(order, ms, w)
    ensures w.certsFail ==> Result(order, ms, w, p) == Some("error: cert write")
    ensures !w.certsFail && !BackupsSound(order, w, p) ==> Result(order, ms, w, p) == Some("error: backup")
    ensures BacksUp(order, ms, w, p) <==> !w.certsFail && BackupsSound(order, w, p)
    ensures BacksUp(order, ms, w, p) && !(forall n :: n in w.writeFails ==> n >= FileCount(order, w)) ==> Result(order, ms, w, p) == None
    ensures BacksUp(order, ms, w, p) && (forall n :: n in w.writeFails ==> n >= FileCount(order, w)) && FirstUnloadable(order, w, i) ==>
      Result(order, ms, w, p) == Some("rolled back: reload " + (if order[i] == Nginx then "nginx" else "haproxy"))
  {
    StagesIff(order, ms, w, p);
    StagedCount(order, ms, w, p);
    StagedBackups(order, ms, w, p);
    WritesCount(AllFiles(Stage(order, ms, w, p).engines), w);
    if FirstUnloadable(order, w, i) {
      FailsFirst(order, ms, w, p, i);
      StagedReloads(order, ms, w, p);
    }
  }

  // ---- applies without a result ----

  /** The first engine that cannot be staged, in the given order, is one whose binary is
      missing and which mappings need. */
  ghost predicate StopsAtMissing(order: seq<Engine>, ms: seq<Mapping>, w: World) {
    exists i: nat :: FirstUnable(order, ms, w, i) && order[i] in w.missing
  }

  lemma OneFirst(order: seq<Engine>, ms: seq<Mapping>, w: World, i: nat, j: nat)
    requires FirstUnable(order, ms, w, i) && FirstUnable(order, ms, w, j)
    ensures i == j
  {}

  lemma RefusedSilentlyIff(order: seq<Engine>, ms: seq<Mapping>, w: World, p: Paths)
    ensures Stage(order, ms, w, p) == Refused(None) <==> StopsAtMissing(order, ms, w)
  {
    StagesIff(order, ms, w, p);
    if !AllCanStage(order, ms, w) {
      var i := SomeFirstUnable(order, ms, w);
      RefusedBy(order, ms, w, p, i);
      forall j: nat | FirstUnable(order, ms, w, j) ensures j == i { OneFirst(order, ms, w, i, j); }
      assert order[i] in w.missing <==> RefusalOf(order[i], w) == None;
    }
  }

  /** An apply ends without a deploy result exactly when it stops at a missing binary, or
      gets as far as writing and a write fails. */
  lemma NoResultIff(order: seq<Engine>, ms: seq<Mapping>, w: World, p: Paths)
    ensures Result(order, ms, w, p) == None
      <==> StopsAtMissing(order, ms, w) || (BacksUp(order, ms, w, p) && SomeWriteFails(ApplyFiles(order, ms, w, p), w))
  {
    RefusedSilentlyIff(order, ms, w, p);
  }

  /** What the version row of an apply ends with: nothing in exactly those cases, although
      the apply failed; otherwise the result. */
  lemma RowStaysEmptyIff(results: map<nat, string>, order: seq<Engine>, ms: seq<Mapping>, w: World, p: Paths)
    requires w.version > 0
    ensures var after := Stamped(results, w.version, Result(order, ms, w, p));
      && w.version in after
      && (after[w.version] == "" <==>
            StopsAtMissing(order, ms, w) || (BacksUp(order, ms, w, p) && SomeWriteFails(ApplyFiles(order, ms, w, p), w)))
      && (after[w.version] == "" ==> !Succeeds(order, ms, w, p))
  {
    NoResultIff(order, ms, w, p);
    ResultOkIff(order, ms, w, p);
    RefusedIsNotOk(order, ms, w, p);
  }

  /** One apply of one nginx file whose only write fails. */
  const FULL_DISK := World({HAProxy}, Rendering([("nginx.conf", "events {}")]), RenderError, {}, false, {}, {0}, {}, map[], 1, 7)

  /** It fails, and its version row stays without a result. */
  lemma FailedWriteIsNotRecorded(p: Paths)
    ensures !Succeeds([Nginx], [], FULL_DISK, p)
    ensures Stamped(map[], 1, Result([Nginx], [], FULL_DISK, p)) == map[1 := ""]
  {
    StagesOneFile(p);
    var files := ApplyFiles([Nginx], [], FULL_DISK, p);
    assert 0 < |files| && 0 in FULL_DISK.writeFails;
    NoResultIff([Nginx], [], FULL_DISK, p);
    ResultOkIff([Nginx], [], FULL_DISK, p);
  }

  /** Nor does an apply that finds nginx missing while a mapping needs it. */
  lemma MissingBinaryIsNotRecorded(m: Mapping, p: Paths)
    requires m.enabled && m.engine == Nginx
    ensures var w := FULL_DISK.(missing := {Nginx});
      !Succeeds([Nginx], [m], w, p) && Stamped(map[], 1, Result([Nginx], [m], w, p)) == map[1 := ""]
  {
    var w := FULL_DISK.(missing := {Nginx});
    assert [m][0].enabled && Needed([m], Nginx);
    assert FirstUnable([Nginx], [m], w, 0);
    NoResultIff([Nginx], [m], w, p);
    ResultOkIff([Nginx], [m], w, p);
  }

  lemma StagesOneFile(p: Paths)
    ensures Stage([Nginx], [], FULL_DISK, p).Staging? && |ApplyFiles([Nginx], [], FULL_DISK, p)| == 1
  {
    var files := FULL_DISK.nginx.files;
    var order := [Nginx];
    LiveFilesAt(Nginx, p, files);
    assert order[1..] == [] && Stage([], [], FULL_DISK, p) == Staging([]);
    OneEngine(Stage(order, [], FULL_DISK, p).engines);
  }

  // ---- what a successful apply leaves ----

  /** The staged names of a rendering are the engine's own, each at most once. */
  predicate ProperRendering(e: Engine, r: Rendering) {
    r.Rendering? ==>
      && (forall i :: 0 <= i < |r.files| ==> Staged(e, r.files[i].0))
      && (forall i, j :: 0 <= i < j < |r.files| ==> r.files[i].0 != r.files[j].0)
  }

  lemma {:induction false} LiveFilesAt(e: Engine, p: Paths, files: seq<(string, string)>)
    ensures |LiveFiles(e, p, files)| == |files|
    ensures forall i :: 0 <= i < |files| ==> LiveFiles(e, p, files)[i] == File(LivePath(e, p, files[i].0), files[i].1)
  {
    if files != [] { LiveFilesAt(e, p, files[1..]); }
  }

  /** Where a staged file comes from. */
  ghost predicate From(f: File, e: Engine, w: World, p: Paths) {
    Renders(w, e).Rendering? && exists i :: 0 <= i < |Renders(w, e).files| && IsFile(f, e, p, Renders(w, e).files[i])
  }

  ghost predicate IsFile(f: File, e: Engine, p: Paths, entry: (string, string)) {
    f == File(LivePath(e, p, entry.0), entry.1)
  }

  ghost predicate FromSome(f: File, order: seq<Engine>, w: World, p: Paths) {
    exists e :: e in order && From(f, e, w, p)
  }

  lemma {:induction false} StagedFrom(order: seq<Engine>, ms: seq<Mapping>, w: World, p: Paths, i: nat)
    requires Stage(order, ms, w, p).Staging? && i < |AllFiles(Stage(order, ms, w, p).engines)|
    ensures FromSome(AllFiles(Stage(order, ms, w, p).engines)[i], order, w, p)
    decreases |order|
  {
    var head, tail := StageOne(order[0], ms, w, p), Stage(order[1..], ms, w, p);
    AllFilesAppend(head.engines, tail.engines);
    var f := AllFiles(Stage(order, ms, w, p).engines)[i];
    if i < |AllFiles(head.engines)| {
      OneEngine(head.engines);
      var files := Renders(w, order[0]).files;
      LiveFilesAt(order[0], p, files);
      assert IsFile(f, order[0], p, files[i]);
      assert From(f, order[0], w, p);
    } else {
      StagedFrom(order[1..], ms, w, p, i - |AllFiles(head.engines)|);
      var e :| e in order[1..] && From(f, e, w, p);
      assert e in order;
    }
  }

  lemma OneEngine(engines: seq<StagedEngine>)
    requires |engines| <= 1
    ensures AllFiles(engines) == if engines == [] then [] else engines[0].files
  {
    if engines != [] { assert engines[1..] == []; }
  }

  ghost predicate OncePerPath(files: seq<File>) {
    forall i, j :: 0 <= i < j < |files| ==> files[i].live != files[j].live
  }

  predicate NoRepeats(order: seq<Engine>) {
    forall i, j :: 0 <= i < j < |order| ==> order[i] != order[j]
  }

  lemma LaterEnginesElsewhere(order: seq<Engine>, ms: seq<Mapping>, w: World, p: Paths, i: nat, j: nat)
    requires NginxPathsDiffer(p) && EnginesApart(p) && NoRepeats(order) && order != []
    requires forall e :: ProperRendering(e, Renders(w, e))
    requires Renders(w, order[0]).Rendering? && i < |LiveFiles(order[0], p, Renders(w, order[0]).files)|
    requires Stage(order[1..], ms, w, p).Staging? && j < |AllFiles(Stage(order[1..], ms, w, p).engines)|
    ensures LiveFiles(order[0], p, Renders(w, order[0]).files)[i].live != AllFiles(Stage(order[1..], ms, w, p).engines)[j].live
  {
    LiveFilesAt(order[0], p, Renders(w, order[0]).files);
    StagedFrom(order[1..], ms, w, p, j);
    var f := AllFiles(Stage(order[1..], ms, w, p).engines)[j];
    var e :| e in order[1..] && From(f, e, w, p);
    EnginesKeepApart(order[0], e, LiveFiles(order[0], p, Renders(w, order[0]).files)[i], f, w, p, i);
  }

  /** When no two live paths coincide, an apply writes each path once. */
  lemma {:induction false} StagedOncePerPath(order: seq<Engine>, ms: seq<Mapping>, w: World, p: Paths)
    requires NginxPathsDiffer(p) && EnginesApart(p) && NoRepeats(order)
    requires forall e :: ProperRendering(e, Renders(w, e))
    requires Stage(order, ms, w, p).Staging?
    ensures OncePerPath(AllFiles(Stage(order, ms, w, p).engines))
    decreases |order|
  {
    if order != [] {
      var head, tail := StageOne(order[0], ms, w, p), Stage(order[1..], ms, w, p);
      StagedOncePerPath(order[1..], ms, w, p);
      AllFilesAppend(head.engines, tail.engines);
      OneEngine(head.engines);
      if head.engines != [] {
        EngineOncePerPath(order[0], w, p);
        forall i, j | 0 <= i < |AllFiles(head.engines)| && 0 <= j < |AllFiles(tail.engines)|
          ensures AllFiles(head.engines)[i].live != AllFiles(tail.engines)[j].live
        {
          LaterEnginesElsewhere(order, ms, w, p, i, j);
        }
      }
    }
  }

  lemma EngineOncePerPath(e: Engine, w: World, p: Paths)
    requires NginxPathsDiffer(p) && EnginesApart(p) && ProperRendering(e, Renders(w, e)) && Renders(w, e).Rendering?
    ensures OncePerPath(LiveFiles(e, p, Renders(w, e).files))
  {
    var files := Renders(w, e).files;
    LiveFilesAt(e, p, files);
    forall i, j | 0 <= i < j < |files| ensures LivePath(e, p, files[i].0) != LivePath(e, p, files[j].0) {
      if LivePath(e, p, files[i].0) == LivePath(e, p, files[j].0) { LivePathsDiffer(p, e, files[i].0, e, files[j].0); }
    }
  }

  lemma EnginesKeepApart(d: Engine, e: Engine, f: File, g: File, w: World, p: Paths, i: nat)
    requires NginxPathsDiffer(p) && EnginesApart(p) && d != e
    requires ProperRendering(d, Renders(w, d)) && ProperRendering(e, Renders(w, e))
    requires Renders(w, d).Rendering? && i < |Renders(w, d).files| && IsFile(f, d, p, Renders(w, d).files[i]) && From(g, e, w, p)
    ensures f.live != g.live
  {
    var j :| 0 <= j < |Renders(w, e).files| && IsFile(g, e, p, Renders(w, e).files[j]);
    if f.live == g.live { LivePathsDiffer(p, d, Renders(w, d).files[i].0, e, Renders(w, e).files[j].0); }
  }

  function ApplyFiles(order: seq<Engine>, ms: seq<Mapping>, w: World, p: Paths): seq<File> {
    var st := Stage(order, ms, w, p);
    if st.Staging? then AllFiles(st.engines) else []
  }

  ghost predicate Includes(files: seq<File>, f: File) {
    exists k :: 0 <= k < |files| && files[k] == f
  }

  lemma {:induction false} StagedIncludes(order: seq<Engine>, ms: seq<Mapping>, w: World, p: Paths, e: Engine, i: nat)
    requires Stage(order, ms, w, p).Staging? && e in order && e !in w.missing
    requires Renders(w, e).Rendering? && i < |Renders(w, e).files|
    ensures Includes(AllFiles(Stage(order, ms, w, p).engines), File(LivePath(e, p, Renders(w, e).files[i].0), Renders(w, e).files[i].1))
    decreases |order|
  {
    var head, tail := StageOne(order[0], ms, w, p), Stage(order[1..], ms, w, p);
    var f := File(LivePath(e, p, Renders(w, e).files[i].0), Renders(w, e).files[i].1);
    AllFilesAppend(head.engines, tail.engines);
    if e == order[0] {
      OneEngine(head.engines);
      LiveFilesAt(e, p, Renders(w, e).files);
      assert AllFiles(Stage(order, ms, w, p).engines)[i] == f;
    } else {
      StagedIncludes(order[1..], ms, w, p, e, i);
      var k :| 0 <= k < |AllFiles(tail.engines)| && AllFiles(tail.engines)[k] == f;
      assert AllFiles(Stage(order, ms, w, p).engines)[|AllFiles(head.engines)| + k] == f;
    }
  }

  /** A successful apply leaves every file of every engine that is installed with the
      content rendered for it, when no two live paths coincide. */
  lemma SuccessLeavesRendered(disk: Disk, order: seq<Engine>, ms: seq<Mapping>, w: World, p: Paths, e: Engine, i: nat)
    requires NginxPathsDiffer(p) && EnginesApart(p) && NoRepeats(order)
    requires forall d :: ProperRendering(d, Renders(w, d))
    requires Succeeds(order, ms, w, p) && e in order && e !in w.missing
    requires Renders(w, e).Rendering? && i < |Renders(w, e).files|
    ensures At(WriteAll(disk, ApplyFiles(order, ms, w, p)), LivePath(e, p, Renders(w, e).files[i].0)) == Some(Renders(w, e).files[i].1)
  {
    var files := ApplyFiles(order, ms, w, p);
    StagedIncludes(order, ms, w, p, e, i);
    StagedOncePerPath(order, ms, w, p);
    var k :| 0 <= k < |files| && files[k] == File(LivePath(e, p, Renders(w, e).files[i].0), Renders(w, e).files[i].1);
    WriteAllContents(disk, files, k);
  }

  // ---- backup folders ----

  const KEEP := 20

  function Folder(backups: map<nat, Disk>, stamp: nat): Disk {
    if stamp in backups then backups[stamp] else map[]
  }

  ghost predicate IsLeast(s: set<nat>, m: nat) {
    m in s && forall x :: x in s ==> m <= x
  }

  lemma {:induction false} LeastExists(s: set<nat>)
    requires s != {}
    ensures exists m :: IsLeast(s, m)
    decreases s
  {
    var x :| x in s;
    if s == {x} {
      assert IsLeast(s, x);
    } else {
      LeastExists(s - {x});
      var m :| IsLeast(s - {x}, m);
      var least := if x < m then x else m;
      forall y | y in s ensures least <= y { assert y == x || y in s - {x}; }
      assert IsLeast(s, least);
    }
  }

  function Least(s: set<nat>): (m: nat)
    requires s != {}
    ensures IsLeast(s, m)
  {
    LeastExists(s);
    var m :| m in s && forall x :: x in s ==> m <= x;
    m
  }

  /** The folders that pruning keeps: the newest ones. */
  function Newest(stamps: set<nat>, keep: nat): set<nat>
    decreases |stamps|
  {
    if |stamps| <= keep then stamps else Newest(stamps - {Least(stamps)}, keep)
  }

  /** Pruning leaves as many folders as it may, and every one is newer than every folder
      it removes. */
  lemma {:induction false} NewestAreNewest(stamps: set<nat>, keep: nat)
    ensures Newest(stamps, keep) <= stamps && (|stamps| <= keep ==> Newest(stamps, keep) == stamps)
    ensures |Newest(stamps, keep)| == if |stamps| <= keep then |stamps| else keep
    ensures forall x, y :: x in Newest(stamps, keep) && y in stamps - Newest(stamps, keep) ==> y < x
    decreases |stamps|
  {
    if |stamps| > keep {
      var least := Least(stamps);
      var rest := stamps - {least};
      NewestAreNewest(rest, keep);
      forall x, y | x in Newest(rest, keep) && y in stamps - Newest(rest, keep) ensures y < x {
        assert x in rest && (y == least || y in rest - Newest(rest, keep));
      }
    }
  }

  function Pruned(backups: map<nat, Disk>): map<nat, Disk> {
    map s | s in Newest(backups.Keys, KEEP) && s in backups :: backups[s]
  }

  lemma {:induction false} LatestIsKept(stamps: set<nat>, stamp: nat, keep: nat)
    requires stamp in stamps && (forall s :: s in stamps ==> s <= stamp) && keep > 0
    ensures stamp in Newest(stamps, keep)
    decreases |stamps|
  {
    if |stamps| > keep {
      var rest := stamps - {Least(stamps)};
      assert |rest| > 0;
      var x :| x in rest;
      assert Least(stamps) < x <= stamp;
      LatestIsKept(rest, stamp, keep);
    }
  }

  /** Twenty folders stay, the newest, as they were. */
  lemma PrunedIsNewest(backups: map<nat, Disk>)
    ensures |Pruned(backups)| == if |backups| <= 20 then |backups| else 20
    ensures forall s :: s in Pruned(backups) ==> s in backups && Pruned(backups)[s] == backups[s]
    ensures forall s, t :: s in Pruned(backups) && t in backups && t !in Pruned(backups) ==> t < s
  {
    NewestAreNewest(backups.Keys, KEEP);
    assert Pruned(backups).Keys == Newest(backups.Keys, KEEP);
    forall s, t | s in Pruned(backups) && t in backups && t !in Pruned(backups) ensures t < s {
      assert s in Newest(backups.Keys, KEEP) && t in backups.Keys - Newest(backups.Keys, KEEP);
    }
    assert |Pruned(backups)| == |Pruned(backups).Keys| && |backups| == |backups.Keys|;
  }

  /** The newest folder survives pruning. */
  lemma PruneKeepsLatest(backups: map<nat, Disk>, stamp: nat)
    requires forall s :: s in backups ==> s <= stamp
    ensures Folder(Pruned(backups), stamp) == Folder(backups, stamp)
  {
    if stamp in backups { LatestIsKept(backups.Keys, stamp, KEEP); }
  }

  // ---- the versions table ----

  /** A recorded apply starts without a result and gets at most one. */
  function Stamped(results: map<nat, string>, version: nat, result: Option<string>): map<nat, string> {
    if version == 0 then results else results[version := if result.Some? then result.value else ""]
  }

  /** The call got as far as a complete backup. */
  predicate BacksUp(order: seq<Engine>, ms: seq<Mapping>, w: World, p: Paths) {
    var st := Stage(order, ms, w, p);
    st.Staging? && !w.certsFail && !SomeBackupFails(AllFiles(st.engines), w)
  }

  predicate NoneIn(paths: seq<string>, fails: set<string>) {
    forall i :: 0 <= i < |paths| ==> paths[i] !in fails
  }

  lemma BackupFailsAt(files: seq<File>, w: World)
    ensures SomeBackupFails(files, w) <==> !NoneIn(LivePaths(files), w.backupFails)
  {
    LivePathsAt(files);
    if SomeBackupFails(files, w) {
      var i :| 0 <= i < |files| && files[i].live in w.backupFails;
      assert LivePaths(files)[i] in w.backupFails;
    }
  }

  /** After a complete backup the rest decides. */
  lemma AfterBackup(order: seq<Engine>, ms: seq<Mapping>, w: World, p: Paths)
    requires BacksUp(order, ms, w, p)
    ensures var st := Stage(order, ms, w, p);
      && ApplyFiles(order, ms, w, p) == AllFiles(st.engines)
      && (Succeeds(order, ms, w, p) <==> Commits(st.engines, AllFiles(st.engines), w))
      && Result(order, ms, w, p) == CommitResult(st.engines, AllFiles(st.engines), w)
  {}

  lemma NoBackup(order: seq<Engine>, ms: seq<Mapping>, w: World, p: Paths)
    requires !BacksUp(order, ms, w, p)
    ensures !Succeeds(order, ms, w, p)
  {}

  /** The index of the first write that fails; `n` when none does. */
  function FirstFail(i: nat, n: nat, fails: set<nat>): (k: nat)
    requires i <= n
    ensures i <= k <= n
    decreases n - i
  {
    if i == n || i in fails then i else FirstFail(i + 1, n, fails)
  }

  /** What a failed series of writes leaves after it is undone. */
  function UndoneAt(disk: Disk, files: seq<File>, k: nat, folder: Disk, wasNew: set<string>, spoiled: Spoiled): Disk
    requires k <= |files|
  {
    Undo(WriteAll(disk, files[..k]), LivePaths(files[..k]), folder, wasNew, spoiled)
  }

  /** The backup folders of a call: only its own changes, and after a success the newest
      twenty are left. */
  ghost predicate FoldersAfter(before: map<nat, Disk>, after: map<nat, Disk>, stamp: nat, ok: bool) {
    && after.Keys <= before.Keys + {stamp}
    && (forall s :: s in after && s != stamp ==> after[s] == before[s])
    && (!ok ==> before.Keys <= after.Keys)
    && (ok ==> |after| <= 20 && (forall s, t :: s in after && t in before && t !in after ==> t < s))
    && (ok && |before.Keys + {stamp}| <= 20 ==> before.Keys <= after.Keys)
  }

  lemma PruneAfter(before: map<nat, Disk>, backups: map<nat, Disk>, stamp: nat)
    requires before.Keys <= backups.Keys <= before.Keys + {stamp}
    requires forall s :: s != stamp ==> Folder(backups, s) == Folder(before, s)
    ensures FoldersAfter(before, Pruned(backups), stamp, true)
  {
    PrunedIsNewest(backups);
    var after := Pruned(backups);
    forall s | s in after && s != stamp ensures s in before && after[s] == before[s] { assert Folder(backups, s) == Folder(before, s); }
    if |before.Keys + {stamp}| <= 20 {
      Fewer(backups.Keys, before.Keys + {stamp});
      NewestAreNewest(backups.Keys, KEEP);
    }
  }

  lemma KeptAfter(before: map<nat, Disk>, backups: map<nat, Disk>, stamp: nat)
    requires before.Keys <= backups.Keys <= before.Keys + {stamp}
    requires forall s :: s != stamp ==> Folder(backups, s) == Folder(before, s)
    ensures FoldersAfter(before, backups, stamp, false)
  {
    forall s | s in backups && s != stamp ensures s in before && backups[s] == before[s] { assert Folder(backups, s) == Folder(before, s); }
  }

  lemma Fewer(x: set<nat>, y: set<nat>)
    requires x <= y
    ensures |x| <= |y|
  {
    assert y == x + (y - x);
  }

  /** The disk, the backup folders and every disk there has been. */
  datatype Held = Held(disk: Disk, backups: map<nat, Disk>, history: seq<Disk>)

  /** What an apply does to them: all files are written and the folders pruned, or the disk
      is as before but for the files whose copy back failed; each disk in between holds old
      or new contents; a complete backup holds the old ones; and when an engine cannot be
      staged nothing changes at all. */
  ghost predicate Deployed(before: Held, after: Held, order: seq<Engine>, ms: seq<Mapping>, w: World, p: Paths, ok: bool) {
    var files := ApplyFiles(order, ms, w, p);
    && (ok <==> Succeeds(order, ms, w, p))
    && (ok ==> after.disk == WriteAll(before.disk, files))
    && (!ok ==> SameExcept(before.disk, after.disk, w.spoiled.Keys))
    && before.history <= after.history
    && (forall i :: |before.history| <= i < |after.history| ==> OldOrNew(before.disk, files, after.history[i]))
    && (BacksUp(order, ms, w, p) && (forall s :: s in before.backups ==> s <= w.stamp) ==>
          Folder(after.backups, w.stamp) == Backup(Folder(before.backups, w.stamp), before.disk, LivePaths(files)))
    && FoldersAfter(before.backups, after.backups, w.stamp, ok)
    && (!AllCanStage(order, ms, w) ==> !ok && after == before)
  }

  // ---- the programs ----

  class Service {
    var disk: Disk
    var backups: map<nat, Disk>
    var results: map<nat, string>
    var recording: nat
    /** What the disk held after each write of rendered files. */
    ghost var history: seq<Disk>

    /** `setVersionResult`. */
    method SetVersionResult(result: string)
      modifies this`results, this`recording
      ensures results == if old(recording) > 0 then old(results)[old(recording) := result] else old(results)
      ensures recording == 0
    {
      if recording > 0 {
        results := results[recording := result];
        recording := 0;
      }
    }

    /** `backupFiles`. */
    method BackupFiles(stamp: nat, paths: seq<string>, fails: set<string>) returns (ok: bool)
      modifies this`backups
      ensures ok <==> NoneIn(paths, fails)
      ensures ok ==> Folder(backups, stamp) == Backup(Folder(old(backups), stamp), disk, paths)
      ensures forall s :: s != stamp ==> Folder(backups, s) == Folder(old(backups), s)
      ensures old(backups).Keys <= backups.Keys <= old(backups).Keys + {stamp}
    {
      assert paths[0..] == paths;
      for i := 0 to |paths|
        invariant forall j :: 0 <= j < i ==> paths[j] !in fails
        invariant Backup(Folder(old(backups), stamp), disk, paths) == Backup(Folder(backups, stamp), disk, paths[i..])
        invariant forall s :: s != stamp ==> Folder(backups, s) == Folder(old(backups), s)
        invariant old(backups).Keys <= backups.Keys <= old(backups).Keys + {stamp}
      {
        if paths[i] in fails {
          return false;
        }
        assert paths[i..][1..] == paths[i + 1..];
        if paths[i] in disk {
          backups := backups[stamp := Folder(backups, stamp)[paths[i] := disk[paths[i]]]];
        }
      }
      ok := true;
    }

    /** The `restore` closures: undo what was written. */
    method RestoreFiles(applied: seq<string>, folder: Disk, wasNew: set<string>, spoiled: Spoiled)
      modifies this`disk
      ensures disk == Undo(old(disk), applied, folder, wasNew, spoiled)
    {
      assert applied[0..] == applied;
      for i := 0 to |applied|
        invariant Undo(old(disk), applied, folder, wasNew, spoiled) == Undo(disk, applied[i..], folder, wasNew, spoiled)
      {
        assert applied[i..][1..] == applied[i + 1..];
        disk := UndoOne(disk, applied[i], folder, wasNew, spoiled);
      }
    }

    /** Render and validate every engine, in the order the map gives them. */
    method StageAll(order: seq<Engine>, ms: seq<Mapping>, w: World, p: Paths) returns (st: Staging)
      ensures st == Stage(order, ms, w, p)
    {
      st := Staging([]);
      assert order[0..] == order;
      for i := 0 to |order|
        invariant st.Staging?
        invariant Stage(order, ms, w, p) == Then(st, Stage(order[i..], ms, w, p))
      {
        var one := StageOne(order[i], ms, w, p);
        assert order[i..][1..] == order[i + 1..];
        ThenAssociates(st, one, Stage(order[i + 1..], ms, w, p));
        if one.Refused? {
          return one;
        }
        st := Staging(st.engines + one.engines);
      }
      assert st.engines + [] == st.engines;
    }

    /** Write the files one by one; at the first failure undo the ones written. */
    method WriteFiles(files: seq<File>, fails: set<nat>, folder: Disk, wasNew: set<string>, spoiled: Spoiled) returns (ok: bool)
      modifies this`disk, this`history
      ensures ok <==> forall i :: 0 <= i < |files| ==> i !in fails
      ensures ok ==> disk == WriteAll(old(disk), files)
      ensures !ok ==> disk == UndoneAt(old(disk), files, FirstFail(0, |files|, fails), folder, wasNew, spoiled)
      ensures old(history) <= history
      ensures forall i :: |old(history)| <= i < |history| ==> OldOrNew(old(disk), files, history[i])
    {
      var applied: seq<string> := [];
      assert files[..0] == [];
      for i := 0 to |files|
        invariant forall j :: 0 <= j < i ==> j !in fails
        invariant FirstFail(0, |files|, fails) == FirstFail(i, |files|, fails)
        invariant disk == WriteAll(old(disk), files[..i]) && applied == LivePaths(files[..i])
        invariant old(history) <= history
        invariant forall k :: |old(history)| <= k < |history| ==> OldOrNew(old(disk), files, history[k])
      {
        if i in fails {
          RestoreFiles(applied, folder, wasNew, spoiled);
          return false;
        }
        assert files[..i + 1] == files[..i] + [files[i]];
        WriteAllAppend(old(disk), files[..i], [files[i]]);
        LivePathsAppend(files[..i], [files[i]]);
        WriteOne(disk, files[i]);
        WriteAllOldOrNew(old(disk), files, i + 1);
        disk := Write(disk, files[i]);
        applied := applied + [files[i].live];
        history := history + [disk];
      }
      assert files[..|files|] == files;
      ok := true;
    }

    /** Reload the engines in turn; the first that fails, if any. */
    method ReloadAll(engines: seq<StagedEngine>, w: World) returns (failed: Option<Engine>)
      ensures failed.None? <==> !SomeReloadFails(engines, w)
      ensures failed.Some? ==> Name(failed.value) == FirstReloadFailure(engines, w)
    {
      assert engines[0..] == engines;
      for i := 0 to |engines|
        invariant forall j :: 0 <= j < i ==> engines[j].engine !in w.reloadFails
        invariant FirstReloadFailure(engines, w) == FirstReloadFailure(engines[i..], w)
      {
        assert engines[i..][1..] == engines[i + 1..];
        if engines[i].engine in w.reloadFails {
          return Some(engines[i].engine);
        }
      }
      failed := None;
    }

    /** Steps 4 and 5 of an apply: write everything and reload, or put everything back.
        `outcome` is the deploy result to record, if any. */
    method Commit(engines: seq<StagedEngine>, files: seq<File>, folder: Disk, wasNew: set<string>, w: World, ghost stale: Disk)
      returns (outcome: Option<string>, ok: bool)
      requires files == AllFiles(engines) && folder == Backup(stale, disk, LivePaths(files)) && wasNew == Missing(disk, LivePaths(files))
      modifies this`disk, this`history
      ensures ok <==> Commits(engines, files, w)
      ensures outcome == CommitResult(engines, files, w)
      ensures ok ==> disk == WriteAll(old(disk), files)
      ensures !ok ==> SameExcept(old(disk), disk, w.spoiled.Keys)
      ensures old(history) <= history
      ensures forall i :: |old(history)| <= i < |history| ==> OldOrNew(old(disk), files, history[i])
    {
      var written := WriteFiles(files, w.writeFails, folder, wasNew, w.spoiled);
      if !written {
        RollbackRestores(old(disk), files, FirstFail(0, |files|, w.writeFails), stale, w.spoiled);
        return None, false;
      }
      var failed := ReloadAll(engines, w);
      if failed.Some? {
        RestoreFiles(LivePaths(files), folder, wasNew, w.spoiled);
        assert files[..|files|] == files;
        RollbackRestores(old(disk), files, |files|, stale, w.spoiled);
        return Some("rolled back: reload " + Name(failed.value)), false;
      }
      return Some("ok"), true;
    }

    /** Steps 1 to 3 of an apply: stage, write the certificates, back up. `refused` is the
        deploy result when the apply ends here. */
    method Prepare(order: seq<Engine>, ms: seq<Mapping>, w: World, p: Paths) returns (st: Staging, refused: Option<string>, ok: bool)
      modifies this`backups
      ensures st == Stage(order, ms, w, p) && (ok <==> BacksUp(order, ms, w, p))
      ensures !ok ==> refused == Result(order, ms, w, p)
      ensures ok ==> Folder(backups, w.stamp) == Backup(Folder(old(backups), w.stamp), disk, LivePaths(AllFiles(st.engines)))
      ensures old(backups).Keys <= backups.Keys <= old(backups).Keys + {w.stamp}
      ensures forall s :: s != w.stamp ==> Folder(backups, s) == Folder(old(backups), s)
      ensures st.Refused? ==> backups == old(backups)
    {
      st := StageAll(order, ms, w, p);
      if st.Refused? {
        return st, st.result, false;
      }
      if w.certsFail {
        return st, Some("error: cert write"), false;
      }
      BackupFailsAt(AllFiles(st.engines), w);
      ok := BackupFiles(w.stamp, LivePaths(AllFiles(st.engines)), w.backupFails);
      return st, if ok then None else Some("error: backup"), ok;
    }

    method Prune()
      modifies this`backups
      ensures backups == Pruned(old(backups))
    {
      backups := Pruned(backups);
    }

    /** Steps 1 to 6, and the deploy result to record. */
    method Deploy(order: seq<Engine>, ms: seq<Mapping>, w: World, p: Paths) returns (ok: bool, outcome: Option<string>)
      modifies this`disk, this`backups, this`history
      ensures outcome == Result(order, ms, w, p)
      ensures var lands := Deployed(Held(old(disk), old(backups), old(history)), Held(disk, backups, history), order, ms, w, p, ok); lands
    {
      StagesIff(order, ms, w, p);
      ghost var stale := Folder(backups, w.stamp);
      var st, refused, ready := Prepare(order, ms, w, p);
      KeptAfter(old(backups), backups, w.stamp);
      if !ready {
        NoBackup(order, ms, w, p);
        return false, refused;
      }
      AfterBackup(order, ms, w, p);
      var files := AllFiles(st.engines);
      outcome, ok := Commit(st.engines, files, Folder(backups, w.stamp), Missing(disk, LivePaths(files)), w, stale);
      if ok {
        if forall s :: s in backups ==> s <= w.stamp { PruneKeepsLatest(backups, w.stamp); }
        PruneAfter(old(backups), backups, w.stamp);
        Prune();
      }
    }

    /** `ApplyAll`: everything or nothing, on the record. An engine that cannot be staged
        leaves everything as it was but the version row. */
    method ApplyAll(order: seq<Engine>, ms: seq<Mapping>, w: World, p: Paths) returns (ok: bool)
      modifies this
      ensures results == Stamped(old(results), w.version, Result(order, ms, w, p))
      ensures var lands := Deployed(Held(old(disk), old(backups), old(history)), Held(disk, backups, history), order, ms, w, p, ok); lands
    {
      if w.version > 0 {
        results := results[w.version := ""];
      }
      recording := w.version;
      var outcome;
      ok, outcome := Deploy(order, ms, w, p);
      if outcome.Some? {
        SetVersionResult(outcome.value);
      }
    }
  }
}

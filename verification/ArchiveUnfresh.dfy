/** What breaks where `Fresh` does not hold, in runs from nothing: a sync that read an old
    `archive.json`, and an rsync left over as a delete takes its locks. */
module ArchiveUnfresh {
  import opened Wrappers
  import opened ArchiveState
  import opened ArchiveWorld
  import opened ArchiveInvariant
  import opened ArchiveTheorems
  import opened ArchiveForgets
  import opened ArchiveReached

  lemma RunsOn(w: World, steps: seq<Step>, v: World, s: Step) returns (more: seq<Step>, u: World)
    requires Runs(w, steps, v) && Enabled(v, s)
    ensures Runs(w, more, u) && u == Apply(v, s)
  {
    RunsAppend(w, steps, v, s);
    more, u := steps + [s], Apply(v, s);
  }

  // ---- an old `archive.json` ---------------------------------------------------------------------------

  /** A sync has saved a state of the mounted volume; then `up` makes another and mounts it. */
  lemma SecondVolume(w: World, v1: Volume) returns (steps: seq<Step>, v: World)
    requires Init(w) && v1 > w.arch.mounted
    ensures Goes(w, steps, v) && v.arch.made && v.arch.cloud == v.arch.mounted == v1 && v.snapLock == Free
    ensures v.disk.file.volume == Some(w.arch.mounted) && v.local == w.local && v.disk.forgotten == w.disk.forgotten
  {
    var w1 := BeginSync(w, w.arch.mounted, {}, {});
    var w2 := EndRun(w1);
    GoesOnce(w, Sync(Begin(w.arch.mounted, {}, {})));
    steps := [Sync(Begin(w.arch.mounted, {}, {}))];
    GoesOn(w, steps, w1, Sync(Settle));
    steps := steps + [Sync(Settle)];
    assert SettleAll(Run(w1).st, [], {}, false) == Run(w1).st;
    GoesOn(w, steps, w2, Outside(CreateVolume(v1)));
    steps := steps + [Outside(CreateVolume(v1))];
    var w3 := OutsideApply(w2, CreateVolume(v1));
    GoesOn(w, steps, w3, Outside(SetUp));
    steps := steps + [Outside(SetUp)];
    v := OutsideApply(w3, SetUp);
  }

  /** From nothing there is a run to a born-empty state that does not know of a file: a sync that read the
      old `archive.json` starts before `up` marks the new volume. */
  lemma StaleSyncIsReached(w: World, v1: Volume, f: Path) returns (steps: seq<Step>, v: World)
    requires Init(w) && v1 > w.arch.mounted && f in w.local && Takes(Files, w.local[f])
    ensures Runs(w, steps, v) && v.disk.file.bornEmpty && v.disk.file.volume == Some(v.arch.mounted)
    ensures f in v.arch.remote && !Recorded(v.disk.file, f.lbl, f.pod)
  {
    var a, w1 := SecondVolume(w, v1);
    InitHolds(w);
    RunsKeep(w, a, w1);
    var b;
    b, v := StaleSyncBreaksBornEmpty(w1, f);
    RunsJoin(w, a, w1, b, v);
    steps := a + b;
  }

  // ---- an rsync left over as a delete takes its locks ------------------------------------------------------

  /** `up` makes a volume, mounts it and marks it. */
  lemma BornEmpty(w: World, v1: Volume, f: Path) returns (steps: seq<Step>, v: World)
    requires Init(w) && OneFile(w, f) && v1 > w.arch.mounted
    ensures Goes(w, steps, v) && OneFile(v, f) && v.local == w.local && v.start == w.start && v.now == w.now
    ensures v.disk.file == SnapState(map[], Some(v1), {}, true) && v.arch.mounted == v1 && v.strays == w.strays
    ensures v.disk.forgotten == map[] && v.log.removed == {} && v.log.stale == {}
  {
    GoesOnce(w, Outside(CreateVolume(v1)));
    steps := [Outside(CreateVolume(v1))];
    var w1 := OutsideApply(w, CreateVolume(v1));
    GoesOn(w, steps, w1, Outside(SetUp));
    steps := steps + [Outside(SetUp)];
    var w2 := OutsideApply(w1, SetUp);
    GoesOn(w, steps, w2, Outside(MarkBorn));
    steps := steps + [Outside(MarkBorn)];
    v := MarkBornEmpty(w2);
  }

  /** The pod's delete is reported, its pushes are cleared, and the rsync is left over still. */
  predicate DeletedBeside(w: World, v: World, x: Stray) {
    && Resting(v) && x in v.strays.snap && v.strays.deletes == {} && v.local == w.local && v.start == w.start
    && v.now == w.now && v.arch.mounted == w.arch.mounted && v.disk.file == ForgetPushes(w.disk.file, {x.pod})
    && x.pod in v.disk.forgotten && v.disk.forgotten == w.disk.forgotten[x.pod := true] && x.pod in v.log.reported
    && HoldsNoSnap(v, {x.pod})
  }

  /** The delete of the pod has its locks. */
  predicate LockedBeside(w: World, v: World, p: Pod) {
    && v.op == Forget({p}, HasBoth) && v.snapLock == ByOp && v.bigLock == ByOp && v.run == None
    && v.local == w.local && v.start == w.start && v.now == w.now && v.arch == w.arch && v.strays == w.strays
    && v.disk.file == w.disk.file && v.disk.forgotten == w.disk.forgotten[p := false]
  }

  lemma LocksBeside(w: World, p: Pod) returns (steps: seq<Step>, v: World)
    requires Resting(w) && p !in w.disk.forgotten
    ensures Runs(w, steps, v) && LockedBeside(w, v, p)
  {
    assert Runs(w, [], w);
    var w1, w2;
    steps, w1 := RunsOn(w, [], w, Operator(ForgetSave({p})));
    assert w1.disk.forgotten == w.disk.forgotten[p := false];
    steps, w2 := RunsOn(w, steps, w1, Operator(ForgetLockSnap));
    steps, v := RunsOn(w, steps, w2, Operator(ForgetLockBig));
  }

  lemma DeletesBeside(w: World, x: Stray) returns (steps: seq<Step>, v: World)
    requires Resting(w) && x in w.strays.snap && w.strays.deletes == {} && x.pod !in w.disk.forgotten
    requires w.disk.file.volume == Some(w.arch.mounted)
    ensures Runs(w, steps, v) && DeletedBeside(w, v, x)
  {
    var a, w1 := LocksBeside(w, x.pod);
    var b;
    b, v := DeleteReports(w1, true);
    RunsJoin(w, a, w1, b, v);
    steps := a + b;
    assert MarkDeleted(w1.disk.forgotten, {x.pod}) == w.disk.forgotten[x.pod := true];
    RestsAfter(w, steps, v);
  }

  /** What is in the files now may be there after a power loss. */
  predicate NowMayStay(w: World) {
    w.disk.file in w.disk.pending && w.disk.forgotten in w.disk.pendingForgotten
  }

  lemma {:induction false} RestsAfter(w: World, steps: seq<Step>, v: World)
    requires NowMayStay(w) && Runs(w, steps, v)
    ensures NowMayStay(v)
    decreases |steps|
  {
    if steps != [] {
      StepMayStay(w, steps[0]);
      RestsAfter(Apply(w, steps[0]), steps[1..], v);
    }
  }

  lemma SyncMayStay(w: World, s: SyncStep)
    requires NowMayStay(w) && SyncEnabled(w, s)
    ensures NowMayStay(SyncApply(w, s))
  {}

  lemma OpMayStay(w: World, s: OpStep)
    requires NowMayStay(w) && OpEnabled(w, s)
    ensures NowMayStay(OpApply(w, s))
  {}

  lemma StepMayStay(w: World, s: Step)
    requires NowMayStay(w) && Enabled(w, s)
    ensures NowMayStay(Apply(w, s))
  {
    match s
    case Sync(a) => SyncMayStay(w, a);
    case Operator(a) => OpMayStay(w, a);
    case Outside(a) => assert NowMayStay(OutsideApply(w, a));
    case Astray(a) => assert NowMayStay(StrayApply(w, a));
  }

  /** It writes the file. */
  lemma StrayPuts(w: World, x: Stray, f: Path) returns (steps: seq<Step>, v: World)
    requires x in w.strays.snap && x.job == Job(Files, Content) && f in w.local && IsOf(f, x.lbl, x.pod)
    requires Takes(Files, w.local[f])
    ensures Runs(w, steps, v) && v == w.(arch := v.arch, strays := v.strays, log := v.log)
    ensures OnArchive(v, f) && f !in v.log.removed && f !in v.log.stale
    ensures v.arch == w.arch.(remote := v.arch.remote) && v.strays.deletes == w.strays.deletes
  {
    var x' := x.(read := x.read[f := w.local[f]]);
    var w1 := Reading(w, x, f);
    TransferOne(Content, w1.arch.remote, f, w.local[f], 0);
    assert Runs(w, [], w);
    steps, w1 := RunsOn(w, [], w, Astray(Reads(x, f)));
    steps, v := RunsOn(w, steps, w1, Astray(Writes(x', f, 0)));
  }

  /** Killed while its rsync runs, on a volume born empty; then the pod is deleted. */
  lemma DeletedBesideIsReached(w: World, v1: Volume, f: Path) returns (steps: seq<Step>, u: World, v: World, x: Stray)
    requires Init(w) && OneFile(w, f) && v1 > w.arch.mounted
    ensures Runs(w, steps, v) && DeletedBeside(u, v, x) && IsOf(f, x.lbl, x.pod) && x.job == Job(Files, Content)
    ensures u.disk.file.bornEmpty && u.disk.file.volume == Some(u.arch.mounted) && u.disk.forgotten == map[]
    ensures v.local == w.local && v.start == w.start && v.now == w.now
  {
    var a, w1 := BornEmpty(w, v1, f);
    var b;
    b, u, x := LeavesOne(w1, f);
    assert u.disk.file.bornEmpty && u.disk.forgotten == map[] && u.strays.deletes == {};
    var c;
    c, v := DeletesBeside(u, x);
    RunsJoin(w, a, w1, b, u);
    RunsJoin(w, a + b, u, c, v);
    steps := a + b + c;
  }

  /** From nothing there is a run to a born-empty state that does not know of a file: an rsync left over as
      its pod's delete takes its locks puts the file there after the pod's pushes were cleared. */
  lemma StrayBreaksBornEmptyIsReached(w: World, v1: Volume, f: Path) returns (steps: seq<Step>, v: World)
    requires Init(w) && OneFile(w, f) && v1 > w.arch.mounted
    ensures Runs(w, steps, v) && v.disk.file.bornEmpty && v.disk.file.volume == Some(v.arch.mounted)
    ensures f in v.arch.remote && !Recorded(v.disk.file, f.lbl, f.pod)
  {
    var a, u, w1, x := DeletedBesideIsReached(w, v1, f);
    var b;
    b, v := StrayPuts(w1, x, f);
    RunsJoin(w, a, w1, b, v);
    steps := a + b;
  }

  // ---- and a label is sealed on the strength of it ---------------------------------------------------------

  /** A seed of the pod's tree on the label, alone in its turn, at its `k`th rsync run, into what a state
      calls born empty. */
  predicate Seeding(w: World, lbl: Label, p: Pod, k: nat) {
    && Pushing(w) && k <= 2 && w.snapLock == BySync
    && Cur(w).lbl == lbl && Cur(w).push.value.(seen := {}) == Push(p, Seed, true, false, JobsOf(Seed), k, {})
    && Cur(w).todo == [] && Cur(w).complete && Cur(w).linked && Cur(w).started == w.now && Cur(w).couldSeal
    && Cur(w).notStarted == None && Cur(w).cutMid == None
    && Over(lbl, w.start, w.now) && !Run(w).outage && Run(w).charges == [] && Run(w).st.bornEmpty
    && Run(w).st.volume == Some(w.arch.mounted)
  }

  /** What a seed that finds every file there leaves as it is. */
  predicate SameArchive(w: World, v: World) {
    && v.local == w.local && v.start == w.start && v.now == w.now && v.arch == w.arch
    && v.log.removed == w.log.removed && v.log.stale == w.log.stale
  }

  /** The state knows nothing of the pod on the label. */
  predicate Unknown(s: SnapState, lbl: Label, p: Pod) {
    var rec := RecordOf(s, lbl);
    p !in rec.podsTried && p !in rec.podsSeeding && p !in rec.givenUp
  }

  lemma SeedIs(w: World, lbl: Label, p: Pod)
    requires w.snapLock == Free && p !in w.disk.forgotten && Over(lbl, w.start, w.now)
    requires w.disk.file.bornEmpty && w.disk.file.volume == Some(w.arch.mounted) && Unknown(w.disk.file, lbl, p)
    ensures var w1 := BeginSync(w, w.arch.mounted, {p}, {});
            var w2 := BeginLabel(w1, lbl, [p], false);
            && AtPod(w2) && Cur(w2).todo == [p] && Seeding(StartPush(w2, true, false), lbl, p, 0)
            && SameArchive(w, StartPush(w2, true, false))
  {
    BeginAllows(w, w.arch.mounted, p);
    var w1 := BeginSync(w, w.arch.mounted, {p}, {});
    assert [p][1..] == [] && Filter([p][1..], RecordOf(Run(w1).st, lbl).givenUp) == [];
    assert Filter([p], RecordOf(Run(w1).st, lbl).givenUp) == [p];
  }

  lemma SeedStarts(w: World, lbl: Label, p: Pod) returns (steps: seq<Step>, v: World)
    requires w.snapLock == Free && p !in w.disk.forgotten && Over(lbl, w.start, w.now)
    requires w.disk.file.bornEmpty && w.disk.file.volume == Some(w.arch.mounted) && Unknown(w.disk.file, lbl, p)
    ensures Runs(w, steps, v) && Seeding(v, lbl, p, 0) && SameArchive(w, v)
  {
    SeedIs(w, lbl, p);
    BeginAllows(w, w.arch.mounted, p);
    assert Runs(w, [], w);
    var w1, w2;
    steps, w1 := RunsOn(w, [], w, Sync(Begin(w.arch.mounted, {p}, {})));
    steps, w2 := RunsOn(w, steps, w1, Sync(LabelBegin(lbl, [p], false)));
    steps, v := RunsOn(w, steps, w2, Sync(PodStart(true, false)));
  }

  /** It goes past the one file, which is there already, and past none. */
  lemma SeedPasses(w: World, f: Path) returns (steps: seq<Step>, v: World)
    requires Seeding(w, f.lbl, f.pod, 0) && OnlyFile(w, f.lbl, f.pod, {f}) && f in w.local && Takes(Files, w.local[f])
    requires f in w.arch.remote && w.arch.remote[f].bytes != w.local[f].bytes
    ensures Runs(w, steps, v) && Seeding(v, f.lbl, f.pod, 2) && SameArchive(w, v)
  {
    SeedWrites(w, f);
    SeedDone(WriteFile(w, f, 0), f.lbl, f.pod, 0);
    SeedDone(NextJob(WriteFile(w, f, 0)), f.lbl, f.pod, 1);
    assert Runs(w, [], w);
    var w1, w2;
    steps, w1 := RunsOn(w, [], w, Sync(Write(f, 0)));
    steps, w2 := RunsOn(w, steps, w1, Sync(JobDone));
    steps, v := RunsOn(w, steps, w2, Sync(JobDone));
  }

  lemma SeedWrites(w: World, f: Path)
    requires Seeding(w, f.lbl, f.pod, 0) && OnlyFile(w, f.lbl, f.pod, {f}) && f in w.local && Takes(Files, w.local[f])
    requires f in w.arch.remote && w.arch.remote[f].bytes != w.local[f].bytes
    ensures Carries(w, f)
    ensures var v := WriteFile(w, f, 0); Seeding(v, f.lbl, f.pod, 0) && SameArchive(w, v) && JobEnds(v)
  {}

  lemma SeedDone(w: World, lbl: Label, p: Pod, k: nat)
    requires Seeding(w, lbl, p, k) && k < 2
    ensures Seeding(NextJob(w), lbl, p, k + 1) && SameArchive(w, NextJob(w))
    ensures k == 0 && (forall g | g in w.local && IsOf(g, lbl, p) :: !Takes(Git, w.local[g])) ==> JobEnds(NextJob(w))
  {}

  lemma SeedSeals(w: World, lbl: Label, p: Pod) returns (steps: seq<Step>, v: World)
    requires Seeding(w, lbl, p, 2) && lbl.Dated?
    ensures Runs(w, steps, v) && SameArchive(w, v) && v.disk.file.volume == Some(v.arch.mounted)
    ensures Sealed(lbl, v.disk.file, v.start, {p}) && p !in v.disk.file.labels[lbl].givenUp
  {
    assert Runs(w, [], w);
    var w1, w2;
    steps, w1 := RunsOn(w, [], w, Sync(PodOk));
    steps, w2 := RunsOn(w, steps, w1, Sync(LabelDone));
    assert SettleAll(Run(w2).st, [], Run(w2).okPods, Run(w2).baselineOk) == Run(w2).st;
    steps, v := RunsOn(w, steps, w2, Sync(Settle));
  }

  /** The pod's deletion is taken back. */
  lemma TakesBack(w: World, p: Pod) returns (steps: seq<Step>, v: World)
    requires Resting(w) && p in w.disk.forgotten && w.disk.forgotten[p]
    ensures Runs(w, steps, v) && v.snapLock == Free && p !in v.disk.forgotten && v.local == w.local
    ensures v.start == w.start && v.now == w.now && v.arch == w.arch && v.strays == w.strays
    ensures v.disk.file == ForgetPushes(w.disk.file, {p})
    ensures v.log.removed == w.log.removed && v.log.stale == w.log.stale
  {
    assert Runs(w, [], w);
    var w1, w2, w3;
    assert {p} * w.disk.forgotten.Keys == {p};
    steps, w1 := RunsOn(w, [], w, Operator(UnforgetAsk({p})));
    assert w1.op.deleted == {p};
    steps, w2 := RunsOn(w, steps, w1, Operator(UnforgetLock));
    steps, w3 := RunsOn(w, steps, w2, Operator(UnforgetClear));
    steps, v := RunsOn(w, steps, w3, Operator(UnforgetSave));
  }

  /** The file is pulled anew, and its label comes to its end. */
  lemma PulledAndOver(w: World, f: Path, e: Entry) returns (steps: seq<Step>, v: World)
    requires f.lbl == LabelAt(w.start, w.now) && LabelEnd(f.lbl, w.start).Some?
    ensures Runs(w, steps, v) && v == w.(local := w.local[f := e], now := v.now) && Over(f.lbl, v.start, v.now)
  {
    var end := LabelEnd(f.lbl, w.start).value + GRACE_SECS;
    var t := if w.now > end then w.now else end;
    assert Runs(w, [], w);
    var w1;
    steps, w1 := RunsOn(w, [], w, Outside(Pull(f, e, w.now)));
    steps, v := RunsOn(w, steps, w1, Outside(Tick(t)));
  }

  lemma SeedsOver(w: World, f: Path) returns (steps: seq<Step>, v: World)
    requires w.snapLock == Free && f.pod !in w.disk.forgotten && Over(f.lbl, w.start, w.now) && f.lbl.Dated?
    requires w.disk.file.bornEmpty && w.disk.file.volume == Some(w.arch.mounted)
    requires Unknown(w.disk.file, f.lbl, f.pod) && OnlyFile(w, f.lbl, f.pod, {f})
    requires f in w.local && Takes(Files, w.local[f])
    requires f in w.arch.remote && w.arch.remote[f].bytes != w.local[f].bytes
    ensures Runs(w, steps, v) && SameArchive(w, v) && SealedFile(v, {f.pod}, f)
  {
    var a, w1 := SeedStarts(w, f.lbl, f.pod);
    var b, w2 := SeedPasses(w1, f);
    var c;
    c, v := SeedSeals(w2, f.lbl, f.pod);
    RunsJoin(w, a, w1, b, w2);
    RunsJoin(w, a + b, w2, c, v);
    steps := a + b + c;
  }

  /** From nothing, on a label still open, there is a run to a sealed label whose file is not on the archive
      though neither removed nor overwritten since: an rsync left over as its pod's delete takes its locks
      puts the file's old bytes there, and the label is sealed by a seed into what is called born empty. */
  lemma StrayBreaksSealingIsReached(w: World, v1: Volume, f: Path, e: Entry) returns (steps: seq<Step>, v: World)
    requires Init(w) && OneFile(w, f) && v1 > w.arch.mounted && f.lbl == LabelAt(w.start, w.now)
    requires Takes(Files, e) && !Takes(Git, e) && e.bytes != w.local[f].bytes
    ensures Runs(w, steps, v) && SealedFile(v, {f.pod}, f) && !OnArchive(v, f)
    ensures f !in v.log.removed && f !in v.log.stale
  {
    var a, u, w1, x := DeletedBesideIsReached(w, v1, f);
    var b, w2 := StrayPuts(w1, x, f);
    var c, w3 := TakesBack(w2, f.pod);
    var d, w4 := PulledAndOver(w3, f, e);
    assert Unknown(w4.disk.file, f.lbl, f.pod);
    var g;
    g, v := SeedsOver(w4, f);
    RunsJoin(w, a, w1, b, w2);
    RunsJoin(w, a + b, w2, c, w3);
    RunsJoin(w, a + b + c, w3, d, w4);
    RunsJoin(w, a + b + c + d, w4, g, v);
    steps := a + b + c + d + g;
  }
}

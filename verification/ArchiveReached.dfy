/** Runs from nothing: to a sealed label, and to each world from which a result fails. */
module ArchiveReached {
  import opened Wrappers
  import opened ArchiveState
  import opened ArchiveWorld
  import opened ArchiveInvariant
  import opened ArchiveTheorems
  import opened ArchiveForgets
  import opened ArchivePartial
  import opened ArchiveDeletes

  /** A run of the kind the theorems are about. */
  ghost predicate Goes(w: World, steps: seq<Step>, v: World) {
    Runs(w, steps, v) && Kept(w, steps)
  }

  lemma {:induction false} KeptAppend(w: World, steps: seq<Step>, v: World, s: Step)
    requires Runs(w, steps, v) && Kept(w, steps) && Enabled(v, s) && Fresh(v, s)
    ensures Kept(w, steps + [s])
    decreases |steps|
  {
    if steps == [] {
      assert steps + [s] == [s] && [s][1..] == [];
      assert Kept(Apply(v, s), []);
    } else {
      KeptAppend(Apply(w, steps[0]), steps[1..], v, s);
      assert (steps + [s])[1..] == steps[1..] + [s];
    }
  }

  lemma GoesOn(w: World, steps: seq<Step>, v: World, s: Step)
    requires Goes(w, steps, v) && Enabled(v, s) && Fresh(v, s)
    ensures Goes(w, steps + [s], Apply(v, s))
  {
    RunsAppend(w, steps, v, s);
    KeptAppend(w, steps, v, s);
  }

  lemma {:induction false} GoesJoin(w: World, a: seq<Step>, v: World, b: seq<Step>, u: World)
    requires Goes(w, a, v) && Goes(v, b, u)
    ensures Goes(w, a + b, u)
    decreases |a|
  {
    RunsJoin(w, a, v, b, u);
    if a == [] {
      assert a + b == b;
    } else {
      GoesJoin(Apply(w, a[0]), a[1..], v, b, u);
      assert (a + b)[1..] == a[1..] + b;
    }
  }

  lemma GoesOnce(w: World, s: Step)
    requires Enabled(w, s) && Fresh(w, s)
    ensures Goes(w, [s], Apply(w, s))
  {
    GoesNowhere(w);
    GoesOn(w, [], w, s);
    assert [] + [s] == [s];
  }

  lemma GoesNowhere(w: World)
    ensures Goes(w, [], w)
  {}

  /** Nobody at work; a state of the mounted volume, or none yet. */
  predicate Resting(w: World) {
    && w.run == None && w.snapLock == Free && w.bigLock == Free && w.op == Idle
    && (w.disk.file.volume == None || w.disk.file.volume == Some(w.arch.mounted))
    && w.disk.file in w.disk.pending && w.disk.forgotten in w.disk.pendingForgotten
  }

  /** What the runs below leave as it is. */
  predicate SameBox(w: World, v: World) {
    && v.start == w.start && v.local == w.local && v.strays == w.strays && v.arch.mounted == w.arch.mounted
    && v.arch.big == w.arch.big && v.disk.forgotten == w.disk.forgotten && v.bigLock == w.bigLock && v.op == w.op
    && v.log.reported == w.log.reported
  }

  // ---- one push to the end ---------------------------------------------------------------------------

  /** A check of the pod's tree on the label, alone in its turn, at its `k`th rsync run. */
  predicate Checking(w: World, lbl: Label, p: Pod, k: nat) {
    && Pushing(w) && k <= 4 && w.snapLock == BySync
    && Cur(w).lbl == lbl && Cur(w).push == Some(Push(p, Check, true, false, JobsOf(Check), k, {}))
    && Cur(w).todo == [] && Cur(w).complete && Cur(w).linked && Cur(w).started == w.now
    && Cur(w).couldSeal == Over(lbl, w.start, w.now) && !Run(w).outage && Run(w).charges == []
    && Run(w).st.volume == Some(w.arch.mounted) && w.disk.file == Run(w).st && w.disk.pending == {Run(w).st}
    && w.disk.pendingForgotten == {w.disk.forgotten} && Run(w).number + 1 == w.log.runs
    && Run(w).st.labels == Run(w).st.labels[lbl := Cur(w).rec]
  }

  lemma StartedIs(w: World, lbl: Label, p: Pod)
    requires Resting(w) && p !in w.disk.forgotten
    ensures var v := StartPush(BeginLabel(BeginSync(w, w.arch.mounted, {p}, {}), lbl, [p], true), true, false);
            && Checking(v, lbl, p, 0) && SameBox(w, v) && v.now == w.now && v.arch == w.arch
            && Cur(v).rec.givenUp == RecordOf(w.disk.file, lbl).givenUp
            && v.disk.file.bornEmpty == w.disk.file.bornEmpty
  {
    BeginAllows(w, w.arch.mounted, p);
    LabelTakes(BeginSync(w, w.arch.mounted, {p}, {}), lbl, p);
    assert [p][1..] == [];
  }

  lemma StartedLog(w: World, lbl: Label, p: Pod)
    requires Resting(w) && p !in w.disk.forgotten
    ensures var w2 := BeginLabel(BeginSync(w, w.arch.mounted, {p}, {}), lbl, [p], true);
            && Cur(w2).todo == [p]
            && var v := StartPush(w2, true, false);
            && v.log.removed == w.log.removed && v.log.stale == w.log.stale
            && v.log.runs == w.log.runs + 1 && v.log.through == w.log.through
  {
    LabelTakes(BeginSync(w, w.arch.mounted, {p}, {}), lbl, p);
  }

  lemma Starts(w: World, lbl: Label, p: Pod) returns (steps: seq<Step>, v: World)
    requires Resting(w) && p !in w.disk.forgotten
    ensures Goes(w, steps, v) && Checking(v, lbl, p, 0) && SameBox(w, v) && v.now == w.now && v.arch == w.arch
    ensures v.log.removed == w.log.removed && v.log.stale == w.log.stale
    ensures Cur(v).rec.givenUp == RecordOf(w.disk.file, lbl).givenUp
    ensures v.log.runs == w.log.runs + 1 && v.log.through == w.log.through
    ensures v.disk.file.bornEmpty == w.disk.file.bornEmpty
  {
    BeginAllows(w, w.arch.mounted, p);
    var w1 := BeginSync(w, w.arch.mounted, {p}, {});
    LabelTakes(w1, lbl, p);
    var w2 := BeginLabel(w1, lbl, [p], true);
    StartedIs(w, lbl, p);
    StartedLog(w, lbl, p);
    v := StartPush(w2, true, false);
    GoesOnce(w, Sync(Begin(w.arch.mounted, {p}, {})));
    GoesOn(w, [Sync(Begin(w.arch.mounted, {p}, {}))], w1, Sync(LabelBegin(lbl, [p], true)));
    steps := [Sync(Begin(w.arch.mounted, {p}, {}))] + [Sync(LabelBegin(lbl, [p], true))];
    GoesOn(w, steps, w2, Sync(PodStart(true, false)));
    steps := steps + [Sync(PodStart(true, false))];
  }

  /** Of the pod's tree on the label there is at most this one file, which the Git pass does not take. */
  predicate OnlyFile(w: World, lbl: Label, p: Pod, fs: set<Path>) {
    forall g | g in w.local && IsOf(g, lbl, p) :: g in fs && !Takes(Git, w.local[g])
  }

  lemma PassDone(w: World, lbl: Label, p: Pod, k: nat) returns (v: World)
    requires Checking(w, lbl, p, k) && k < 4 && JobEnds(w)
    ensures Goes(w, [Sync(JobDone)], v) && Checking(v, lbl, p, k + 1) && v == NextJob(w)
  {
    v := NextJob(w);
    GoesNowhere(w);
    GoesOn(w, [], w, Sync(JobDone));
    assert [] + [Sync(JobDone)] == [Sync(JobDone)];
  }

  lemma PassWrites(w: World, f: Path, k: nat) returns (v: World)
    requires Checking(w, f.lbl, f.pod, k) && k < 2 && f in w.local && Takes(Files, w.local[f])
             && (k == 1 ==> OnArchive(w, f))
    ensures Goes(w, [Sync(Write(f, 0))], v) && v == WriteFile(w, f, 0)
    ensures OnArchive(v, f) && v.arch.remote.Keys == w.arch.remote.Keys + {f}
  {
    v := WriteFile(w, f, 0);
    TransferOne(Cur(w).push.value.jobs[k].compare, w.arch.remote, f, w.local[f], 0);
    GoesOnce(w, Sync(Write(f, 0)));
  }

  lemma Overs(w: World, f: Path, k: nat)
    requires Checking(w, f.lbl, f.pod, k) && k < 2 && OnlyFile(w, f.lbl, f.pod, {f}) && f in w.local
             && Takes(Files, w.local[f])
    ensures Pushing(WriteFile(w, f, 0)) && JobEnds(WriteFile(w, f, 0))
    ensures var v := NextJob(WriteFile(w, f, 0));
            Checking(v, f.lbl, f.pod, k + 1) && SameBox(w, v) && v.now == w.now && Cur(v).rec == Cur(w).rec
  {}

  /** A pass over the one file. */
  lemma PassOver(w: World, f: Path, k: nat) returns (steps: seq<Step>, v: World)
    requires Checking(w, f.lbl, f.pod, k) && k < 2 && OnlyFile(w, f.lbl, f.pod, {f})
    requires f in w.local && Takes(Files, w.local[f]) && (k == 1 ==> OnArchive(w, f))
    ensures Goes(w, steps, v) && Checking(v, f.lbl, f.pod, k + 1) && SameBox(w, v) && v.now == w.now && OnArchive(v, f)
    ensures v.arch.remote.Keys == w.arch.remote.Keys + {f} && Cur(v).rec == Cur(w).rec
  {
    var w1 := PassWrites(w, f, k);
    v := NextJob(w1);
    Overs(w, f, k);
    GoesOn(w, [Sync(Write(f, 0))], w1, Sync(JobDone));
    steps := [Sync(Write(f, 0))] + [Sync(JobDone)];
  }

  lemma GitPass(w: World, lbl: Label, p: Pod, k: nat, fs: set<Path>) returns (v: World)
    requires Checking(w, lbl, p, k) && 2 <= k < 4 && OnlyFile(w, lbl, p, fs)
    ensures Goes(w, [Sync(JobDone)], v) && Checking(v, lbl, p, k + 1) && v == NextJob(w)
  {
    assert Cur(w).push.value.jobs[k].pass == Git;
    v := PassDone(w, lbl, p, k);
  }

  lemma GitPasses(w: World, lbl: Label, p: Pod, fs: set<Path>) returns (v: World)
    requires Checking(w, lbl, p, 2) && OnlyFile(w, lbl, p, fs)
    ensures Goes(w, [Sync(JobDone)] + [Sync(JobDone)], v) && Checking(v, lbl, p, 4) && v == NextJob(NextJob(w))
  {
    var w1 := GitPass(w, lbl, p, 2, fs);
    v := GitPass(w1, lbl, p, 3, fs);
    GoesJoin(w, [Sync(JobDone)], w1, [Sync(JobDone)], v);
  }

  lemma FinishedIs(w: World, lbl: Label, p: Pod)
    requires Checking(w, lbl, p, 4) && Cur(w).couldSeal && lbl.Dated?
    ensures var w1 := EndOk(w);
            && OnLabel(w1) && !Pushing(w1) && Cur(w1).todo == []
            && Syncing(EndLabel(w1)) && !OnLabel(EndLabel(w1))
            && var v := EndRun(EndLabel(w1));
            && Resting(v.(op := Idle, bigLock := Free)) && SameBox(w, v) && v.now == w.now && v.arch == w.arch
            && Sealed(lbl, v.disk.file, v.start, {p}) && p !in v.disk.file.labels[lbl].givenUp
            && v.disk.file.volume == Some(v.arch.mounted) && v.disk.pendingForgotten == w.disk.pendingForgotten
  {
    var w2 := EndLabel(EndOk(w));
    assert SettleAll(Run(w2).st, [], Run(w2).okPods, Run(w2).baselineOk) == Run(w2).st;
  }

  /** The check ends, and with it the label's turn and the run. */
  lemma Finishes(w: World, lbl: Label, p: Pod) returns (steps: seq<Step>, v: World)
    requires Checking(w, lbl, p, 4) && Cur(w).couldSeal && lbl.Dated?
    ensures Goes(w, steps, v) && Resting(v.(op := Idle, bigLock := Free)) && SameBox(w, v) && v.now == w.now
            && v.arch == w.arch
    ensures Sealed(lbl, v.disk.file, v.start, {p}) && p !in v.disk.file.labels[lbl].givenUp
    ensures v.disk.file.volume == Some(v.arch.mounted) && v.disk.pendingForgotten == w.disk.pendingForgotten
  {
    FinishedIs(w, lbl, p);
    var w1 := EndOk(w);
    var w2 := EndLabel(w1);
    v := EndRun(w2);
    GoesOnce(w, Sync(PodOk));
    steps := [Sync(PodOk)];
    GoesOn(w, steps, w1, Sync(LabelDone));
    steps := steps + [Sync(LabelDone)];
    GoesOn(w, steps, w2, Sync(Settle));
    steps := steps + [Sync(Settle)];
  }

  // ---- to a sealed label -------------------------------------------------------------------------------

  /** A box at rest, with one file on one label, which the Files pass takes. */
  predicate OneFile(w: World, f: Path) {
    && Resting(w) && f.pod !in w.disk.forgotten && f.lbl.Dated? && LabelEnd(f.lbl, w.start).Some?
    && f in w.local && Takes(Files, w.local[f]) && OnlyFile(w, f.lbl, f.pod, {f})
  }

  lemma Waits(w: World, lbl: Label) returns (t: nat, v: World)
    requires Resting(w) && LabelEnd(lbl, w.start).Some?
    ensures Goes(w, [Outside(Tick(t))], v) && v == w.(now := t) && Over(lbl, v.start, v.now)
  {
    var end := LabelEnd(lbl, w.start).value + GRACE_SECS;
    t := if w.now > end then w.now else end;
    v := w.(now := t);
    GoesNowhere(w);
    GoesOn(w, [], w, Outside(Tick(t)));
    assert [] + [Outside(Tick(t))] == [Outside(Tick(t))];
  }

  lemma ChecksOut(w: World, f: Path) returns (steps: seq<Step>, v: World)
    requires Checking(w, f.lbl, f.pod, 0) && OnlyFile(w, f.lbl, f.pod, {f}) && f in w.local && Takes(Files, w.local[f])
    ensures Goes(w, steps, v) && Checking(v, f.lbl, f.pod, 4) && SameBox(w, v) && v.now == w.now && OnArchive(v, f)
    ensures v.arch.remote.Keys == w.arch.remote.Keys + {f} && Cur(v).couldSeal == Cur(w).couldSeal
  {
    var a, w1 := PassOver(w, f, 0);
    var b, w2 := PassOver(w1, f, 1);
    v := GitPasses(w2, f.lbl, f.pod, {f});
    GoesJoin(w, a, w1, b, w2);
    GoesJoin(w, a + b, w2, [Sync(JobDone)] + [Sync(JobDone)], v);
    steps := a + b + ([Sync(JobDone)] + [Sync(JobDone)]);
  }

  /** A label is sealed, and its file is on the archive. */
  predicate SealedThere(w: World, v: World, f: Path) {
    && Resting(v) && SameBox(w, v) && SealedFile(v, {f.pod}, f) && OnArchive(v, f)
    && v.disk.file.volume == Some(v.arch.mounted) && v.disk.pendingForgotten == {v.disk.forgotten}
    && Sealed(f.lbl, v.disk.file, v.start, {f.pod})
    && v.arch.remote.Keys == w.arch.remote.Keys + {f}
  }

  lemma Seals(w: World, f: Path) returns (steps: seq<Step>, v: World)
    requires OneFile(w, f)
    ensures Goes(w, steps, v) && SealedThere(w, v, f)
  {
    var t, w1 := Waits(w, f.lbl);
    var a, w2 := Starts(w1, f.lbl, f.pod);
    var b, w3 := ChecksOut(w2, f);
    var c;
    c, v := Finishes(w3, f.lbl, f.pod);
    GoesJoin(w, [Outside(Tick(t))], w1, a, w2);
    GoesJoin(w, [Outside(Tick(t))] + a, w2, b, w3);
    GoesJoin(w, [Outside(Tick(t))] + a + b, w3, c, v);
    steps := [Outside(Tick(t))] + a + b + c;
  }

  /** From nothing there is a run to a sealed label with its file on the archive. */
  lemma SealedIsReached(w: World, f: Path) returns (steps: seq<Step>, v: World)
    requires Init(w) && OneFile(w, f)
    ensures Goes(w, steps, v) && SealedFile(v, {f.pod}, f) && OnArchive(v, f)
  {
    steps, v := Seals(w, f);
  }

  // ---- a delete of it ------------------------------------------------------------------------------------

  /** A delete of the pod has its locks and has removed the one file. */
  lemma Deletes(w: World, v: World, f: Path) returns (steps: seq<Step>, u: World)
    requires SealedThere(w, v, f) && NoStrayOf(v, {f.pod}) && f.pod !in v.disk.forgotten
    ensures Goes(v, steps, u) && u.op == Forget({f.pod}, HasBoth) && u.disk.file == v.disk.file && u.start == v.start
    ensures u.local == v.local && f !in u.arch.remote && u.arch.remote.Keys == v.arch.remote.Keys - {f}
            && u.arch.big == v.arch.big
    ensures u.disk.forgotten == v.disk.forgotten[f.pod := false] && v.disk.forgotten in u.disk.pendingForgotten
    ensures u.disk.file in u.disk.pending && u.snapLock == ByOp && u.bigLock == ByOp && u.run == None
            && u.strays == v.strays
  {
    var w1 := BeginForget(v, {f.pod});
    assert Forgetting(v.disk.forgotten, {f.pod}) == v.disk.forgotten[f.pod := false];
    var w2 := OpApply(w1, ForgetLockSnap);
    var w3 := OpApply(w2, ForgetLockBig);
    u := Gone(w3, f);
    GoesNowhere(v);
    GoesOn(v, [], v, Operator(ForgetSave({f.pod})));
    steps := [] + [Operator(ForgetSave({f.pod}))];
    GoesOn(v, steps, w1, Operator(ForgetLockSnap));
    steps := steps + [Operator(ForgetLockSnap)];
    GoesOn(v, steps, w2, Operator(ForgetLockBig));
    steps := steps + [Operator(ForgetLockBig)];
    GoesOn(v, steps, w3, Operator(ForgetRemove(f)));
    steps := steps + [Operator(ForgetRemove(f))];
  }

  lemma SealsAndDeletes(w: World, f: Path) returns (steps: seq<Step>, u: World)
    requires Init(w) && OneFile(w, f)
    ensures Goes(w, steps, u) && u.op == Forget({f.pod}, HasBoth) && u.start == w.start && u.local == w.local
    ensures Sealed(f.lbl, u.disk.file, u.start, {f.pod}) && f !in u.arch.remote
    ensures u.arch.remote.Keys <= w.arch.remote.Keys && u.arch.big == w.arch.big
    ensures u.disk.forgotten == map[f.pod := false] && map[] in u.disk.pendingForgotten && u.disk.file in u.disk.pending
    ensures u.snapLock == ByOp && u.bigLock == ByOp && u.run == None && u.strays == w.strays
  {
    var a, v := Seals(w, f);
    var b;
    b, u := Deletes(w, v, f);
    GoesJoin(w, a, v, b, u);
    steps := a + b;
  }

  /** From nothing there is a run to a sealed label without its file: a delete killed before it has marked
      the pod, then an unforget. */
  lemma KilledDeleteIsReached(w: World, f: Path) returns (steps: seq<Step>, v: World)
    requires Init(w) && OneFile(w, f)
    ensures Goes(w, steps, v) && f.pod !in v.disk.forgotten
    ensures Sealed(f.lbl, v.disk.file, v.start, {f.pod}) && f in v.local && !OnArchive(v, f)
  {
    var a, u := SealsAndDeletes(w, f);
    var b;
    b, v := KilledDeleteStaysSealed(u, f);
    GoesJoin(w, a, u, b, v);
    steps := a + b;
  }

  /** From nothing, on an archive that holds nothing, there is a run to a pod that is back on the archive
      though its deletion was reported: a power loss that lost the forget, then a sync. */
  lemma LostForgetIsReached(w: World, f: Path) returns (steps: seq<Step>, v: World)
    requires Init(w) && OneFile(w, f) && w.arch.remote == map[] && w.arch.big == map[]
    ensures Runs(w, steps, v) && f.pod in v.log.reported && f in v.arch.remote
  {
    var a, u := SealsAndDeletes(w, f);
    assert u.arch.remote.Keys == {};
    RunsTwoMore(w, a, u, Operator(ForgetRemoved), Operator(ForgetClear(false)));
    var u2 := OpApply(OpApply(u, ForgetRemoved), ForgetClear(false));
    var a2 := a + [Operator(ForgetRemoved), Operator(ForgetClear(false))];
    RunsAppend(w, a2, u2, Operator(ForgetReport));
    var u3 := Report(u2);
    var b;
    b, v := UnsafePowerLoss(u3, map[], f);
    RunsJoin(w, a2 + [Operator(ForgetReport)], u3, b, v);
    steps := a2 + [Operator(ForgetReport)] + b;
  }

  /** From nothing there is a run to a sealed label without its file, its pod's deletion reported: the
      clearing of the state failed. */
  lemma FailedClearIsReached(w: World, f: Path) returns (steps: seq<Step>, v: World)
    requires Init(w) && OneFile(w, f) && w.arch.remote == map[] && w.arch.big == map[]
    ensures Goes(w, steps, v) && f.pod in v.log.reported && !AtWork(v)
    ensures Sealed(f.lbl, v.disk.file, v.start, {f.pod}) && f in v.local && !OnArchive(v, f)
  {
    var a, u := SealsAndDeletes(w, f);
    assert u.arch.remote.Keys == {};
    GoesOn(w, a, u, Operator(ForgetRemoved));
    var u1 := OpApply(u, ForgetRemoved);
    var b;
    b, v := FailedClearStaysSealed(u1, f);
    GoesJoin(w, a + [Operator(ForgetRemoved)], u1, b, v);
    steps := a + [Operator(ForgetRemoved)] + b;
  }

  /** And one to such a label by a clearing that was lost with the power. */
  lemma LostClearIsReached(w: World, f: Path) returns (steps: seq<Step>, v: World)
    requires Init(w) && OneFile(w, f) && w.arch.remote == map[] && w.arch.big == map[]
    ensures Goes(w, steps, v) && !AtWork(v)
    ensures Sealed(f.lbl, v.disk.file, v.start, {f.pod}) && f in v.local && !OnArchive(v, f)
  {
    var a, u := SealsAndDeletes(w, f);
    assert u.arch.remote.Keys == {};
    GoesOn(w, a, u, Operator(ForgetRemoved));
    var u1 := OpApply(u, ForgetRemoved);
    GoesOn(w, a + [Operator(ForgetRemoved)], u1, Operator(ForgetClear(true)));
    var u2 := OpApply(u1, ForgetClear(true));
    var fg := map[];
    v := LostClearStaysSealed(u2, u.disk.file, fg, f);
    var before := a + [Operator(ForgetRemoved)] + [Operator(ForgetClear(true))];
    GoesJoin(w, before, u2, [Outside(PowerLoss(u.disk.file, fg))], v);
    steps := before + [Outside(PowerLoss(u.disk.file, fg))];
  }

  /** From nothing, on an archive that holds nothing, there is a run in which a delete of a pod finds nothing
      and ends, taking no lock, and a sync that had begun before puts the pod there: it is forgotten, but
      no deletion of it was reported. */
  lemma NothingToDeleteIsReached(w: World, f: Path) returns (steps: seq<Step>, v: World)
    requires Init(w) && OneFile(w, f) && w.arch.remote == map[] && w.arch.big == map[]
    ensures Goes(w, steps, v) && v.op == Idle && f.pod in v.disk.forgotten && f.pod !in v.log.reported
    ensures f in v.arch.remote
  {
    var a, w1 := Starts(w, f.lbl, f.pod);
    var b, w2 := FindsNothing(w1, {f.pod});
    GoesJoin(w, a, w1, b, w2);
    TransferOne(Content, w2.arch.remote, f, w2.local[f], 0);
    GoesOn(w, a + b, w2, Sync(Write(f, 0)));
    steps := a + b + [Sync(Write(f, 0))];
    v := WriteFile(w2, f, 0);
  }

  /** A delete that begins while a sync runs, and finds nothing. */
  lemma FindsNothing(w: World, dirs: set<Pod>) returns (steps: seq<Step>, v: World)
    requires w.op == Idle && w.snapLock == BySync && w.bigLock != ByOp && HoldsNoSnap(w, dirs) && HoldsNoBig(w, dirs)
    ensures Goes(w, steps, v) && v == w.(disk := v.disk) && dirs <= v.disk.forgotten.Keys
  {
    var a, b := Operator(ForgetSave(dirs)), Operator(ForgetNothing);
    GoesOnce(w, a);
    GoesOn(w, [a], BeginForget(w, dirs), b);
    steps := [a] + [b];
    v := OpEnds(BeginForget(w, dirs));
  }

  // ---- rsyncs left over -------------------------------------------------------------------------------------

  /** A sync of the one file killed as its rsync begins, which goes on. */
  lemma LeavesOne(w: World, f: Path) returns (steps: seq<Step>, v: World, x: Stray)
    requires OneFile(w, f)
    ensures Goes(w, steps, v) && x in v.strays.snap && IsOf(f, x.lbl, x.pod) && x.job == Job(Files, Content)
    ensures x.late == Over(f.lbl, w.start, w.now) && OneFile(v, f) && v.local == w.local && v.now == w.now
            && v.arch == w.arch
    ensures v.start == w.start && v.strays.snap == w.strays.snap + {x} && v.log.removed == w.log.removed
            && v.log.stale == w.log.stale
    ensures v.disk.file.bornEmpty == w.disk.file.bornEmpty && v.disk.file.volume == Some(v.arch.mounted)
    ensures v.disk.forgotten == w.disk.forgotten && v.strays.deletes == w.strays.deletes
  {
    var a, w1 := Starts(w, f.lbl, f.pod);
    v := EndDead(w1, true);
    x := Stray(Run(w1).number, f.lbl, f.pod, Job(Files, Content), Cur(w1).couldSeal, map[]);
    GoesOn(w, a, w1, Sync(Dies(true)));
    steps := a + [Sync(Dies(true))];
  }

  /** From nothing there is a run to a pod that an rsync left over has put back on the archive after its
      deletion was reported. */
  lemma StrayOutlivesForgetIsReached(w: World, f: Path) returns (steps: seq<Step>, v: World)
    requires Init(w) && OneFile(w, f)
    ensures Runs(w, steps, v) && f.pod in v.log.reported && f in v.arch.remote
  {
    var a, w1, x := LeavesOne(w, f);
    var w2 := BeginForget(w1, {f.pod});
    var w3 := OpApply(w2, ForgetLockSnap);
    RunsTwoMore(w, a, w1, Operator(ForgetSave({f.pod})), Operator(ForgetLockSnap));
    var b;
    b, v := StrayOutlivesForget(w3, x, f);
    RunsJoin(w, a + [Operator(ForgetSave({f.pod})), Operator(ForgetLockSnap)], w3, b, v);
    steps := a + [Operator(ForgetSave({f.pod})), Operator(ForgetLockSnap)] + b;
  }

  /** It has read the file; then the file is pulled anew, its label being open. */
  lemma ReadsOld(w: World, x: Stray, f: Path, e: Entry) returns (steps: seq<Step>, v: World, x': Stray)
    requires OneFile(w, f) && x in w.strays.snap && IsOf(f, x.lbl, x.pod) && x.job == Job(Files, Content)
    requires f.lbl == LabelAt(w.start, w.now) && Takes(Files, e) && !Takes(Git, e) && e.bytes != w.local[f].bytes
    ensures Goes(w, steps, v) && OneFile(v, f) && x' in v.strays.snap && x'.job == x.job
    ensures f in x'.read && x'.read[f].bytes != v.local[f].bytes
  {
    var w1 := Reading(w, x, f);
    x' := x.(read := x.read[f := w.local[f]]);
    v := w1.(local := w1.local[f := e]);
    GoesNowhere(w);
    GoesOn(w, [], w, Astray(Reads(x, f)));
    GoesOn(w, [] + [Astray(Reads(x, f))], w1, Outside(Pull(f, e, w.now)));
    steps := [] + [Astray(Reads(x, f))] + [Outside(Pull(f, e, w.now))];
  }

  /** From nothing, with the file's label still open, there is a run to a sealed label whose file an rsync
      left over has overwritten with what it was before its last pull. */
  lemma StrayUnsealsIsReached(w: World, f: Path, e: Entry) returns (steps: seq<Step>, v: World)
    requires Init(w) && OneFile(w, f) && f.lbl == LabelAt(w.start, w.now)
    requires Takes(Files, e) && !Takes(Git, e) && e.bytes != w.local[f].bytes
    ensures Goes(w, steps, v) && SealedFile(v, {f.pod}, f) && !OnArchive(v, f) && f in v.log.stale
  {
    var a, w1, x := LeavesOne(w, f);
    var b, w2, x' := ReadsOld(w1, x, f, e);
    var c, w3 := Seals(w2, f);
    GoesJoin(w, a, w1, b, w2);
    GoesJoin(w, a + b, w2, c, w3);
    v := StrayUnseals(w3, {f.pod}, x', f);
    GoesOn(w, a + b + c, w3, Astray(Writes(x', f, 0)));
    OneStep(w3, Astray(Writes(x', f, 0)));
    assert v == Apply(w3, Astray(Writes(x', f, 0))) by { RunsOnce(w3, Astray(Writes(x', f, 0)), v); }
    steps := a + b + c + [Astray(Writes(x', f, 0))];
  }

  lemma RunsOnce(w: World, s: Step, v: World)
    requires Runs(w, [s], v)
    ensures v == Apply(w, s)
  {
    assert [s][1..] == [];
    assert Runs(Apply(w, s), [], v);
  }

  // ---- a success that is lost ----------------------------------------------------------------------------------

  /** At rest, with the pod having failed so often on the label, whose day and grace are over. */
  predicate Failed(w: World, lbl: Label, p: Pod, n: nat) {
    && Resting(w) && p !in w.disk.forgotten && lbl.Dated? && Over(lbl, w.start, w.now)
    && FailsOf(RecordOf(w.disk.file, lbl), p) == n
    && (p in RecordOf(w.disk.file, lbl).givenUp <==> n >= GIVE_UP_AFTER)
    && (n > 0 ==> lbl in w.disk.file.labels)
  }

  /** A run in which the baseline gets through and the pod fails on the label. */
  lemma FailsOnce(w: World, lbl: Label, p: Pod, n: nat) returns (steps: seq<Step>, v: World)
    requires Failed(w, lbl, p, n) && n < GIVE_UP_AFTER
    ensures Goes(w, steps, v) && Failed(v, lbl, p, n + 1) && v.local == w.local && v.strays == w.strays
  {
    var a, w3 := TriesOnce(w, lbl, p, n);
    var w4 := EndNotOk(w3, Some(Other), None);
    var w5 := EndLabel(w4);
    v := EndRun(w5);
    ChargedIs(w3, lbl, p, n);
    GoesOn(w, a, w3, Sync(PodFail(Other)));
    GoesOn(w, a + [Sync(PodFail(Other))], w4, Sync(LabelDone));
    GoesOn(w, a + [Sync(PodFail(Other))] + [Sync(LabelDone)], w5, Sync(Settle));
    steps := a + [Sync(PodFail(Other))] + [Sync(LabelDone)] + [Sync(Settle)];
  }

  /** The pod's push is under way for the so manieth time, in a run in which the baseline got through. */
  ghost predicate Trying(v: World, lbl: Label, p: Pod, n: nat) {
    && Pushing(v) && Cur(v).lbl == lbl && Cur(v).push.value.pod == p && Cur(v).todo == []
    && Cur(v).started == v.now && Run(v).baselineOk && !Run(v).outage && Run(v).charges == []
    && Cur(v).cutMid == None && Cur(v).notStarted == None && v.snapLock == BySync
    && FailsOf(Cur(v).rec, p) == n && p !in Cur(v).rec.givenUp && Run(v).st.volume == Some(v.arch.mounted)
    && v.bigLock == Free && v.op == Idle && p !in v.disk.forgotten && v.disk.forgotten in v.disk.pendingForgotten
  }

  lemma ChargedIs(w: World, lbl: Label, p: Pod, n: nat)
    requires Trying(w, lbl, p, n) && n < GIVE_UP_AFTER && lbl.Dated? && Over(lbl, w.start, w.now)
    ensures var w1 := EndNotOk(w, Some(Other), None);
            && OnLabel(w1) && !Pushing(w1) && Cur(w1).todo == []
            && Syncing(EndLabel(w1)) && !OnLabel(EndLabel(w1)) && Failed(EndRun(EndLabel(w1)), lbl, p, n + 1)
  {
    var w2 := EndLabel(EndNotOk(w, Some(Other), None));
    var ch := Charge(lbl, p, Other, w.now, LabelEnd(lbl, w.start));
    assert Run(w2).charges == [ch];
    SettlesOne(Run(w2).st, ch, Run(w2).okPods);
  }

  lemma SettlesOne(st: SnapState, ch: Charge, okPods: set<Pod>)
    requires ch.cls == Other
    ensures SettleAll(st, [ch], okPods, true) == SettleOne(st, ch, okPods, true) && OtherOk(ch, okPods, true)
  {
    assert [ch][..0] == [];
    assert SettleAll(st, [], okPods, true) == st;
  }

  lemma TryingIs(w: World, lbl: Label, p: Pod, n: nat)
    requires Failed(w, lbl, p, n) && n < GIVE_UP_AFTER
    ensures var w2 := EndBaseline(BeginSync(w, w.arch.mounted, {p}, {}), true, false);
            var w3 := BeginLabel(w2, lbl, [p], true);
            && Cur(w3).todo == [p] && Trying(StartPush(w3, true, true), lbl, p, n)
  {
    BeginAllows(w, w.arch.mounted, p);
    LabelTakes(EndBaseline(BeginSync(w, w.arch.mounted, {p}, {}), true, false), lbl, p);
    assert [p][1..] == [];
  }

  lemma TriesOnce(w: World, lbl: Label, p: Pod, n: nat) returns (steps: seq<Step>, v: World)
    requires Failed(w, lbl, p, n) && n < GIVE_UP_AFTER
    ensures Goes(w, steps, v) && Trying(v, lbl, p, n) && v.start == w.start && v.now == w.now
    ensures v.local == w.local && v.strays == w.strays
  {
    TryingIs(w, lbl, p, n);
    BeginAllows(w, w.arch.mounted, p);
    var w1 := BeginSync(w, w.arch.mounted, {p}, {});
    var w2 := EndBaseline(w1, true, false);
    LabelTakes(w2, lbl, p);
    var w3 := BeginLabel(w2, lbl, [p], true);
    v := StartPush(w3, true, true);
    GoesOnce(w, Sync(Begin(w.arch.mounted, {p}, {})));
    steps := [Sync(Begin(w.arch.mounted, {p}, {}))];
    GoesOn(w, steps, w1, Sync(Baseline(true, false)));
    steps := steps + [Sync(Baseline(true, false))];
    GoesOn(w, steps, w2, Sync(LabelBegin(lbl, [p], true)));
    steps := steps + [Sync(LabelBegin(lbl, [p], true))];
    GoesOn(w, steps, w3, Sync(PodStart(true, true)));
    steps := steps + [Sync(PodStart(true, true))];
  }

  lemma GivesUp(w: World, lbl: Label, p: Pod) returns (steps: seq<Step>, v: World)
    requires Failed(w, lbl, p, 0)
    ensures Goes(w, steps, v) && Failed(v, lbl, p, 3) && v.local == w.local
  {
    var a, w1 := FailsOnce(w, lbl, p, 0);
    var b, w2 := FailsOnce(w1, lbl, p, 1);
    var c;
    c, v := FailsOnce(w2, lbl, p, 2);
    GoesJoin(w, a, w1, b, w2);
    GoesJoin(w, a + b, w2, c, v);
    steps := a + b + c;
  }

  /** The pod has no file there: a check of it passes over nothing. */
  lemma ChecksNothing(w: World, lbl: Label, p: Pod) returns (steps: seq<Step>, v: World)
    requires Checking(w, lbl, p, 0) && OnlyFile(w, lbl, p, {})
    ensures Goes(w, steps, v) && Checking(v, lbl, p, 4) && v.disk == w.disk && v.log == w.log
            && Cur(v).rec == Cur(w).rec
  {
    var w1 := PassDone(w, lbl, p, 0);
    var w2 := PassDone(w1, lbl, p, 1);
    var w3 := PassDone(w2, lbl, p, 2);
    v := PassDone(w3, lbl, p, 3);
    var one := [Sync(JobDone)];
    GoesJoin(w, one, w1, one, w2);
    GoesJoin(w, one + one, w2, one, w3);
    GoesJoin(w, one + one + one, w3, one, v);
    steps := one + one + one + one;
  }

  /** From nothing there is a run to a pod that is given up though its last push got through: a forced
      push of it did, and the power was lost before that was durable. */
  lemma LostSuccessIsReached(w: World, lbl: Label, p: Pod) returns (steps: seq<Step>, v: World)
    requires Init(w) && lbl.Dated? && LabelEnd(lbl, w.start).Some? && OnlyFile(w, lbl, p, {})
    ensures Runs(w, steps, v) && lbl in v.disk.file.labels && p in v.disk.file.labels[lbl].givenUp
    ensures forall e :: !(Stands(v, lbl, p, e) && Since(v, lbl, p, e))
  {
    var t, w1 := Waits(w, lbl);
    var a, w2 := GivesUp(w1, lbl, p);
    var b, w3 := Starts(w2, lbl, p);
    var c, w4 := ChecksNothing(w3, lbl, p);
    GoesJoin(w, [Outside(Tick(t))], w1, a, w2);
    GoesJoin(w, [Outside(Tick(t))] + a, w2, b, w3);
    GoesJoin(w, [Outside(Tick(t))] + a + b, w3, c, w4);
    var before := [Outside(Tick(t))] + a + b + c;
    GoesOn(w, before, w4, Sync(PodOk));
    var w5 := EndOk(w4);
    LostIn(w3, w4, w5, lbl, p);
    var st, fg := w3.disk.file, w5.disk.forgotten;
    LostSuccessStaysGivenUp(w5, st, fg, lbl, p, Run(w4).number);
    RunsAppend(w, before + [Sync(PodOk)], w5, Outside(PowerLoss(st, fg)));
    steps := before + [Sync(PodOk)] + [Outside(PowerLoss(st, fg))];
    v := LosePower(w5, st, fg);
  }

  lemma LostIn(w3: World, w4: World, w5: World, lbl: Label, p: Pod)
    requires Checking(w3, lbl, p, 0) && Checking(w4, lbl, p, 4) && w4.disk == w3.disk && w4.log == w3.log
             && w5 == EndOk(w4)
    requires p in Cur(w3).rec.givenUp && Run(w3).st.labels == Run(w3).st.labels[lbl := Cur(w3).rec]
    ensures w3.disk.file in w5.disk.pending && w5.disk.forgotten in w5.disk.pendingForgotten
    ensures lbl in w3.disk.file.labels && p in w3.disk.file.labels[lbl].givenUp
    ensures Passed(Run(w4).number, Some((lbl, p))) in w5.log.through && Run(w4).number + 1 == w5.log.runs
  {}
}

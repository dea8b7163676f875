/** Forget beats push: what holds of a pod from the report of its deletion on, exactly when. */
module ArchiveForgets {
  import opened Wrappers
  import opened ArchiveState
  import opened ArchiveWorld
  import opened ArchiveInvariant
  import opened ArchiveTheorems

  /** Nothing of a reported pod is there, still to be written, or may be pushed. */
  ghost predicate ForgetsHold(w: World) {
    && w.log.reported <= w.disk.forgotten.Keys
    && HoldsNoSnap(w, w.log.reported) && HoldsNoBig(w, w.log.reported)
    && (w.run.Some? ==> Run(w).allowed !! w.log.reported) && w.bigAllowed !! w.log.reported
    && NoStrayOf(w, w.log.reported) && w.strays.big !! w.log.reported
    && (w.op.Forget? && OpHoldsBig(w.op) ==> w.strays.big !! w.op.dirs)
    && (w.op.Forget? && (w.op.phase == Deleted || w.op.phase == Cleared) ==> HoldsNoBig(w, w.op.dirs))
  }

  /** The directory was synced since the last report: every `forgotten.json` that a power loss may
      bring back has all the reported pods. */
  predicate ForgetsSafe(w: World) {
    forall fg | fg in w.disk.pendingForgotten :: w.log.reported <= fg.Keys
  }

  /** The power is lost only when the forgets are safe; and a delete takes its locks when no big push of
      its pods is left over (`Fresh` says so of the snap tier's). */
  predicate ForgetsKept(w: World, s: Step) {
    && (s.Outside? && s.outside.PowerLoss? ==> ForgetsSafe(w))
    && (s.Operator? && s.op.ForgetLockBig? && w.op.Forget? ==> w.strays.big !! w.op.dirs)
  }

  /** A step that leaves the archive's files, the lists and what is left over as they are, and a run
      with pods that are not on the list. */
  predicate Aside(w: World, w': World) {
    && w'.arch.remote == w.arch.remote && w'.arch.big == w.arch.big && w'.strays == w.strays
    && w'.bigAllowed == w.bigAllowed && w'.op == w.op
    && w'.disk.forgotten == w.disk.forgotten && w'.log.reported == w.log.reported
    && (w'.run.Some? ==> (w.run.Some? && Run(w').allowed == Run(w).allowed) || Run(w').allowed !! w.disk.forgotten.Keys)
  }

  lemma AsideForgets(w: World, w': World)
    requires ForgetsHold(w) && Aside(w, w')
    ensures ForgetsHold(w')
  {}

  predicate WithinLabel(s: SyncStep) {
    s.PodLeftOut? || s.PodHeld? || s.PodNoTime? || s.PodStart? || s.JobDone? || s.PodOk?
  }

  lemma LabelAside(w: World, s: SyncStep)
    requires SyncEnabled(w, s) && WithinLabel(s)
    ensures Aside(w, SyncApply(w, s))
  {}

  lemma RunAside(w: World, s: SyncStep)
    requires SyncEnabled(w, s) && !WithinLabel(s) && !s.Write? && !s.Dies?
    ensures Aside(w, SyncApply(w, s))
  {}

  lemma SyncForgets(w: World, s: SyncStep)
    requires ForgetsHold(w) && SyncEnabled(w, s) && !s.Write? && !s.Dies?
    ensures ForgetsHold(SyncApply(w, s))
  {
    if WithinLabel(s) {
      LabelAside(w, s);
    } else {
      RunAside(w, s);
    }
    AsideForgets(w, SyncApply(w, s));
  }

  lemma WriteForgets(w: World, f: Path, stamp: nat)
    requires Inv(w) && ForgetsHold(w) && Pushing(w) && Carries(w, f)
    ensures ForgetsHold(WriteFile(w, f, stamp))
  {
    var p := Cur(w).push.value;
    TransferOne(p.jobs[p.at].compare, w.arch.remote, f, w.local[f], stamp);
  }

  lemma DeadForgets(w: World, stray: bool)
    requires Inv(w) && ForgetsHold(w) && Syncing(w)
    ensures ForgetsHold(EndDead(w, stray))
  {}

  lemma OpForgets(w: World, s: OpStep)
    requires Inv(w) && ForgetsHold(w) && OpEnabled(w, s) && !s.ForgetReport?
    requires s.ForgetLockBig? ==> w.strays.big !! w.op.dirs
    ensures ForgetsHold(OpApply(w, s))
  {}

  lemma ReportForgets(w: World)
    requires Inv(w) && ForgetsHold(w) && OpEnabled(w, ForgetReport)
    ensures ForgetsHold(Report(w))
  {
    assert MarkDeleted(w.disk.forgotten, w.op.dirs).Keys == w.disk.forgotten.Keys;
  }

  lemma OutsideForgets(w: World, s: OutsideStep)
    requires Inv(w) && ForgetsHold(w) && OutsideEnabled(w, s) && (s.PowerLoss? ==> ForgetsSafe(w))
    ensures ForgetsHold(OutsideApply(w, s))
  {}

  lemma StrayForgets(w: World, s: StrayStep)
    requires Inv(w) && ForgetsHold(w) && StrayEnabled(w, s)
    ensures ForgetsHold(StrayApply(w, s))
  {
    if s.Writes? {
      TransferOne(s.x.job.compare, w.arch.remote, s.f, s.x.read[s.f], s.stamp);
    }
  }

  lemma StepForgets(w: World, s: Step)
    requires Inv(w) && ForgetsHold(w) && Enabled(w, s) && ForgetsKept(w, s)
    ensures ForgetsHold(Apply(w, s))
  {
    match s
    case Sync(a) =>
      if a.Write? {
        WriteForgets(w, a.f, a.stamp);
      } else if a.Dies? {
        DeadForgets(w, a.stray);
      } else {
        SyncForgets(w, a);
      }
    case Operator(a) =>
      if a.ForgetReport? {
        ReportForgets(w);
      } else {
        OpForgets(w, a);
      }
    case Outside(a) => OutsideForgets(w, a);
    case Astray(a) => StrayForgets(w, a);
  }

  ghost predicate ForgetsRespected(w: World, steps: seq<Step>)
    decreases |steps|
  {
    steps == []
    || (Enabled(w, steps[0]) && ForgetsKept(w, steps[0]) && ForgetsRespected(Apply(w, steps[0]), steps[1..]))
  }

  lemma {:induction false} RunsForget(w: World, steps: seq<Step>, w': World)
    requires Inv(w) && ForgetsHold(w) && Runs(w, steps, w') && Kept(w, steps) && ForgetsRespected(w, steps)
    ensures ForgetsHold(w')
    decreases |steps|
  {
    if steps != [] {
      StepKeeps(w, steps[0]);
      StepForgets(w, steps[0]);
      RunsForget(Apply(w, steps[0]), steps[1..], w');
    }
  }

  /** Forget beats every concurrent push: from the report of its deletion until an unforget, the
      archive holds nothing of the pod, nothing is left that may still write it, and no sync that runs
      may push it. */
  lemma ForgetBeatsPush(w: World, steps: seq<Step>, w': World, p: Pod)
    requires Init(w) && Runs(w, steps, w') && Kept(w, steps) && ForgetsRespected(w, steps)
    requires p in w'.log.reported
    ensures (forall f | f in w'.arch.remote :: f.pod != p) && (forall b | b in w'.arch.big :: b.pod != p)
    ensures (forall x | x in w'.strays.snap :: x.pod != p) && p !in w'.strays.big
    ensures (Syncing(w') ==> p !in Run(w').allowed) && p !in w'.bigAllowed
  {
    InitHolds(w);
    assert ForgetsHold(w);
    RunsForget(w, steps, w');
  }

  // ---- when the power may be lost -------------------------------------------------------------------

  /** Syncing the directory, which the start of every push does, makes the forgets safe. */
  lemma SyncedIsSafe(w: World, st: SnapState)
    requires ForgetsHold(w)
    ensures ForgetsSafe(SaveDurable(w, st))
    ensures AtPod(w) ==> forall chain, hasLinks :: ForgetsSafe(StartPush(w, chain, hasLinks))
  {}

  /** A report makes them unsafe, exactly if the forget's own list may still be lost. */
  lemma ReportIsSafe(w: World)
    requires Inv(w) && OpEnabled(w, ForgetReport)
    ensures ForgetsSafe(Report(w)) <==> ForgetsSafe(w) && forall fg | fg in w.disk.pendingForgotten ::
            w.op.dirs <= fg.Keys
  {
    assert MarkDeleted(w.disk.forgotten, w.op.dirs).Keys == w.disk.forgotten.Keys;
    assert w.disk.forgotten in w.disk.pendingForgotten;
    forall fg | fg in w.disk.pendingForgotten ensures fg in Report(w).disk.pendingForgotten {}
  }

  /** The lists a power loss may bring back are those that were, or the one that is; and no report. */
  predicate ListsStay(w: World, w': World) {
    && w'.log.reported == w.log.reported && w'.disk.pendingForgotten <= w.disk.pendingForgotten + {w'.disk.forgotten}
    && w'.disk.forgotten in w.disk.pendingForgotten + {w.disk.forgotten}
  }

  lemma LabelLists(w: World, s: SyncStep)
    requires SyncEnabled(w, s) && WithinLabel(s)
    ensures ListsStay(w, SyncApply(w, s))
  {}

  lemma RunLists(w: World, s: SyncStep)
    requires SyncEnabled(w, s) && !WithinLabel(s)
    ensures ListsStay(w, SyncApply(w, s))
  {}

  lemma OutsideLists(w: World, s: OutsideStep)
    requires OutsideEnabled(w, s)
    ensures ListsStay(w, OutsideApply(w, s))
  {}

  lemma StrayLists(w: World, s: StrayStep)
    requires StrayEnabled(w, s)
    ensures ListsStay(w, StrayApply(w, s))
  {}

  lemma ListsStaySafe(w: World, w': World)
    requires ForgetsHold(w) && ForgetsSafe(w) && ListsStay(w, w')
    ensures ForgetsSafe(w')
  {}

  /** No other step does. */
  lemma OthersStaySafe(w: World, s: Step)
    requires Inv(w) && ForgetsHold(w) && Enabled(w, s) && s != Operator(ForgetReport) && ForgetsSafe(w)
    ensures ForgetsSafe(Apply(w, s))
  {
    match s
    case Sync(a) =>
      if WithinLabel(a) {
        LabelLists(w, a);
      } else {
        RunLists(w, a);
      }
      ListsStaySafe(w, Apply(w, s));
    case Operator(a) => OpsStaySafe(w, a);
    case Outside(a) =>
      OutsideLists(w, a);
      ListsStaySafe(w, Apply(w, s));
    case Astray(a) =>
      StrayLists(w, a);
      ListsStaySafe(w, Apply(w, s));
  }

  lemma OpsStaySafe(w: World, s: OpStep)
    requires Inv(w) && ForgetsHold(w) && OpEnabled(w, s) && !s.ForgetReport? && ForgetsSafe(w)
    ensures ForgetsSafe(OpApply(w, s))
  {}

  /** A power loss is safe if the forgets are. If they are not, a list without some reported pod may come
      back, and with it the very next sync may push any file of that pod that is listed. */
  lemma UnsafePowerLoss(w: World, fg: Forgotten, f: Path) returns (steps: seq<Step>, w': World)
    requires w.disk.file in w.disk.pending && fg in w.disk.pendingForgotten
    requires f.pod in w.log.reported && f.pod !in fg
    requires f in w.local && Takes(Files, w.local[f])
    ensures !ForgetsSafe(w)
    ensures Runs(w, steps, w') && f in w'.arch.remote && f.pod in w'.log.reported
  {
    var st := w.disk.file;
    var w1 := LosePower(w, st, fg);
    var rest;
    rest, w' := FirstWrite(w1, w1.arch.mounted, f);
    var a := Outside(PowerLoss(st, fg));
    steps := [a] + rest;
    assert steps[1..] == rest;
  }

  lemma UnsafeLacks(w: World) returns (fg: Forgotten, p: Pod)
    requires !ForgetsSafe(w)
    ensures fg in w.disk.pendingForgotten && p in w.log.reported && p !in fg
  {
    fg :| fg in w.disk.pendingForgotten && !(w.log.reported <= fg.Keys);
    p :| p in w.log.reported && p !in fg.Keys;
  }

  // ---- when a delete may take its locks ---------------------------------------------------------------

  /** What a delete leaves alone while it removes. */
  predicate Removing(w: World, w': World) {
    && w'.op == w.op && w'.strays == w.strays && w'.local == w.local && w'.disk == w.disk
    && w'.log.reported == w.log.reported && w'.snapLock == w.snapLock && w'.bigLock == w.bigLock
    && w'.start == w.start && w'.now == w.now && w'.run == w.run && w'.arch.mounted == w.arch.mounted
  }

  lemma {:induction false} RunsJoin(w: World, a: seq<Step>, v: World, b: seq<Step>, w': World)
    requires Runs(w, a, v) && Runs(v, b, w')
    ensures Runs(w, a + b, w')
    decreases |a|
  {
    if a == [] {
      assert a + b == b;
    } else {
      RunsJoin(Apply(w, a[0]), a[1..], v, b, w');
      assert (a + b)[1..] == a[1..] + b;
    }
  }

  lemma OneStep(w: World, s: Step)
    requires Enabled(w, s)
    ensures Runs(w, [s], Apply(w, s))
  {
    assert Runs(Apply(w, s), [], Apply(w, s)) && [s][1..] == [];
  }

  lemma {:induction false} RemovesAll(w: World, left: set<Path>) returns (steps: seq<Step>, w': World)
    requires w.op.Forget? && w.op.phase == HasBoth && left == set f | f in w.arch.remote && f.pod in w.op.dirs
    ensures Runs(w, steps, w') && Removing(w, w') && HoldsNoSnap(w', w.op.dirs) && w'.arch.big == w.arch.big
    decreases left
  {
    if left == {} {
      steps, w' := [], w;
      assert Runs(w, [], w);
      forall f | f in w.arch.remote ensures f.pod !in w.op.dirs {
        assert f !in left;
      }
    } else {
      var f :| f in left;
      var w1 := Gone(w, f);
      assert w1.arch.remote.Keys == w.arch.remote.Keys - {f};
      var rest;
      rest, w' := RemovesAll(w1, left - {f});
      OneStep(w, Operator(ForgetRemove(f)));
      RunsJoin(w, [Operator(ForgetRemove(f))], w1, rest, w');
      steps := [Operator(ForgetRemove(f))] + rest;
    }
  }

  lemma {:induction false} RemovesAllBig(w: World, left: set<BigPath>) returns (steps: seq<Step>, w': World)
    requires w.op.Forget? && w.op.phase == HasBoth && left == set b | b in w.arch.big && b.pod in w.op.dirs
    ensures Runs(w, steps, w') && Removing(w, w') && HoldsNoBig(w', w.op.dirs) && w'.arch.remote == w.arch.remote
    decreases left
  {
    if left == {} {
      steps, w' := [], w;
      assert Runs(w, [], w);
      forall b | b in w.arch.big ensures b.pod !in w.op.dirs {
        assert b !in left;
      }
    } else {
      var b :| b in left;
      var w1 := w.(arch := w.arch.(big := w.arch.big - {b}));
      assert w1.arch.big.Keys == w.arch.big.Keys - {b};
      var rest;
      rest, w' := RemovesAllBig(w1, left - {b});
      OneStep(w, Operator(ForgetRemoveBig(b)));
      RunsJoin(w, [Operator(ForgetRemoveBig(b))], w1, rest, w');
      steps := [Operator(ForgetRemoveBig(b))] + rest;
    }
  }

  /** What a delete's report leaves, the state cleared (`ok`) or not. */
  predicate Reported(w: World, w': World, ok: bool)
    requires w.op.Forget?
  {
    && w'.strays == w.strays && w'.local == w.local && w'.start == w.start && w'.now == w.now && w'.run == w.run
    && w'.arch.mounted == w.arch.mounted && w.op.dirs <= w'.log.reported
    && w'.op == Idle && w'.snapLock == Released(w.snapLock) && w'.bigLock == Released(w.bigLock)
    && w'.disk.file == (if ok then ForgetPushes(w.disk.file, w.op.dirs) else w.disk.file)
    && w'.disk.forgotten == MarkDeleted(w.disk.forgotten, w.op.dirs)
  }

  /** A delete that has its locks may come to its report with the archive emptied of its pods. */
  lemma DeleteReports(w: World, ok: bool) returns (steps: seq<Step>, w': World)
    requires w.op.Forget? && w.op.phase == HasBoth
    ensures Runs(w, steps, w') && Reported(w, w', ok)
    ensures HoldsNoSnap(w', w.op.dirs) && HoldsNoBig(w', w.op.dirs)
  {
    var a, w1 := RemovesAll(w, set f | f in w.arch.remote && f.pod in w.op.dirs);
    var b, w2 := RemovesAllBig(w1, set b | b in w1.arch.big && b.pod in w1.op.dirs);
    RunsJoin(w, a, w1, b, w2);
    var s := Operator(ForgetRemoved);
    RunsAppend(w, a + b, w2, s);
    var w3 := Apply(w2, s);
    RunsTwoMore(w, a + b + [s], w3, Operator(ForgetClear(ok)), Operator(ForgetReport));
    steps := a + b + [s] + [Operator(ForgetClear(ok)), Operator(ForgetReport)];
    w' := Report(Apply(w3, Operator(ForgetClear(ok))));
  }

  /** The condition on the locks is needed: whenever an rsync of one of its pods is left over as a delete
      takes them, the delete may be reported and a file of the pod be on the archive afterwards. */
  lemma StrayOutlivesForget(w: World, x: Stray, f: Path) returns (steps: seq<Step>, w': World)
    requires OpEnabled(w, ForgetLockBig) && x in w.strays.snap && x.pod in w.op.dirs
    requires f in w.local && IsOf(f, x.lbl, x.pod) && Takes(x.job.pass, w.local[f])
    ensures Runs(w, steps, w') && x.pod in w'.log.reported && f in w'.arch.remote
  {
    var w1 := OpApply(w, ForgetLockBig);
    OneStep(w, Operator(ForgetLockBig));
    var rest, w2 := DeleteReports(w1, false);
    RunsJoin(w, [Operator(ForgetLockBig)], w1, rest, w2);
    var w3 := Reading(w2, x, f);
    var x' := x.(read := x.read[f := w2.local[f]]);
    var a, b := Astray(Reads(x, f)), Astray(Writes(x', f, 0));
    w' := Put(w3, x'.job.compare, f, x'.read[f], 0);
    TransferOne(x'.job.compare, w3.arch.remote, f, x'.read[f], 0);
    RunsTwoMore(w, [Operator(ForgetLockBig)] + rest, w2, a, b);
    steps := [Operator(ForgetLockBig)] + rest + [a, b];
  }

  /** And so whenever a big push of one is. */
  lemma BigStrayOutlivesForget(w: World, b: BigPath) returns (steps: seq<Step>, w': World)
    requires OpEnabled(w, ForgetLockBig) && b.pod in w.strays.big && b.pod in w.op.dirs
    ensures Runs(w, steps, w') && b.pod in w'.log.reported && b in w'.arch.big
  {
    var w1 := OpApply(w, ForgetLockBig);
    OneStep(w, Operator(ForgetLockBig));
    var rest, w2 := DeleteReports(w1, false);
    RunsJoin(w, [Operator(ForgetLockBig)], w1, rest, w2);
    RunsAppend(w, [Operator(ForgetLockBig)] + rest, w2, Astray(WritesBig(b, "")));
    steps := [Operator(ForgetLockBig)] + rest + [Astray(WritesBig(b, ""))];
    w' := StrayApply(w2, WritesBig(b, ""));
  }
}

/** Deletes that come to their clearing of the sync state, and the seal: while none is at work, no file
    of a sealed label is gone. */
module ArchiveDeletes {
  import opened Wrappers
  import opened ArchiveState
  import opened ArchiveWorld
  import opened ArchiveInvariant
  import opened ArchiveTheorems
  import opened ArchiveStrays

  /** A delete has its locks, and has yet to clear what it removes from the sync state. */
  predicate AtWork(w: World) {
    w.op.Forget? && (w.op.phase == HasBoth || w.op.phase == Deleted)
  }

  predicate Deleting(w: World, p: Pod) {
    AtWork(w) && p in w.op.dirs
  }

  /** No version of the state that a power loss may bring back calls a tree final that the state itself
      does not: so it is once the directory is synced after a clearing. */
  ghost predicate ClearsSafe(w: World) {
    forall s, l, p | s in w.disk.pending && s.volume == Some(w.arch.mounted) && Final(s, l, p) ::
      w.disk.file.volume == s.volume && Final(w.disk.file, l, p)
  }

  /** A delete at work is not killed, and clears the state; and the power is lost when none is at work and
      no clearing is lost with it. */
  ghost predicate Clears(w: World, s: Step) {
    && (s.Operator? && s.op.OpDies? ==> !AtWork(w))
    && (s.Operator? && s.op.ForgetClear? ==> s.op.ok)
    && (s.Outside? && s.outside.PowerLoss? ==> !AtWork(w) && ClearsSafe(w))
  }

  predicate TreeThere(w: World, lbl: Label, p: Pod) {
    forall f | f in w.local && IsOf(f, lbl, p) && Storable(w.local[f]) :: f !in w.log.removed
  }

  /** Of a tree that the state calls final nothing is gone, but what a delete at work removes. */
  ghost predicate KeptThere(w: World, s: SnapState) {
    s.volume == Some(w.arch.mounted) ==> forall l, p | Final(s, l, p) :: TreeThere(w, l, p) || Deleting(w, p)
  }

  ghost predicate StatesThere(w: World) {
    && KeptThere(w, w.disk.file)
    && (w.run.Some? ==> KeptThere(w, Run(w).st))
    && (OnLabel(w) ==> KeptThere(w, PutRec(Run(w).st, Cur(w).lbl, Cur(w).rec)))
  }

  /** What a push that may seal has gone past is on the archive. */
  ghost predicate PassesThere(w: World) {
    Pushing(w) && Cur(w).couldSeal ==>
      var p, lbl := Cur(w).push.value, Cur(w).lbl;
      && (forall j, f | 0 <= j < p.at && j < |p.jobs| && InPass(w, p.jobs[j], f, lbl, p.pod) :: f in w.arch.remote)
      && (forall f | f in p.seen :: f in w.arch.remote)
  }

  ghost predicate Whole(w: World) {
    && w.log.removed !! w.arch.remote.Keys && w.strays.deletes == {}
    && StatesThere(w) && PassesThere(w)
  }

  // ---- frames -----------------------------------------------------------------------------------------

  /** Nothing more is gone; and a delete that is no longer at work has left nothing final of its pods. */
  predicate NoneGone(w: World, w': World) {
    && w'.local == w.local && w'.arch.mounted == w.arch.mounted && w'.log.removed <= w.log.removed
    && (AtWork(w) ==> AtWork(w') && w'.op.dirs == w.op.dirs)
  }

  lemma ThereFrame(w: World, w': World, s: SnapState)
    requires KeptThere(w, s) && NoneGone(w, w')
    ensures KeptThere(w', s)
  {}

  lemma ThereMono(w: World, s: SnapState, s': SnapState)
    requires KeptThere(w, s) && s'.volume == s.volume && forall l, p | Final(s', l, p) :: Final(s, l, p)
    ensures KeptThere(w, s')
  {}

  /** A step that leaves the archive, the state and the label's turn alone. */
  lemma WholeFrame(w: World, w': World)
    requires Whole(w) && NoneGone(w, w') && w'.arch.remote == w.arch.remote && w'.log.removed == w.log.removed
    requires w'.strays.deletes == {} && w'.disk.file == w.disk.file
    requires w'.run.Some? ==> w.run.Some? && Run(w').st == Run(w).st
    requires OnLabel(w') ==> OnLabel(w) && Cur(w').lbl == Cur(w).lbl && Cur(w').rec.podsFinal == Cur(w).rec.podsFinal
                             && Cur(w').couldSeal == Cur(w).couldSeal && (Pushing(w') ==> Cur(w').push == Cur(w).push)
    ensures Whole(w')
  {
    ThereFrame(w, w', w.disk.file);
    if w'.run.Some? {
      ThereFrame(w, w', Run(w).st);
    }
    if OnLabel(w') {
      ThereFrame(w, w', PutRec(Run(w).st, Cur(w).lbl, Cur(w).rec));
      ThereMono(w', PutRec(Run(w).st, Cur(w).lbl, Cur(w).rec), PutRec(Run(w').st, Cur(w').lbl, Cur(w').rec));
    }
  }

  /** The run saves a state that calls no more final than one it had. */
  lemma WholeSaved(w: World, w': World, s: SnapState, s': SnapState)
    requires Whole(w) && KeptThere(w, s) && NoneGone(w, w')
    requires w'.arch.remote == w.arch.remote && w'.log.removed == w.log.removed && w'.strays.deletes == {}
    requires s'.volume == s.volume && forall l, p | Final(s', l, p) :: Final(s, l, p)
    requires w'.disk.file == s' && (w'.run.Some? ==> Run(w').st == s') && !OnLabel(w')
    ensures Whole(w')
  {
    ThereFrame(w, w', s);
    ThereMono(w', s, s');
  }

  // ---- the sync's steps ------------------------------------------------------------------------------------

  lemma StartWhole(w: World, chain: bool, hasLinks: bool)
    requires Whole(w) && AtPod(w)
    ensures Whole(StartPush(w, chain, hasLinks))
  {
    var c, r := Cur(w), Run(w);
    var w' := StartPush(w, chain, hasLinks);
    PutRecTwice(r.st, c.lbl, Cur(w').rec, Cur(w').rec);
    ThereFrame(w, w', PutRec(r.st, c.lbl, c.rec));
    ThereMono(w', PutRec(r.st, c.lbl, c.rec), Run(w').st);
  }

  lemma PutThere(w: World, compare: Compare, f: Path, e: Entry, stamp: nat)
    requires w.log.removed !! w.arch.remote.Keys
    ensures var w' := Put(w, compare, f, e, stamp);
            && NoneGone(w, w') && w'.log.removed !! w'.arch.remote.Keys
            && w'.arch.remote.Keys == w.arch.remote.Keys + {f}
  {
    TransferOne(compare, w.arch.remote, f, e, stamp);
  }

  lemma WriteWhole(w: World, f: Path, stamp: nat)
    requires Whole(w) && Pushing(w) && Carries(w, f)
    ensures Whole(WriteFile(w, f, stamp))
  {
    var c, p := Cur(w), Cur(w).push.value;
    var w1 := WithCur(w, c.(push := Some(p.(seen := p.seen + {f}))));
    var w' := WriteFile(w, f, stamp);
    PutThere(w1, p.jobs[p.at].compare, f, w.local[f], stamp);
    forall s | KeptThere(w, s) ensures KeptThere(w', s) {
      ThereFrame(w, w', s);
    }
  }

  lemma JobDoneWhole(w: World)
    requires Whole(w) && Pushing(w) && JobEnds(w)
    ensures Whole(NextJob(w))
  {
    var w' := NextJob(w);
    var p, lbl := Cur(w).push.value, Cur(w).lbl;
    forall s | KeptThere(w, s) ensures KeptThere(w', s) {
      ThereFrame(w, w', s);
    }
    if Cur(w).couldSeal {
      forall j, f | 0 <= j < p.at + 1 && InPass(w', p.jobs[j], f, lbl, p.pod) ensures f in w.arch.remote {
        assert InPass(w, p.jobs[j], f, lbl, p.pod);
        if j == p.at {
          assert Carries(w, f);
        }
      }
    }
  }

  lemma CompletedIsThere(w: World)
    requires PushInv(w) && Whole(w) && Pushing(w) && Proves(w) && Cur(w).push.value.at == |Cur(w).push.value.jobs|
    ensures TreeThere(w, Cur(w).lbl, Cur(w).push.value.pod)
  {
    var c, p := Cur(w), Cur(w).push.value;
    forall f | f in w.local && IsOf(f, c.lbl, p.pod) && Storable(w.local[f]) ensures f !in w.log.removed {
      var j := if Takes(Files, w.local[f]) then 0 else if p.how == Check then 2 else 1;
      assert InPass(w, p.jobs[j], f, c.lbl, p.pod);
    }
  }

  lemma OkWhole(w: World)
    requires Inv(w) && Whole(w) && Pushing(w) && Cur(w).push.value.at == |Cur(w).push.value.jobs|
    ensures Whole(EndOk(w))
  {
    var c, r := Cur(w), Run(w);
    var w' := EndOk(w);
    PutRecTwice(r.st, c.lbl, Cur(w').rec, Cur(w').rec);
    if Proves(w) {
      CompletedIsThere(w);
    }
    ThereFrame(w, w', r.st);
    assert KeptThere(w', Run(w').st);
  }

  lemma NotOkWhole(w: World, failure: Option<PushFailure>, cutMid: Option<Pod>)
    requires Inv(w) && Whole(w) && Pushing(w)
    ensures Whole(EndNotOk(w, failure, cutMid))
  {
    var c, r := Cur(w), Run(w);
    var w' := EndNotOk(w, failure, cutMid);
    var after := Run(w').st;
    PutRecTwice(r.st, c.lbl, after.labels[c.lbl], after.labels[c.lbl]);
    ThereFrame(w, w', r.st);
    ThereMono(w', r.st, after);
  }

  lemma SettleWhole(w: World)
    requires Whole(w) && Syncing(w) && !OnLabel(w)
    ensures Whole(EndRun(w))
  {
    var r := Run(w);
    SettleSaysNoMore(r.st, r.charges, r.okPods, r.baselineOk);
    WholeSaved(w, EndRun(w), r.st, EndRun(w).disk.file);
  }

  lemma BeginWhole(w: World, dev: Volume, listed: set<Pod>, staff: set<Pod>)
    requires Volumes(w) && Whole(w)
    ensures Whole(BeginSync(w, dev, listed, staff))
  {
    var w' := BeginSync(w, dev, listed, staff);
    ThereFrame(w, w', w.disk.file);
    assert KeptThere(w', Run(w').st) by {
      assert NamesMountedOrEarlier(w.disk.file, w.arch.mounted);
    }
  }

  lemma LabelBeginWhole(w: World, lbl: Label, pods: seq<Pod>, forced: bool)
    requires Whole(w) && Syncing(w)
    ensures Whole(BeginLabel(w, lbl, pods, forced))
  {
    var w' := BeginLabel(w, lbl, pods, forced);
    forall s | KeptThere(w, s) ensures KeptThere(w', s) {
      ThereFrame(w, w', s);
    }
    ThereMono(w', Run(w).st, PutRec(Run(w).st, lbl, Cur(w').rec));
  }

  lemma TurnsWhole(w: World, s: SyncStep)
    requires Inv(w) && Whole(w) && SyncEnabled(w, s) && Turns(s)
    ensures Whole(SyncApply(w, s))
  {
    match s
    case Begin(dev, listed, staff) => BeginWhole(w, dev, listed, staff);
    case Baseline(ok, wide) => WholeSaved(w, EndBaseline(w, ok, wide), Run(w).st, Run(w).st);
    case LabelBegin(lbl, pods, forced) => LabelBeginWhole(w, lbl, pods, forced);
    case LabelDone =>
      WholeSaved(w, EndLabel(w), PutRec(Run(w).st, Cur(w).lbl, Cur(w).rec), Run(EndLabel(w)).st);
    case Settle => SettleWhole(w);
    case Dies(stray) => WholeFrame(w, EndDead(w, stray));
  }

  lemma PassesWhole(w: World, s: SyncStep)
    requires Whole(w) && SyncEnabled(w, s) && PassesOver(s)
    ensures Whole(SyncApply(w, s))
  {
    match s
    case PodLeftOut => WholeFrame(w, LeaveOut(w));
    case PodHeld(chain, hasLinks) => WholeFrame(w, Hold(w));
    case PodNoTime => WholeFrame(w, NoTime(w));
  }

  lemma PushWhole(w: World, s: SyncStep)
    requires Inv(w) && Whole(w) && SyncEnabled(w, s) && OfOnePush(s)
    ensures Whole(SyncApply(w, s))
  {
    match s
    case PodStart(chain, hasLinks) => StartWhole(w, chain, hasLinks);
    case Write(f, stamp) => WriteWhole(w, f, stamp);
    case JobDone => JobDoneWhole(w);
    case PodOk => OkWhole(w);
    case PodCut => NotOkWhole(w, None, if Cur(w).cutMid.Some? then Cur(w).cutMid else Some(Cur(w).push.value.pod));
    case PodFail(cls) => NotOkWhole(w, Some(cls), Cur(w).cutMid);
  }

  lemma SyncWhole(w: World, s: SyncStep)
    requires Inv(w) && Whole(w) && SyncEnabled(w, s)
    ensures Whole(SyncApply(w, s))
  {
    if Turns(s) {
      TurnsWhole(w, s);
    } else if PassesOver(s) {
      PassesWhole(w, s);
    } else {
      PushWhole(w, s);
    }
  }

  // ---- the others' -------------------------------------------------------------------------------------------

  lemma RemoveWhole(w: World, f: Path)
    requires Locks(w) && Whole(w) && OpEnabled(w, ForgetRemove(f))
    ensures Whole(Gone(w, f))
  {
    var w' := Gone(w, f);
    assert w.run == None;
    forall l, p | Final(w.disk.file, l, p) && w.disk.file.volume == Some(w.arch.mounted)
      ensures TreeThere(w', l, p) || Deleting(w', p)
    {
      assert TreeThere(w, l, p) || Deleting(w, p);
    }
  }

  lemma ClearWhole(w: World, dirs: set<Pod>, op: Op)
    requires Whole(w) && w.run == None
    requires AtWork(w) ==> dirs == w.op.dirs
    ensures Whole(ClearPushes(w, dirs).(op := op))
  {
    var s' := ForgetPushes(w.disk.file, dirs);
    forall l, p | Final(s', l, p) ensures Final(w.disk.file, l, p) && p !in dirs {}
  }

  lemma OpMovesWhole(w: World, s: OpStep)
    requires Whole(w) && OpEnabled(w, s) && Clears(w, Operator(s))
    requires !s.ForgetRemove? && !s.ForgetClear? && !s.UnforgetClear?
    ensures Whole(OpApply(w, s))
  {
    WholeFrame(w, OpApply(w, s));
  }

  lemma OpWhole(w: World, s: OpStep)
    requires Locks(w) && Whole(w) && OpEnabled(w, s) && Clears(w, Operator(s))
    ensures Whole(OpApply(w, s))
  {
    if s.ForgetRemove? {
      RemoveWhole(w, s.f);
    } else if s.ForgetClear? {
      ClearWhole(w, w.op.dirs, w.op.(phase := Cleared));
    } else if s.UnforgetClear? {
      ClearWhole(w, w.op.deleted, w.op.(turn := Emptied));
    } else {
      OpMovesWhole(w, s);
    }
  }

  lemma LocalThere(w: World, local: Tree, f: Path, s: SnapState)
    requires PulledOrPruned(w, local, f) && Sound(w, s) && KeptThere(w, s)
    ensures KeptThere(w.(local := local), s)
  {
    var w' := w.(local := local);
    if s.volume == Some(w.arch.mounted) {
      forall l, p | Final(s, l, p) ensures TreeThere(w', l, p) || Deleting(w', p) {
        assert FinalHolds(w, l, p);
      }
    }
  }

  lemma LocalWhole(w: World, local: Tree, f: Path)
    requires Inv(w) && Whole(w) && PulledOrPruned(w, local, f)
    ensures Whole(w.(local := local))
  {
    LocalThere(w, local, f, w.disk.file);
    if w.run.Some? {
      LocalThere(w, local, f, Run(w).st);
    }
    if OnLabel(w) {
      LocalThere(w, local, f, PutRec(Run(w).st, Cur(w).lbl, Cur(w).rec));
    }
    LocalPasses(w, local, f);
  }

  lemma LocalPasses(w: World, local: Tree, f: Path)
    requires LabelInv(w) && PassesThere(w) && PulledOrPruned(w, local, f)
    ensures PassesThere(w.(local := local))
  {
    var w' := w.(local := local);
    if Pushing(w) && Cur(w).couldSeal {
      var p, lbl := Cur(w).push.value, Cur(w).lbl;
      forall j, g | 0 <= j < |p.jobs| && InPass(w', p.jobs[j], g, lbl, p.pod)
        ensures InPass(w, p.jobs[j], g, lbl, p.pod) {}
    }
  }

  lemma SetUpWhole(w: World)
    requires Inv(w) && Whole(w) && Fresh(w, Outside(SetUp))
    ensures Whole(OutsideApply(w, SetUp))
  {
    if w.arch.cloud == w.arch.mounted {
      assert OutsideApply(w, SetUp) == w;
    } else if w.run == None {
      assert NamesMountedOrEarlier(w.disk.file, w.arch.mounted);
    }
  }

  lemma MarkWhole(w: World)
    requires Inv(w) && Whole(w) && OutsideEnabled(w, MarkBorn)
    ensures Whole(MarkBornEmpty(w))
  {
    assert w.run == None;
    if w.disk.file.volume == Some(w.arch.mounted) {
      WholeFrame(w, MarkBornEmpty(w));
    }
  }

  lemma PowerWhole(w: World, st: SnapState, fg: Forgotten)
    requires Whole(w) && st in w.disk.pending && !AtWork(w) && ClearsSafe(w)
    ensures Whole(LosePower(w, st, fg))
  {}

  lemma OutsideWhole(w: World, s: OutsideStep)
    requires Inv(w) && Whole(w) && OutsideEnabled(w, s) && Fresh(w, Outside(s)) && Clears(w, Outside(s))
    ensures Whole(OutsideApply(w, s))
  {
    match s
    case Pull(f, e, began) =>
      PulledIsOpen(f.lbl, w.start, began, w.now);
      LocalWhole(w, w.local[f := e], f);
    case Prune(f) => LocalWhole(w, w.local - {f}, f);
    case SetUp => SetUpWhole(w);
    case MarkBorn => MarkWhole(w);
    case PowerLoss(st, fg) => PowerWhole(w, st, fg);
    case _ => WholeFrame(w, OutsideApply(w, s));
  }

  lemma StrayWritesWhole(w: World, x: Stray, f: Path, stamp: nat)
    requires Whole(w) && StrayEnabled(w, Writes(x, f, stamp))
    ensures Whole(StrayApply(w, Writes(x, f, stamp)))
  {
    var w' := Put(w, x.job.compare, f, x.read[f], stamp);
    PutThere(w, x.job.compare, f, x.read[f], stamp);
    forall s | KeptThere(w, s) ensures KeptThere(w', s) {
      ThereFrame(w, w', s);
    }
  }

  lemma StrayWhole(w: World, s: StrayStep)
    requires Whole(w) && StrayEnabled(w, s)
    ensures Whole(StrayApply(w, s))
  {
    if s.Writes? {
      StrayWritesWhole(w, s.x, s.f, s.stamp);
    } else {
      WholeFrame(w, StrayApply(w, s));
    }
  }

  lemma StepWhole(w: World, s: Step)
    requires Inv(w) && Whole(w) && Enabled(w, s) && Fresh(w, s) && Clears(w, s)
    ensures Whole(Apply(w, s))
  {
    match s
    case Sync(a) => SyncWhole(w, a);
    case Operator(a) => OpWhole(w, a);
    case Outside(a) => OutsideWhole(w, a);
    case Astray(a) => StrayWhole(w, a);
  }

  // ---- over every run ------------------------------------------------------------------------------------------

  ghost predicate AllClear(w: World, steps: seq<Step>)
    decreases |steps|
  {
    steps == [] || (Enabled(w, steps[0]) && Clears(w, steps[0]) && AllClear(Apply(w, steps[0]), steps[1..]))
  }

  lemma {:induction false} RunsWhole(w: World, steps: seq<Step>, w': World)
    requires Inv(w) && Whole(w) && Runs(w, steps, w') && Kept(w, steps) && AllClear(w, steps)
    ensures Inv(w') && Whole(w')
    decreases |steps|
  {
    if steps != [] {
      StepKeeps(w, steps[0]);
      StepWhole(w, steps[0]);
      RunsWhole(Apply(w, steps[0]), steps[1..], w');
    }
  }

  /** Where every delete that has its locks comes to clear the state, and that is not lost, no delete has
      removed a file of a sealed label, but one at work. */
  lemma SealedIsWhole(w: World, steps: seq<Step>, w': World, pods: set<Pod>, f: Path)
    requires Init(w) && Runs(w, steps, w') && Kept(w, steps) && AllClear(w, steps)
    requires SealedFile(w', pods, f)
    ensures Deleting(w', f.pod) || f !in w'.log.removed
    ensures Deleting(w', f.pod) || (OnArchive(w', f) <==> f !in w'.log.stale)
  {
    InitHolds(w);
    RunsWhole(w, steps, w');
    SealedIsSettled(w', pods, f);
    assert NamesMountedOrEarlier(w'.disk.file, w'.arch.mounted);
    assert KeptThere(w', w'.disk.file) && Final(w'.disk.file, f.lbl, f.pod);
  }

  /** And where besides no push that may seal begins beside an rsync from before its label was over, what
      is sealed is on the archive. */
  lemma SealedIsThere(w: World, steps: seq<Step>, w': World, pods: set<Pod>, f: Path)
    requires Init(w) && Runs(w, steps, w') && Kept(w, steps) && AllClear(w, steps) && SealedAlone(w, steps)
    requires SealedFile(w', pods, f)
    ensures Deleting(w', f.pod) || OnArchive(w', f)
  {
    SealedIsWhole(w, steps, w', pods, f);
    SealedUnlessRemoved(w, steps, w', pods, f);
  }

  // ---- where it stops --------------------------------------------------------------------------------------

  /** A clearing that fails leaves the labels sealed, though the deletion is reported. */
  lemma FailedClearStaysSealed(w: World, f: Path) returns (steps: seq<Step>, w': World)
    requires w.op.Forget? && w.op.phase == Deleted && f.pod in w.op.dirs
    requires Sealed(f.lbl, w.disk.file, w.start, {f.pod}) && f in w.local && f !in w.arch.remote
    ensures Runs(w, steps, w') && Kept(w, steps) && !AtWork(w') && f.pod in w'.log.reported
    ensures Sealed(f.lbl, w'.disk.file, w'.start, {f.pod}) && f in w'.local && !OnArchive(w', f)
  {
    var a, b := Operator(ForgetClear(false)), Operator(ForgetReport);
    var w1 := Apply(w, a);
    w' := Report(w1);
    steps := [a, b];
    assert steps[1..] == [b] && [b][1..] == [];
    assert Runs(w', [], w') && Kept(w', []);
    assert Runs(w1, [b], w') && Kept(w1, [b]);
  }

  /** A clearing that is lost with the power does: it was saved without syncing the directory. */
  lemma LostClearStaysSealed(w: World, st: SnapState, fg: Forgotten, f: Path) returns (w': World)
    requires st in w.disk.pending && fg in w.disk.pendingForgotten
    requires Sealed(f.lbl, st, w.start, {f.pod}) && f in w.local && f !in w.arch.remote
    ensures Runs(w, [Outside(PowerLoss(st, fg))], w') && Kept(w, [Outside(PowerLoss(st, fg))]) && !AtWork(w')
    ensures Sealed(f.lbl, w'.disk.file, w'.start, {f.pod}) && f in w'.local && !OnArchive(w', f)
  {
    var a := Outside(PowerLoss(st, fg));
    w' := LosePower(w, st, fg);
    assert [a][1..] == [] && Runs(w', [], w') && Kept(w', []);
  }

  // ---- which steps make a clearing safe ----------------------------------------------------------------------

  /** Syncing the directory, as the start of every push does. */
  lemma SyncedClearIsSafe(w: World, st: SnapState)
    ensures ClearsSafe(SaveDurable(w, st))
    ensures AtPod(w) ==> forall chain, hasLinks :: ClearsSafe(StartPush(w, chain, hasLinks))
  {}
}

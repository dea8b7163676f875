/** Rsyncs left over from killed syncs, and the seal: they undo it only if one that began before its
    label was over is left when the push that makes the pod's tree final begins. */
module ArchiveStrays {
  import opened Wrappers
  import opened ArchiveState
  import opened ArchiveWorld
  import opened ArchiveInvariant
  import opened ArchiveTheorems

  /** A push that may seal begins when no rsync of that pod and label is left over that began before the
      label was past its day and grace. */
  predicate SealsAlone(w: World, s: Step) {
    s.Sync? && s.sync.PodStart? && AtPod(w) && Cur(w).couldSeal ==> NoEarly(w, Cur(w).lbl, Cur(w).todo[0])
  }

  predicate NoEarly(w: World, lbl: Label, p: Pod) {
    forall x | x in w.strays.snap && x.lbl == lbl && x.pod == p :: x.late
  }

  /** What it has read is what the control box has still. */
  predicate ReadsFinal(w: World, x: Stray) {
    forall f | f in x.read && f in w.local :: x.read[f].bytes == w.local[f].bytes
  }

  ghost predicate LateReadFinal(w: World) {
    forall x | x in w.strays.snap && x.late :: Over(x.lbl, w.start, w.now) && ReadsFinal(w, x)
  }

  predicate TreeClean(w: World, lbl: Label, p: Pod) {
    forall f | f in w.local && IsOf(f, lbl, p) && Storable(w.local[f]) :: f !in w.log.stale
  }

  /** No rsync left over has undone a tree that the state calls final, nor will. */
  ghost predicate KeptClean(w: World, s: SnapState) {
    s.volume == Some(w.arch.mounted) ==> forall l, p | Final(s, l, p) :: NoEarly(w, l, p) && TreeClean(w, l, p)
  }

  predicate NoneFinal(s: SnapState, lbl: Label) {
    lbl in s.labels ==> s.labels[lbl].podsFinal == {}
  }

  ghost predicate StatesClean(w: World) {
    && (forall s | s in w.disk.pending :: KeptClean(w, s))
    && (w.run.Some? ==> KeptClean(w, Run(w).st))
    && (OnLabel(w) ==> KeptClean(w, PutRec(Run(w).st, Cur(w).lbl, Cur(w).rec)))
  }

  /** While a label is open no state that a sync holds or may lose calls a tree of it final. */
  ghost predicate OpenNotFinal(w: World) {
    OnLabel(w) && !Cur(w).couldSeal ==>
      && Cur(w).rec.podsFinal == {} && NoneFinal(Run(w).st, Cur(w).lbl)
      && (forall s | s in w.disk.pending && s.volume == Some(w.arch.mounted) :: NoneFinal(s, Cur(w).lbl))
  }

  ghost predicate PassesClean(w: World, p: Push, lbl: Label) {
    forall j, f | 0 <= j < p.at && j < |p.jobs| && Compares(p.jobs[j]) && InPass(w, p.jobs[j], f, lbl, p.pod) ::
      f !in w.log.stale
  }

  ghost predicate SeenClean(w: World, p: Push) {
    p.at < |p.jobs| && Compares(p.jobs[p.at]) ==> forall f | f in p.seen && f in w.local :: f !in w.log.stale
  }

  ghost predicate ProofClean(w: World) {
    Pushing(w) && Cur(w).couldSeal ==>
      var p, lbl := Cur(w).push.value, Cur(w).lbl;
      && NoEarly(w, lbl, p.pod)
      && (Proves(w) ==> PassesClean(w, p, lbl) && SeenClean(w, p))
  }

  ghost predicate Calm(w: World) {
    LateReadFinal(w) && StatesClean(w) && OpenNotFinal(w) && ProofClean(w)
  }

  // ---- frames ---------------------------------------------------------------------------------------

  lemma CleanMono(w: World, s: SnapState, s': SnapState)
    requires KeptClean(w, s) && s'.volume == s.volume && forall l, p | Final(s', l, p) :: Final(s, l, p)
    ensures KeptClean(w, s')
  {}

  lemma CleanFrame(w: World, w': World, s: SnapState)
    requires KeptClean(w, s) && SameGround(w, w')
    ensures KeptClean(w', s)
  {}

  lemma LateFrame(w: World, w': World)
    requires LateReadFinal(w) && SameGround(w, w')
    ensures LateReadFinal(w')
  {}

  /** A step that leaves the archive, the states and the label's turn alone. */
  lemma CalmFrame(w: World, w': World)
    requires Calm(w) && SameGround(w, w') && w'.disk.pending <= w.disk.pending
    requires w'.run.Some? ==> w.run.Some? && Run(w').st == Run(w).st
    requires OnLabel(w') ==> OnLabel(w) && Cur(w').lbl == Cur(w).lbl && Cur(w').rec.podsFinal == Cur(w).rec.podsFinal
                             && Cur(w').couldSeal == Cur(w).couldSeal && (Pushing(w') ==> Cur(w').push == Cur(w).push)
    ensures Calm(w')
  {
    LateFrame(w, w');
    CalmStates(w, w');
  }

  lemma CalmStates(w: World, w': World)
    requires StatesClean(w) && SameGround(w, w') && w'.disk.pending <= w.disk.pending
    requires w'.run.Some? ==> w.run.Some? && Run(w').st == Run(w).st
    requires OnLabel(w') ==> OnLabel(w) && Cur(w').lbl == Cur(w).lbl && Cur(w').rec.podsFinal == Cur(w).rec.podsFinal
    ensures StatesClean(w')
  {
    forall s | KeptClean(w, s) ensures KeptClean(w', s) {
      CleanFrame(w, w', s);
    }
    if OnLabel(w') {
      CleanMono(w', PutRec(Run(w).st, Cur(w).lbl, Cur(w).rec), PutRec(Run(w').st, Cur(w').lbl, Cur(w').rec));
    }
  }

  /** The run saves a state that calls no more final than one it had. */
  lemma CalmSaved(w: World, w': World, s: SnapState, s': SnapState)
    requires Calm(w) && KeptClean(w, s) && SameGround(w, w')
    requires s'.volume == s.volume && forall l, p | Final(s', l, p) :: Final(s, l, p)
    requires w'.disk.pending <= w.disk.pending + {s'} && (w'.run.Some? ==> Run(w').st == s') && !OnLabel(w')
    ensures Calm(w')
  {
    LateFrame(w, w');
    CleanMono(w, s, s');
    forall x | KeptClean(w, x) ensures KeptClean(w', x) {
      CleanFrame(w, w', x);
    }
  }

  // ---- the sync's steps --------------------------------------------------------------------------------

  lemma StartCalm(w: World, chain: bool, hasLinks: bool)
    requires Calm(w) && AtPod(w) && SealsAlone(w, Sync(PodStart(chain, hasLinks)))
    ensures Calm(StartPush(w, chain, hasLinks))
  {
    var c, r := Cur(w), Run(w);
    var w' := StartPush(w, chain, hasLinks);
    LateFrame(w, w');
    PutRecTwice(r.st, c.lbl, Cur(w').rec, Cur(w').rec);
    CleanFrame(w, w', PutRec(r.st, c.lbl, c.rec));
    CleanMono(w', PutRec(r.st, c.lbl, c.rec), Run(w').st);
  }

  /** Bytes that are the control box's own never make a file unclean; others only their own. */
  lemma PutClean(w: World, compare: Compare, f: Path, e: Entry, stamp: nat)
    ensures var w' := Put(w, compare, f, e, stamp);
            && (forall g | g in w'.log.stale :: g in w.log.stale || g == f)
            && (f in w.local && e.bytes == w.local[f].bytes && f !in w.log.stale ==> f !in w'.log.stale)
            && (f in w.local && e.bytes == w.local[f].bytes && (compare == Content || f !in w.arch.remote) ==>
               f !in w'.log.stale)
  {
    TransferOne(compare, w.arch.remote, f, e, stamp);
  }

  lemma PutKeepsClean(w: World, compare: Compare, f: Path, e: Entry, stamp: nat, s: SnapState)
    requires KeptClean(w, s)
    requires s.volume == Some(w.arch.mounted) && Final(s, f.lbl, f.pod) && f in w.local ==> e.bytes == w.local[f].bytes
    ensures KeptClean(Put(w, compare, f, e, stamp), s)
  {
    PutClean(w, compare, f, e, stamp);
  }

  lemma WriteKeepsClean(w: World, f: Path, stamp: nat, s: SnapState)
    requires Inv(w) && Calm(w) && Pushing(w) && Carries(w, f) && KeptClean(w, s)
    ensures KeptClean(WriteFile(w, f, stamp), s)
  {
    var c, p := Cur(w), Cur(w).push.value;
    var w1 := WithCur(w, c.(push := Some(p.(seen := p.seen + {f}))));
    CleanFrame(w, w1, s);
    PutKeepsClean(w1, p.jobs[p.at].compare, f, w.local[f], stamp, s);
  }

  lemma WriteCalm(w: World, f: Path, stamp: nat)
    requires Inv(w) && Calm(w) && Pushing(w) && Carries(w, f)
    ensures Calm(WriteFile(w, f, stamp))
  {
    var c, r := Cur(w), Run(w);
    var p := c.push.value;
    var w1 := WithCur(w, c.(push := Some(p.(seen := p.seen + {f}))));
    var w' := WriteFile(w, f, stamp);
    PutClean(w1, p.jobs[p.at].compare, f, w.local[f], stamp);
    forall s | KeptClean(w, s) ensures KeptClean(w', s) {
      WriteKeepsClean(w, f, stamp, s);
    }
    if Proves(w) && p.how == Seed && f in w.arch.remote {
      assert OnlySeeded(w, c.lbl, p.pod);
      assert Settled(w, f) && OnArchive(w, f);
    }
  }

  lemma JobDoneCalm(w: World)
    requires Calm(w) && Pushing(w) && JobEnds(w)
    ensures Calm(NextJob(w))
  {
    var w' := NextJob(w);
    var p, lbl := Cur(w).push.value, Cur(w).lbl;
    LateFrame(w, w');
    CalmStates(w, w');
    if Cur(w).couldSeal && Proves(w') {
      assert Proves(w);
      forall j, f | 0 <= j < p.at + 1 && Compares(p.jobs[j]) && InPass(w', p.jobs[j], f, lbl, p.pod)
          ensures f !in w'.log.stale {
        assert InPass(w, p.jobs[j], f, lbl, p.pod);
        if j == p.at {
          assert Carries(w, f);
        }
      }
    }
  }

  lemma CompletedIsClean(w: World)
    requires PushInv(w) && ProofClean(w) && Pushing(w) && Proves(w) && Cur(w).push.value.at == |Cur(w).push.value.jobs|
    ensures TreeClean(w, Cur(w).lbl, Cur(w).push.value.pod) && NoEarly(w, Cur(w).lbl, Cur(w).push.value.pod)
  {
    var c := Cur(w);
    var p := c.push.value;
    forall f | f in w.local && IsOf(f, c.lbl, p.pod) && Storable(w.local[f]) ensures f !in w.log.stale {
      var j := if Takes(Files, w.local[f]) then 0 else if p.how == Check then 2 else 1;
      assert Compares(p.jobs[j]) && InPass(w, p.jobs[j], f, c.lbl, p.pod);
    }
  }

  lemma OkCalm(w: World)
    requires Inv(w) && Calm(w) && Pushing(w) && Cur(w).push.value.at == |Cur(w).push.value.jobs|
    ensures Calm(EndOk(w))
  {
    var c, r := Cur(w), Run(w);
    var p := c.push.value;
    var w' := EndOk(w);
    var after := Run(w').st;
    PutRecTwice(r.st, c.lbl, Cur(w').rec, Cur(w').rec);
    if Proves(w) {
      CompletedIsClean(w);
    }
    LateFrame(w, w');
    CleanFrame(w, w', r.st);
    assert KeptClean(w', after);
  }

  lemma NotOkCalm(w: World, failure: Option<PushFailure>, cutMid: Option<Pod>)
    requires Inv(w) && Calm(w) && Pushing(w)
    ensures Calm(EndNotOk(w, failure, cutMid))
  {
    var c, r := Cur(w), Run(w);
    var w' := EndNotOk(w, failure, cutMid);
    var after := Run(w').st;
    PutRecTwice(r.st, c.lbl, after.labels[c.lbl], after.labels[c.lbl]);
    LateFrame(w, w');
    CleanFrame(w, w', r.st);
    CleanMono(w', r.st, after);
  }

  lemma LabelDoneCalm(w: World)
    requires Calm(w) && OnLabel(w)
    ensures Calm(EndLabel(w))
  {
    CalmSaved(w, EndLabel(w), PutRec(Run(w).st, Cur(w).lbl, Cur(w).rec), Run(EndLabel(w)).st);
  }

  lemma SettleCalm(w: World)
    requires Calm(w) && Syncing(w) && !OnLabel(w)
    ensures Calm(EndRun(w))
  {
    var r := Run(w);
    SettleSaysNoMore(r.st, r.charges, r.okPods, r.baselineOk);
    CalmSaved(w, EndRun(w), r.st, EndRun(w).disk.file);
  }

  lemma BeginCalm(w: World, dev: Volume, listed: set<Pod>, staff: set<Pod>)
    requires Volumes(w) && Calm(w)
    ensures Calm(BeginSync(w, dev, listed, staff))
  {
    var w' := BeginSync(w, dev, listed, staff);
    LateFrame(w, w');
    forall s | KeptClean(w, s) ensures KeptClean(w', s) {
      CleanFrame(w, w', s);
    }
    assert KeptClean(w', w.disk.file);
    assert KeptClean(w', Run(w').st) by {
      if w.disk.file.volume == Some(dev) || w.disk.file.volume == None {
        assert NamesMountedOrEarlier(w.disk.file, w.arch.mounted);
      }
    }
  }

  lemma LabelBeginCalm(w: World, lbl: Label, pods: seq<Pod>, forced: bool)
    requires Inv(w) && Calm(w) && SyncEnabled(w, LabelBegin(lbl, pods, forced))
    ensures Calm(BeginLabel(w, lbl, pods, forced))
  {
    var w' := BeginLabel(w, lbl, pods, forced);
    LateFrame(w, w');
    forall s | KeptClean(w, s) ensures KeptClean(w', s) {
      CleanFrame(w, w', s);
    }
    CleanMono(w', Run(w).st, PutRec(Run(w).st, lbl, Cur(w').rec));
    if !Cur(w').couldSeal {
      forall s | Sound(w, s) && s.volume == Some(w.arch.mounted) ensures NoneFinal(s, lbl) {
        OpenIsNotFinal(w, s, lbl);
      }
      assert NoneFinal(Run(w).st, lbl);
    }
  }

  lemma OpenIsNotFinal(w: World, s: SnapState, lbl: Label)
    requires Sound(w, s) && s.volume == Some(w.arch.mounted) && !Over(lbl, w.start, w.now)
    ensures NoneFinal(s, lbl)
  {
    if lbl in s.labels {
      forall p ensures p !in s.labels[lbl].podsFinal {
        assert Final(s, lbl, p) ==> FinalHolds(w, lbl, p);
      }
    }
  }

  lemma DeadCalm(w: World, stray: bool)
    requires Inv(w) && Calm(w) && Syncing(w)
    ensures Calm(EndDead(w, stray))
  {
    var w' := EndDead(w, stray);
    forall s | s in w.disk.pending ensures KeptClean(w', s) {
      assert KeptClean(w, s);
    }
  }

  lemma PassesCalm(w: World, s: SyncStep)
    requires Inv(w) && Calm(w) && SyncEnabled(w, s) && PassesOver(s)
    ensures Calm(SyncApply(w, s))
  {
    match s
    case PodLeftOut => CalmFrame(w, LeaveOut(w));
    case PodHeld(chain, hasLinks) => CalmFrame(w, Hold(w));
    case PodNoTime => CalmFrame(w, NoTime(w));
  }

  lemma TurnsCalm(w: World, s: SyncStep)
    requires Inv(w) && Calm(w) && SyncEnabled(w, s) && SealsAlone(w, Sync(s)) && Turns(s)
    ensures Calm(SyncApply(w, s))
  {
    match s
    case Begin(dev, listed, staff) => BeginCalm(w, dev, listed, staff);
    case Baseline(ok, wide) => CalmSaved(w, EndBaseline(w, ok, wide), Run(w).st, Run(w).st);
    case LabelBegin(lbl, pods, forced) => LabelBeginCalm(w, lbl, pods, forced);
    case LabelDone => LabelDoneCalm(w);
    case Settle => SettleCalm(w);
    case Dies(stray) => DeadCalm(w, stray);
  }

  lemma SyncCalm(w: World, s: SyncStep)
    requires Inv(w) && Calm(w) && SyncEnabled(w, s) && SealsAlone(w, Sync(s))
    ensures Calm(SyncApply(w, s))
  {
    if Turns(s) {
      TurnsCalm(w, s);
    } else if PassesOver(s) {
      PassesCalm(w, s);
    } else {
      PushCalm(w, s);
    }
  }

  lemma PushCalm(w: World, s: SyncStep)
    requires Inv(w) && Calm(w) && SyncEnabled(w, s) && SealsAlone(w, Sync(s)) && OfOnePush(s)
    ensures Calm(SyncApply(w, s))
  {
    match s
    case PodStart(chain, hasLinks) => StartCalm(w, chain, hasLinks);
    case Write(f, stamp) => WriteCalm(w, f, stamp);
    case JobDone => JobDoneCalm(w);
    case PodOk => OkCalm(w);
    case PodCut => NotOkCalm(w, None, if Cur(w).cutMid.Some? then Cur(w).cutMid else Some(Cur(w).push.value.pod));
    case PodFail(cls) => NotOkCalm(w, Some(cls), Cur(w).cutMid);
  }

  // ---- the others' --------------------------------------------------------------------------------------

  lemma GoneCalm(w: World, f: Path)
    requires Calm(w)
    ensures Calm(Gone(w, f))
  {
    var w' := Gone(w, f);
    forall s | KeptClean(w, s) ensures KeptClean(w', s) {}
  }

  lemma ClearCalm(w: World, dirs: set<Pod>, op: Op)
    requires Calm(w) && w.run == None && w.disk.file in w.disk.pending
    ensures Calm(ClearPushes(w, dirs).(op := op))
  {
    var w' := ClearPushes(w, dirs).(op := op);
    CleanMono(w, w.disk.file, ForgetPushes(w.disk.file, dirs));
    forall s | KeptClean(w, s) ensures KeptClean(w', s) {
      CleanFrame(w, w', s);
    }
    LateFrame(w, w');
  }

  lemma OpCalm(w: World, s: OpStep)
    requires Inv(w) && Calm(w) && OpEnabled(w, s)
    ensures Calm(OpApply(w, s))
  {
    if s.ForgetRemove? {
      GoneCalm(w, s.f);
    } else if s.ForgetClear? && s.ok {
      ClearCalm(w, w.op.dirs, w.op.(phase := Cleared));
    } else if s.UnforgetClear? {
      ClearCalm(w, w.op.deleted, w.op.(turn := Emptied));
    } else {
      CalmFrame(w, OpApply(w, s));
    }
  }

  lemma LocalCalm(w: World, local: Tree, f: Path)
    requires Inv(w) && Calm(w) && PulledOrPruned(w, local, f)
    ensures Calm(w.(local := local))
  {
    var w' := w.(local := local);
    forall g | g in local && Over(g.lbl, w.start, w.now) ensures g in w.local && local[g] == w.local[g] {}
    assert LateReadFinal(w') by {
      forall x, g | x in w.strays.snap && x.late && g in x.read && g in local
          ensures x.read[g].bytes == local[g].bytes {
        assert IsOf(g, x.lbl, x.pod);
      }
    }
    forall s | Sound(w, s) && KeptClean(w, s) ensures KeptClean(w', s) {
      if s.volume == Some(w.arch.mounted) {
        forall l, p | Final(s, l, p) ensures NoEarly(w', l, p) && TreeClean(w', l, p) {
          assert FinalHolds(w, l, p);
        }
      }
    }
  }

  lemma SetUpCalm(w: World)
    requires Inv(w) && Calm(w) && Fresh(w, Outside(SetUp))
    ensures Calm(OutsideApply(w, SetUp))
  {
    if w.arch.cloud == w.arch.mounted {
      assert OutsideApply(w, SetUp) == w;
    } else {
      forall s | s in w.disk.pending ensures s.volume != Some(w.arch.cloud) {
        assert NamesMountedOrEarlier(s, w.arch.mounted);
      }
    }
  }

  lemma MarkCalm(w: World)
    requires Inv(w) && Calm(w) && OutsideEnabled(w, MarkBorn)
    ensures Calm(MarkBornEmpty(w))
  {
    assert w.run == None;
    if w.disk.file.volume == Some(w.arch.mounted) {
      CalmFrame(w, MarkBornEmpty(w));
    }
  }

  lemma OutsideCalm(w: World, s: OutsideStep)
    requires Inv(w) && Calm(w) && OutsideEnabled(w, s) && Fresh(w, Outside(s))
    ensures Calm(OutsideApply(w, s))
  {
    match s
    case Pull(f, e, began) =>
      PulledIsOpen(f.lbl, w.start, began, w.now);
      LocalCalm(w, w.local[f := e], f);
    case Prune(f) => LocalCalm(w, w.local - {f}, f);
    case SetUp => SetUpCalm(w);
    case MarkBorn => MarkCalm(w);
    case _ => CalmFrame(w, OutsideApply(w, s));
  }

  lemma ReadsCalm(w: World, x: Stray, f: Path)
    requires Calm(w) && StrayEnabled(w, Reads(x, f))
    ensures Calm(Reading(w, x, f))
  {
    var w' := Reading(w, x, f);
    forall s | KeptClean(w, s) ensures KeptClean(w', s) {}
  }

  lemma StrayWritesCalm(w: World, x: Stray, f: Path, stamp: nat)
    requires Inv(w) && Calm(w) && StrayEnabled(w, Writes(x, f, stamp))
    ensures Calm(StrayApply(w, Writes(x, f, stamp)))
  {
    var w' := Put(w, x.job.compare, f, x.read[f], stamp);
    assert IsOf(f, x.lbl, x.pod);
    PutClean(w, x.job.compare, f, x.read[f], stamp);
    forall s | KeptClean(w, s) ensures KeptClean(w', s) {
      if s.volume == Some(w.arch.mounted) && Final(s, f.lbl, f.pod) {
        assert NoEarly(w, f.lbl, f.pod);
      }
      PutKeepsClean(w, x.job.compare, f, x.read[f], stamp, s);
    }
    if Pushing(w) && Cur(w).couldSeal && Cur(w).lbl == x.lbl && Cur(w).push.value.pod == x.pod {
      assert x.late;
    }
  }

  lemma StrayCalm(w: World, s: StrayStep)
    requires Inv(w) && Calm(w) && StrayEnabled(w, s)
    ensures Calm(StrayApply(w, s))
  {
    match s
    case Reads(x, f) => ReadsCalm(w, x, f);
    case Writes(x, f, stamp) => StrayWritesCalm(w, x, f, stamp);
    case Removes(f) => GoneCalm(w, f);
    case _ => CalmFrame(w, StrayApply(w, s));
  }

  lemma StepCalm(w: World, s: Step)
    requires Inv(w) && Calm(w) && Enabled(w, s) && Fresh(w, s) && SealsAlone(w, s)
    ensures Calm(Apply(w, s))
  {
    match s
    case Sync(a) => SyncCalm(w, a);
    case Operator(a) => OpCalm(w, a);
    case Outside(a) => OutsideCalm(w, a);
    case Astray(a) => StrayCalm(w, a);
  }

  // ---- over every run -------------------------------------------------------------------------------------

  ghost predicate SealedAlone(w: World, steps: seq<Step>)
    decreases |steps|
  {
    steps == [] || (Enabled(w, steps[0]) && SealsAlone(w, steps[0]) && SealedAlone(Apply(w, steps[0]), steps[1..]))
  }

  lemma {:induction false} RunsCalm(w: World, steps: seq<Step>, w': World)
    requires Inv(w) && Calm(w) && Runs(w, steps, w') && Kept(w, steps) && SealedAlone(w, steps)
    ensures Inv(w') && Calm(w')
    decreases |steps|
  {
    if steps != [] {
      StepKeeps(w, steps[0]);
      StepCalm(w, steps[0]);
      RunsCalm(Apply(w, steps[0]), steps[1..], w');
    }
  }

  /** Where no push that may seal begins beside such an rsync, a file of a sealed label is on the archive
      with equal bytes, exactly if no delete has removed it since. */
  lemma SealedUnlessRemoved(w: World, steps: seq<Step>, w': World, pods: set<Pod>, f: Path)
    requires Init(w) && Runs(w, steps, w') && Kept(w, steps) && SealedAlone(w, steps)
    requires SealedFile(w', pods, f)
    ensures OnArchive(w', f) <==> f !in w'.log.removed
  {
    InitHolds(w);
    RunsCalm(w, steps, w');
    SealedIsSettled(w', pods, f);
    assert KeptClean(w', w'.disk.file) && Final(w'.disk.file, f.lbl, f.pod);
    assert TreeClean(w', f.lbl, f.pod);
  }
}

/** What holds of the archive over every run of the protocol, and where each result stops holding. */
module ArchiveTheorems {
  import opened Wrappers
  import opened ArchiveState
  import opened ArchiveWorld
  import opened ArchiveInvariant

  /** The runs the theorems are about: pulls and prunes, kills and power losses anywhere, and rsyncs
      and deletes that outlive their commands; but `Fresh`. */
  ghost predicate Kept(w: World, steps: seq<Step>)
    decreases |steps|
  {
    steps == [] || (Enabled(w, steps[0]) && Fresh(w, steps[0]) && Kept(Apply(w, steps[0]), steps[1..]))
  }

  lemma InitHolds(w: World)
    requires Init(w)
    ensures Inv(w)
  {}

  lemma {:induction false} RunsKeep(w: World, steps: seq<Step>, w': World)
    requires Inv(w) && Runs(w, steps, w') && Kept(w, steps)
    ensures Inv(w')
    decreases |steps|
  {
    if steps != [] {
      StepKeeps(w, steps[0]);
      RunsKeep(Apply(w, steps[0]), steps[1..], w');
    }
  }

  /** A sealed label, as the program judges it, and a storable file of a pod that is not given up. */
  predicate SealedFile(w: World, pods: set<Pod>, f: Path) {
    && Sealed(f.lbl, ForVolume(w.disk.file, w.arch.mounted), w.start, pods)
    && f.pod in pods && f.pod !in w.disk.file.labels[f.lbl].givenUp
    && f in w.local && Storable(w.local[f])
  }

  /** Crash-safe sealing: over every run, a file of a sealed label is on the archive with equal bytes,
      exactly if since those were last written no delete has removed it and no rsync left over from
      an earlier sync has written others. */
  lemma CrashSafeSealing(w: World, steps: seq<Step>, w': World, pods: set<Pod>, f: Path)
    requires Init(w) && Runs(w, steps, w') && Kept(w, steps)
    requires SealedFile(w', pods, f)
    ensures OnArchive(w', f) <==> f !in w'.log.removed && f !in w'.log.stale
  {
    InitHolds(w);
    RunsKeep(w, steps, w');
    SealedIsSettled(w', pods, f);
  }

  lemma SealedIsSettled(w: World, pods: set<Pod>, f: Path)
    requires Inv(w) && SealedFile(w, pods, f)
    ensures Settled(w, f)
  {
    assert Sound(w, w.disk.file);
    assert Final(w.disk.file, f.lbl, f.pod);
    assert FinalHolds(w, f.lbl, f.pod);
  }

  /** A "born empty" mark is sound: every file on the volume it is about was put there by a push
      recorded in that state, and so was all that a left-over rsync may still write; whichever version
      of the state a power loss may bring back. */
  lemma BornEmptySound(w: World, steps: seq<Step>, w': World, st: SnapState)
    requires Init(w) && Runs(w, steps, w') && Kept(w, steps)
    requires st in w'.disk.pending && st.bornEmpty && st.volume == Some(w'.arch.mounted)
    ensures forall f | f in w'.arch.remote :: Recorded(st, f.lbl, f.pod)
    ensures forall x | x in w'.strays.snap :: Recorded(st, x.lbl, x.pod)
  {
    InitHolds(w);
    RunsKeep(w, steps, w');
    assert Sound(w', st);
  }

  // ---- where they stop -----------------------------------------------------------------------

  lemma RunsTwoMore(w: World, steps: seq<Step>, w': World, a: Step, b: Step)
    requires Runs(w, steps, w') && Enabled(w', a) && Enabled(Apply(w', a), b)
    ensures Runs(w, steps + [a, b], Apply(Apply(w', a), b))
  {
    RunsAppend(w, steps, w', a);
    RunsAppend(w, steps + [a], Apply(w', a), b);
    assert steps + [a] + [b] == steps + [a, b];
  }

  lemma BeginAllows(w: World, dev: Volume, pod: Pod)
    requires w.snapLock == Free && pod !in w.disk.forgotten
    ensures var w' := BeginSync(w, dev, {pod}, {}); pod in Run(w').allowed && Run(w').st.volume == Some(dev)
  {}

  lemma LabelTakes(w: World, lbl: Label, pod: Pod)
    requires Syncing(w)
    ensures Cur(BeginLabel(w, lbl, [pod], true)).todo == [pod]
  {
    assert [pod][1..] == [] && Filter([pod][1..], {}) == [] && Filter([pod], {}) == [pod];
  }

  lemma FirstWriteIs(w: World, dev: Volume, f: Path)
    requires w.snapLock == Free && f.pod !in w.disk.forgotten && f in w.local && Takes(Files, w.local[f])
    ensures var w1 := BeginSync(w, dev, {f.pod}, {});
            var w2 := BeginLabel(w1, f.lbl, [f.pod], true);
            var w3 := StartPush(w2, true, true);
            && f.pod in Run(w1).allowed && Cur(w2).todo == [f.pod] && Pushing(w3) && Carries(w3, f)
            && var w' := WriteFile(w3, f, 0);
            && f in w'.arch.remote && w'.disk.file.volume == Some(dev) && w'.arch == w.arch.(remote := w'.arch.remote)
            && w'.log.reported == w.log.reported
  {
    BeginAllows(w, dev, f.pod);
    LabelTakes(BeginSync(w, dev, {f.pod}, {}), f.lbl, f.pod);
    var w3 := StartPush(BeginLabel(BeginSync(w, dev, {f.pod}, {}), f.lbl, [f.pod], true), true, true);
    TransferOne(Content, w3.arch.remote, f, w3.local[f], 0);
  }

  /** A sync of a volume `dev` that starts on a listed pod's file writes it, once it has saved its
      state durably. */
  lemma FirstWrite(w: World, dev: Volume, f: Path) returns (steps: seq<Step>, w': World)
    requires w.snapLock == Free && f.pod !in w.disk.forgotten && f in w.local && Takes(Files, w.local[f])
    ensures Runs(w, steps, w') && f in w'.arch.remote && w'.run.Some?
    ensures w'.disk.file.volume == Some(dev) && w'.arch.made == w.arch.made && w'.arch.cloud == w.arch.cloud
    ensures w'.arch.mounted == w.arch.mounted && w'.log.reported == w.log.reported
  {
    FirstWriteIs(w, dev, f);
    var w1 := BeginSync(w, dev, {f.pod}, {});
    var w2 := BeginLabel(w1, f.lbl, [f.pod], true);
    var w3 := StartPush(w2, true, true);
    w' := WriteFile(w3, f, 0);
    var a, b := Sync(Begin(dev, {f.pod}, {})), Sync(LabelBegin(f.lbl, [f.pod], true));
    var c, d := Sync(PodStart(true, true)), Sync(Write(f, 0));
    assert Runs(w, [], w);
    RunsTwoMore(w, [], w, a, b);
    RunsTwoMore(w, [] + [a, b], w2, c, d);
    steps := [] + [a, b] + [c, d];
  }

  /** `Fresh` is needed: a sync that read the old `archive.json`, starting once `up` has set the new
      volume up and before it marks it, leaves a "born empty" state that does not know of its file. */
  lemma StaleSyncBreaksBornEmpty(w: World, f: Path) returns (steps: seq<Step>, w': World)
    requires Inv(w) && w.arch.made && w.arch.cloud == w.arch.mounted && w.snapLock == Free
    requires w.disk.file.volume.Some? && w.disk.file.volume.value < w.arch.mounted
    requires f in w.local && Takes(Files, w.local[f]) && f.pod !in w.disk.forgotten
    ensures Runs(w, steps, w') && w'.disk.file.bornEmpty && w'.disk.file.volume == Some(w'.arch.mounted)
    ensures f in w'.arch.remote && f.lbl !in w'.disk.file.labels
  {
    var steps0, w1 := FirstWrite(w, w.disk.file.volume.value, f);
    RunsTwoMore(w, steps0, w1, Sync(Dies(false)), Outside(MarkBorn));
    steps := steps0 + [Sync(Dies(false)), Outside(MarkBorn)];
    w' := MarkBornEmpty(EndDead(w1, false));
  }

  /** A delete that has begun and has not marked its pods as deleted: killed there, whatever it has
      removed stays removed under a label that stays sealed, an unforget finding nothing to clear. */
  lemma KilledDeleteStaysSealed(w: World, f: Path) returns (steps: seq<Step>, w': World)
    requires w.op.Forget? && (w.op.phase == HasBoth || w.op.phase == Deleted) && f.pod in w.op.dirs
    requires w.op.dirs <= w.disk.forgotten.Keys && forall d | d in w.op.dirs :: !w.disk.forgotten[d]
    requires Sealed(f.lbl, w.disk.file, w.start, {f.pod}) && f in w.local && f !in w.arch.remote
    ensures Runs(w, steps, w') && Kept(w, steps)
    ensures f.pod !in w'.disk.forgotten && Sealed(f.lbl, w'.disk.file, w'.start, {f.pod})
    ensures f in w'.local && !OnArchive(w', f)
  {
    var a, b, c := Operator(OpDies(false)), Operator(UnforgetAsk(w.op.dirs)), Operator(UnforgetSave);
    var w1 := OpDead(w, false);
    UnforgetFinds(w1, w.op.dirs);
    var w2 := BeginUnforget(w1, w.op.dirs);
    w' := TakeBack(w2);
    Last(w2, c);
    Before(w1, b, [c], w');
    Before(w, a, [b] + [c], w');
    steps := [a] + ([b] + [c]);
  }

  /** An unforget finds no pod marked deleted. */
  lemma UnforgetFinds(w: World, dirs: set<Pod>)
    requires dirs <= w.disk.forgotten.Keys && dirs != {} && forall d | d in dirs :: !w.disk.forgotten[d]
    ensures BeginUnforget(w, dirs) == w.(op := Unforget(dirs, {}, Asked))
  {
    assert dirs * w.disk.forgotten.Keys == dirs;
    assert (set d | d in dirs && w.disk.forgotten[d]) == {};
  }

  lemma Last(w: World, s: Step)
    requires Enabled(w, s) && Fresh(w, s)
    ensures Runs(w, [s], Apply(w, s)) && Kept(w, [s])
  {
    assert [s][1..] == [] && Runs(Apply(w, s), [], Apply(w, s)) && Kept(Apply(w, s), []);
  }

  lemma Before(w: World, s: Step, rest: seq<Step>, w': World)
    requires Enabled(w, s) && Fresh(w, s) && Runs(Apply(w, s), rest, w') && Kept(Apply(w, s), rest)
    ensures Runs(w, [s] + rest, w') && Kept(w, [s] + rest)
  {
    assert ([s] + rest)[1..] == rest;
  }

  /** Cleared, it is not: a label never stays final for a pod whose deleted copy was cleared. */
  lemma ClearedReopens(st: SnapState, dirs: set<Pod>, lbl: Label, start: int, pods: set<Pod>, p: Pod)
    requires p in dirs && p in pods
    ensures !Sealed(lbl, ForgetPushes(st, dirs), start, pods)
    ensures forall q, l | q !in dirs && l in st.labels ::
              (Final(ForgetPushes(st, dirs), l, q) <==> Final(st, l, q))
              && (Recorded(ForgetPushes(st, dirs), l, q) <==> Recorded(st, l, q))
  {}

  /** No pull of the clock's comes into a sealed label any more. One that an operator sends there by its
      week and day does what the protocol never sees: the label stays sealed, and the archive keeps the
      bytes it has. */
  lemma LatePullStaysSealed(w: World, pods: set<Pod>, f: Path, e: Entry, began: nat)
    requires Inv(w) && SealedFile(w, pods, f) && OnArchive(w, f) && Storable(e)
    ensures !PullsInto(f.lbl, w.start, began, w.now)
    ensures var w' := w.(local := w.local[f := e]);
            SealedFile(w', pods, f) && (OnArchive(w', f) <==> e.bytes == w.local[f].bytes)
  {
    assert Final(w.disk.file, f.lbl, f.pod) && Sound(w, w.disk.file);
    assert FinalHolds(w, f.lbl, f.pod);
    if PullsInto(f.lbl, w.start, began, w.now) {
      PulledIsOpen(f.lbl, w.start, began, w.now);
    }
  }

  /** An rsync left over from a push that began before the label was over, that has read the file as it
      was then: what it writes undoes the seal. */
  lemma StrayUnseals(w: World, pods: set<Pod>, x: Stray, f: Path) returns (w': World)
    requires SealedFile(w, pods, f) && x in w.strays.snap && f in x.read && x.read[f].bytes != w.local[f].bytes
    requires x.job.compare == Content
             || (x.job.compare == Quick && f in w.arch.remote && w.arch.remote[f].mtime != x.read[f].mtime)
    requires OnArchive(w, f)
    ensures Runs(w, [Astray(Writes(x, f, 0))], w') && SealedFile(w', pods, f) && !OnArchive(w', f) && f in w'.log.stale
  {
    w' := Put(w, x.job.compare, f, x.read[f], 0);
    assert Runs(w, [], w);
    RunsAppend(w, [], w, Astray(Writes(x, f, 0)));
    assert [] + [Astray(Writes(x, f, 0))] == [Astray(Writes(x, f, 0))];
  }
}

/** That a run counts every failure it should: each of a pod's own, in a push that could have sealed the
    label, in a run without an outage in which the baseline or another pod got through.
    (crates/cli/src/archive.rs) */
module ArchiveCharges {
  import opened Wrappers
  import opened ArchiveState
  import opened ArchiveWorld

  function ChargeFor(w: World, f: Failure): Charge {
    Charge(f.lbl, f.pod, f.cls, f.started, LabelEnd(f.lbl, w.start))
  }

  /** A run under way holds a charge for each failure in it, and knows who got through in it. */
  ghost predicate AllHeld(w: World) {
    && (forall f | f in w.log.failed :: f.run < w.log.runs)
    && (forall t | t in w.log.through :: t.run < w.log.runs)
    && (forall n | n in w.log.outages :: n < w.log.runs)
    && (Syncing(w) ==>
          var r := Run(w);
          && r.number < w.log.runs && (r.outage ==> r.number in w.log.outages)
          && (forall f | f in w.log.failed && f.run == r.number :: ChargeFor(w, f) in r.charges)
          && (forall t | t in w.log.through && t.run == r.number ::
                if t.who.None? then r.baselineOk else t.who.value.1 in r.okPods))
  }

  lemma InitHeld(w: World)
    requires Init(w)
    ensures AllHeld(w)
  {}

  lemma BeginHeld(w: World, dev: Volume, listed: set<Pod>, staff: set<Pod>)
    requires AllHeld(w)
    ensures AllHeld(BeginSync(w, dev, listed, staff))
  {}

  lemma TurnHeld(w: World, s: SyncStep)
    requires AllHeld(w) && SyncEnabled(w, s)
    requires s.LabelBegin? || s.PodLeftOut? || s.PodHeld? || s.PodNoTime? || s.LabelDone? || s.Baseline?
    ensures AllHeld(SyncApply(w, s))
  {}

  lemma PushHeld(w: World, s: SyncStep)
    requires AllHeld(w) && SyncEnabled(w, s)
    requires s.PodStart? || s.Write? || s.JobDone?
    ensures AllHeld(SyncApply(w, s))
  {}

  lemma OutcomeHeld(w: World, s: SyncStep)
    requires AllHeld(w) && SyncEnabled(w, s) && (s.PodOk? || s.PodCut? || s.PodFail?)
    ensures AllHeld(SyncApply(w, s))
  {}

  lemma EndHeld(w: World, s: SyncStep)
    requires AllHeld(w) && SyncEnabled(w, s) && (s.Settle? || s.Dies?)
    ensures AllHeld(SyncApply(w, s))
  {}

  /** The others' steps leave the run and what is counted alone. */
  predicate SameCounts(w: World, w': World) {
    && w'.start == w.start && w'.log.failed == w.log.failed && w'.log.through == w.log.through
    && w'.log.outages == w.log.outages && w'.log.runs == w.log.runs && (w'.run == w.run || w'.run == None)
  }

  lemma OpSame(w: World, s: OpStep)
    requires OpEnabled(w, s)
    ensures SameCounts(w, OpApply(w, s))
  {}

  lemma OutsideSame(w: World, s: OutsideStep)
    requires OutsideEnabled(w, s)
    ensures SameCounts(w, OutsideApply(w, s))
  {}

  lemma StraySame(w: World, s: StrayStep)
    requires StrayEnabled(w, s)
    ensures SameCounts(w, StrayApply(w, s))
  {}

  lemma SameHeld(w: World, w': World)
    requires AllHeld(w) && SameCounts(w, w')
    ensures AllHeld(w')
  {}

  lemma StepHeld(w: World, s: Step)
    requires AllHeld(w) && Enabled(w, s)
    ensures AllHeld(Apply(w, s))
  {
    match s
    case Sync(sync) => SyncHeld(w, sync);
    case Operator(op) => OpSame(w, op); SameHeld(w, OpApply(w, op));
    case Outside(o) => OutsideSame(w, o); SameHeld(w, OutsideApply(w, o));
    case Astray(x) => StraySame(w, x); SameHeld(w, StrayApply(w, x));
  }

  lemma SyncHeld(w: World, s: SyncStep)
    requires AllHeld(w) && SyncEnabled(w, s)
    ensures AllHeld(SyncApply(w, s))
  {
    if s.PodStart? || s.Write? || s.JobDone? {
      PushHeld(w, s);
    } else if s.PodOk? || s.PodCut? || s.PodFail? {
      OutcomeHeld(w, s);
    } else if s.Begin? {
      BeginHeld(w, s.dev, s.listed, s.staff);
    } else if s.Settle? || s.Dies? {
      EndHeld(w, s);
    } else {
      TurnHeld(w, s);
    }
  }

  lemma {:induction false} RunsHeld(w: World, steps: seq<Step>, w': World)
    requires AllHeld(w) && Runs(w, steps, w')
    ensures AllHeld(w')
    decreases |steps|
  {
    if steps != [] {
      StepHeld(w, steps[0]);
      RunsHeld(Apply(w, steps[0]), steps[1..], w');
    }
  }

  // ---- what is counted ----------------------------------------------------------------------------

  /** A failure that is to count: the pod's own, in a push begun two hours after the label's end or later,
      in a run in which nothing of the archive failed, and the baseline or another pod got through. */
  ghost predicate ToCount(w: World, f: Failure) {
    && f in w.log.failed && f.run !in w.log.outages && f.cls in {Timeout, InTheWay, Other}
    && LabelEnd(f.lbl, w.start).Some? && f.started >= LabelEnd(f.lbl, w.start).value + 7_200
    && exists t :: t in w.log.through && t.run == f.run && (t.who.None? || t.who.value.1 != f.pod)
  }

  ghost predicate IsCounted(h: map<(Label, Pod), seq<Evidence>>, f: Failure) {
    exists e :: e in HistOf(h, (f.lbl, f.pod)) && e.run == f.run && e.cls == f.cls && e.started == f.started
  }

  lemma {:induction false} ChargeIsEvidence(h: map<(Label, Pod), seq<Evidence>>, chs: seq<Charge>, r: SnapRun,
                                            ch: Charge)
    requires ch in chs && OtherOk(ch, r.okPods, r.baselineOk) && Chargeable(ch.cls, ch.started, ch.end)
    ensures EvidenceOf(r, ch) in HistOf(HistAfter(h, chs, r), (ch.lbl, ch.pod))
    decreases |chs|
  {
    var n := |chs| - 1;
    if chs[n] != ch {
      assert ch in chs[..n];
      ChargeIsEvidence(h, chs[..n], r, ch);
    }
  }

  lemma SettleCounts(w: World, f: Failure)
    requires AllHeld(w) && Syncing(w) && f.run == Run(w).number && ToCount(w, f)
    ensures IsCounted(EndRun(w).log.hist, f)
  {
    var r := Run(w);
    var ch := ChargeFor(w, f);
    var t :| t in w.log.through && t.run == f.run && (t.who.None? || t.who.value.1 != f.pod);
    assert OtherOk(ch, r.okPods, r.baselineOk);
    ChargeIsEvidence(w.log.hist, r.charges, r, ch);
  }

  /** Over every run of the protocol: when a sync has come to its end, each failure in it that is to count
      is counted. */
  lemma AllIsCounted(w: World, steps: seq<Step>, v: World, f: Failure)
    requires Init(w) && Runs(w, steps, v) && Enabled(v, Sync(Settle)) && f.run == Run(v).number
    requires ToCount(Apply(v, Sync(Settle)), f)
    ensures IsCounted(Apply(v, Sync(Settle)).log.hist, f)
  {
    InitHeld(w);
    RunsHeld(w, steps, v);
    var t :| t in v.log.through && t.run == f.run && (t.who.None? || t.who.value.1 != f.pod);
    SettleCounts(v, f);
  }
}

/** What the rules of a label's record come to over several pushes, turns and runs: how often a pod is
    pushed, when it is given up, when a label is sealed, and who is pushed again.
    (crates/core/src/archive/sync.rs, crates/cli/src/archive.rs) */
module ArchiveRules {
  import opened Wrappers
  import opened ArchiveState
  import opened ArchiveWorld

  // ---- which push, and how many ------------------------------------------------------------------

  /** A push of the pod that goes through, of the kind its record asks for. */
  function Through(rec: LabelRecord, pod: Pod, chain: bool, hasLinks: bool, couldSeal: bool,
                   bornEmpty: bool): LabelRecord {
    var how := PodPushOf(rec, pod, chain, hasLinks, couldSeal, false);
    NotePushOk(NotePushStart(rec, pod, how), pod, how, chain, hasLinks, couldSeal, bornEmpty)
  }

  /** Once a label is over, a pod's first push that goes through makes it final, unless nothing was known
      of its tree and of the archive; its second does in any case, and later ones only update. Each
      against a whole chain leaves it linked. */
  lemma TwoPushesDo(rec: LabelRecord, pod: Pod, chain: bool, hasLinks: bool, bornEmpty: bool)
    ensures var once := Through(rec, pod, chain, hasLinks, true, bornEmpty);
            && pod in once.podsOk && pod !in once.givenUp && FailsOf(once, pod) == 0
            && (pod in once.podsFinal <==>
                bornEmpty || pod in rec.podsFinal || pod in rec.podsTried || pod in rec.podsSeeding)
            && (chain ==> pod in once.podsLinked)
    ensures var once := Through(rec, pod, chain, hasLinks, true, bornEmpty);
            var twice := Through(once, pod, chain, hasLinks, true, bornEmpty);
            && pod in twice.podsFinal
            && PodPushOf(twice, pod, chain, hasLinks, true, false) == Update
  {}

  /** Before that nothing is final; one push leaves it linked, and later ones only update. */
  lemma OnePushDoes(rec: LabelRecord, pod: Pod, chain: bool, hasLinks: bool, bornEmpty: bool)
    ensures var once := Through(rec, pod, chain, hasLinks, false, bornEmpty);
            && pod in once.podsOk && once.podsFinal == rec.podsFinal && (chain ==> pod in once.podsLinked)
            && PodPushOf(once, pod, chain, hasLinks, false, false) == Update
  {}

  /** Only where there is nothing to link to does an update leave a pod linked; only a whole chain does. */
  lemma LinkedByContent(rec: LabelRecord, pod: Pod, chain: bool, hasLinks: bool, couldSeal: bool, bornEmpty: bool)
    requires pod !in rec.podsLinked
    ensures pod in Through(rec, pod, chain, hasLinks, couldSeal, bornEmpty).podsLinked <==> chain
    ensures !chain ==> Through(rec, pod, chain, hasLinks, couldSeal, bornEmpty).podsLinked == rec.podsLinked
    ensures NotePushOk(rec, pod, Update, chain, true, couldSeal, bornEmpty).podsLinked == rec.podsLinked
  {}

  /** A pod's first push of a label is a seed. One that was cut off is followed by a check of what it
      left; another kind by the same again. */
  lemma CutOffIsTakenUp(rec: LabelRecord, pod: Pod, chain: bool, hasLinks: bool, couldSeal: bool)
    ensures var how := PodPushOf(rec, pod, chain, hasLinks, couldSeal, false);
            && (pod !in rec.podsTried && pod !in rec.podsSeeding ==> how == Seed)
            && var next := PodPushOf(NotePushStart(rec, pod, how), pod, chain, hasLinks, couldSeal, false);
            next == if how == Seed then Check else how
  {}

  /** A pod waits for the pull exactly when it was never pushed on the label, which is not yet over. */
  lemma HeldExactly(rec: LabelRecord, pod: Pod, chain: bool, hasLinks: bool, couldSeal: bool, forced: bool)
    ensures HoldsForPull(PodPushOf(rec, pod, chain, hasLinks, couldSeal, forced), couldSeal) <==>
            !forced && !couldSeal && pod !in rec.podsTried && pod !in rec.podsSeeding
  {}

  /** Asked for by name it is checked whatever its record says. */
  lemma ForcedIsChecked(rec: LabelRecord, pod: Pod, chain: bool, hasLinks: bool, couldSeal: bool, bornEmpty: bool)
    ensures PodPushOf(rec, pod, chain, hasLinks, couldSeal, true) == Check
    ensures couldSeal ==> pod in NotePushOk(rec, pod, Check, chain, hasLinks, couldSeal, bornEmpty).podsFinal
  {}

  /** Its archived copy deleted, a pod is as new to every label; the others' records are as they were. */
  lemma ClearedIsNew(st: SnapState, dirs: set<Pod>, lbl: Label, p: Pod, chain: bool, hasLinks: bool, couldSeal: bool)
    ensures var rec, rec' := RecordOf(st, lbl), RecordOf(ForgetPushes(st, dirs), lbl);
            if p in dirs then
              && PodPushOf(rec', p, chain, hasLinks, couldSeal, false) == Seed && FailsOf(rec', p) == 0
              && p !in rec'.podsOk && p !in rec'.podsFinal && p !in rec'.podsLinked && p !in rec'.givenUp
              && rec'.cutOff != Some(p)
            else
              && PodPushOf(rec', p, chain, hasLinks, couldSeal, false)
                 == PodPushOf(rec, p, chain, hasLinks, couldSeal, false)
              && FailsOf(rec', p) == FailsOf(rec, p) && (p in rec'.podsOk <==> p in rec.podsOk)
              && (p in rec'.podsFinal <==> p in rec.podsFinal) && (p in rec'.givenUp <==> p in rec.givenUp)
              && (rec'.cutOff == Some(p) <==> rec.cutOff == Some(p))
    ensures ForgetPushes(st, dirs).(labels := map[]) == st.(labels := map[])
    ensures ForgetPushes(st, dirs).labels.Keys == st.labels.Keys
  {}

  // ---- giving up -----------------------------------------------------------------------------------

  /** The archive's own failures stop the run and charge nobody; these are the pod's. */
  lemma FailureClasses(f: PushFailure)
    ensures ArchiveWide(f) <==> !CountsTowardGiveUp(f)
    ensures CountsTowardGiveUp(f) <==> f in {Timeout, InTheWay, Other}
  {}

  /** What happens to one pod's push of a label. */
  datatype Event =
    | Passes(how: PodPush, chain: bool, hasLinks: bool, couldSeal: bool, bornEmpty: bool)
    | Fails(cls: PushFailure, started: nat)

  function After(rec: LabelRecord, pod: Pod, end: Option<nat>, events: seq<Event>): LabelRecord {
    if events == [] then rec
    else
      var n := |events| - 1;
      var was := After(rec, pod, end, events[..n]);
      match events[n]
      case Passes(how, chain, hasLinks, couldSeal, bornEmpty) =>
        NotePushOk(was, pod, how, chain, hasLinks, couldSeal, bornEmpty)
      case Fails(cls, started) => NotePushFailed(was, pod, cls, started, end)
  }

  /** Of its failures since it last went through, those of its own in a push begun two hours after the
      label's end or later. */
  ghost function FailuresSince(end: Option<nat>, events: seq<Event>): nat {
    if events == [] then 0
    else
      var n := |events| - 1;
      match events[n]
      case Passes(_, _, _, _, _) => 0
      case Fails(cls, started) =>
        FailuresSince(end, events[..n])
            + if end.Some? && cls in {Timeout, InTheWay, Other} && started >= end.value + 7_200 then 1 else 0
  }

  /** A pod is given up on a label from its third such failure in a row on, and until it goes through. */
  lemma {:induction false} GivenUpAtTheThird(pod: Pod, end: Option<nat>, events: seq<Event>)
    ensures var rec := After(EMPTY_RECORD, pod, end, events);
            && FailsOf(rec, pod) == FailuresSince(end, events)
            && (pod in rec.givenUp <==> FailuresSince(end, events) >= 3)
            && (pod in rec.podsOk <==> events != [] && events[|events| - 1].Passes?)
  {
    if events != [] {
      var n := |events| - 1;
      GivenUpAtTheThird(pod, end, events[..n]);
      FailureClasses(if events[n].Fails? then events[n].cls else Other);
    }
  }

  /** Of a run's charges, how many of the pod on the label count. */
  ghost function Counting(chs: seq<Charge>, lbl: Label, pod: Pod, okPods: set<Pod>, baselineOk: bool): nat {
    if chs == [] then 0
    else
      var n, ch := |chs| - 1, chs[|chs| - 1];
      Counting(chs[..n], lbl, pod, okPods, baselineOk)
          + if Charges(ch, lbl, pod, okPods, baselineOk) then 1 else 0
  }

  /** A charge of the pod on the label that counts: a failure of its own in a push that could have sealed
      the label, where the baseline or another pod got through. */
  predicate Charges(ch: Charge, lbl: Label, pod: Pod, okPods: set<Pod>, baselineOk: bool) {
    && ch.lbl == lbl && ch.pod == pod && ch.cls in {Timeout, InTheWay, Other}
    && ch.end.Some? && ch.started >= ch.end.value + 7_200 && (baselineOk || okPods - {pod} != {})
  }

  lemma OtherOkIs(ch: Charge, okPods: set<Pod>, baselineOk: bool)
    ensures OtherOk(ch, okPods, baselineOk) <==> baselineOk || okPods - {ch.pod} != {}
  {
    if okPods - {ch.pod} != {} {
      var p :| p in okPods - {ch.pod};
    }
    if p :| p in okPods && p != ch.pod {
      assert p in okPods - {ch.pod};
    }
  }

  lemma SettledOne(st: SnapState, ch: Charge, okPods: set<Pod>, baselineOk: bool, lbl: Label, pod: Pod)
    requires OtherOk(ch, okPods, baselineOk) <==> baselineOk || okPods - {ch.pod} != {}
    ensures var rec, rec' := RecordOf(st, lbl), RecordOf(SettleOne(st, ch, okPods, baselineOk), lbl);
            var n := if Charges(ch, lbl, pod, okPods, baselineOk) then 1 else 0;
            && FailsOf(rec', pod) == FailsOf(rec, pod) + n
            && (pod in rec'.givenUp <==> pod in rec.givenUp || (n > 0 && FailsOf(rec, pod) + n >= 3))
  {
    FailureClasses(ch.cls);
  }

  /** A run without an outage charges each pod just these, and gives up on who comes to three. */
  lemma {:induction false} SettledExactly(st: SnapState, chs: seq<Charge>, okPods: set<Pod>, baselineOk: bool,
                                          lbl: Label, pod: Pod)
    ensures var rec, rec' := RecordOf(st, lbl), RecordOf(SettleAll(st, chs, okPods, baselineOk), lbl);
            var n := Counting(chs, lbl, pod, okPods, baselineOk);
            && FailsOf(rec', pod) == FailsOf(rec, pod) + n
            && (pod in rec'.givenUp <==> pod in rec.givenUp || (n > 0 && FailsOf(rec, pod) + n >= 3))
    decreases |chs|
  {
    if chs != [] {
      var n, ch := |chs| - 1, chs[|chs| - 1];
      SettledExactly(st, chs[..n], okPods, baselineOk, lbl, pod);
      OtherOkIs(ch, okPods, baselineOk);
      SettledOne(SettleAll(st, chs[..n], okPods, baselineOk), ch, okPods, baselineOk, lbl, pod);
    }
  }

  // ---- sealing -------------------------------------------------------------------------------------

  /** A dated label whose turn is complete is sealed by it for the pods, exactly if the turn began two
      hours after the label's end or later, each pushed pod was left linked, and each of the pods is
      through and final, or given up. */
  lemma TurnSeals(w: World, pods: set<Pod>)
    requires OnLabel(w) && Cur(w).complete
    ensures var c := Cur(w);
            var end := LabelEnd(c.lbl, w.start);
            Sealed(c.lbl, EndLabel(w).disk.file, w.start, pods) <==>
            && end.Some? && c.started >= end.value + 7_200 && c.linked
            && forall p | p in pods :: (p in c.rec.podsOk && p in c.rec.podsFinal) || p in c.rec.givenUp
  {}

  /** A label of which no turn was ever complete is not sealed. */
  lemma UnfinishedIsOpen(st: SnapState, lbl: Label, start: int, pods: set<Pod>)
    requires RecordOf(st, lbl).okFinished == 0 || !RecordOf(st, lbl).linked
    ensures !Sealed(lbl, st, start, pods)
  {}

  // ---- who is pushed ---------------------------------------------------------------------------------

  /** Leaving some out keeps the order of the others, and how often each is there. */
  lemma {:induction false} FilterKeepsOrder(a: seq<Pod>, b: seq<Pod>, out: set<Pod>, p: Pod)
    ensures Filter(a + b, out) == Filter(a, out) + Filter(b, out)
    ensures Filter([p], out) == if p in out then [] else [p]
  {
    if a == [] {
      assert a + b == b;
    } else {
      assert (a + b)[1..] == a[1..] + b;
      FilterKeepsOrder(a[1..], b, out, p);
    }
  }

  /** These pods are in the state's list of all who were ever to be pushed: the file's, a run's, and any
      that a power loss may bring back. */
  ghost predicate Knows(w: World, ever: set<Pod>) {
    && ever <= w.disk.file.allowedEver
    && (forall st | st in w.disk.pending :: ever <= st.allowedEver)
    && (Syncing(w) ==> ever <= Run(w).st.allowedEver)
  }

  /** A sync remembers who is on its list, but the staff and the forgotten. */
  lemma ListedIsRemembered(w: World, dev: Volume, listed: set<Pod>, staff: set<Pod>, p: Pod)
    ensures p in Run(BeginSync(w, dev, listed, staff)).st.allowedEver <==>
            p in w.disk.file.allowedEver || (p in listed && p !in staff && p !in w.disk.forgotten)
  {}

  /** And from its first push on that is known. */
  lemma StartRemembers(w: World, chain: bool, hasLinks: bool)
    requires OnLabel(w) && Cur(w).todo != []
    ensures Knows(StartPush(w, chain, hasLinks), Run(w).st.allowedEver)
  {}

  lemma {:induction false} SettleKeepsEver(st: SnapState, chs: seq<Charge>, okPods: set<Pod>, baselineOk: bool)
    ensures SettleAll(st, chs, okPods, baselineOk).allowedEver == st.allowedEver
    decreases |chs|
  {
    if chs != [] {
      SettleKeepsEver(st, chs[..|chs| - 1], okPods, baselineOk);
    }
  }

  lemma SettleKnows(w: World, ever: set<Pod>)
    requires Knows(w, ever) && Syncing(w)
    ensures Knows(EndRun(w), ever)
  {
    SettleKeepsEver(Run(w).st, Run(w).charges, Run(w).okPods, Run(w).baselineOk);
  }

  lemma LabelKnows(w: World, s: SyncStep, ever: set<Pod>)
    requires Knows(w, ever) && SyncEnabled(w, s)
    requires s.LabelBegin? || s.PodLeftOut? || s.PodHeld? || s.PodNoTime? || s.LabelDone? || s.Baseline? || s.Dies?
    ensures Knows(SyncApply(w, s), ever)
  {}

  lemma PushKnows(w: World, s: SyncStep, ever: set<Pod>)
    requires Knows(w, ever) && SyncEnabled(w, s)
    requires s.PodStart? || s.Write? || s.JobDone? || s.PodOk? || s.PodCut? || s.PodFail?
    ensures Knows(SyncApply(w, s), ever)
  {}

  lemma BeginKnows(w: World, dev: Volume, listed: set<Pod>, staff: set<Pod>, ever: set<Pod>)
    requires Knows(w, ever)
    ensures Knows(BeginSync(w, dev, listed, staff), ever)
  {}

  lemma OpKnows(w: World, s: OpStep, ever: set<Pod>)
    requires Knows(w, ever) && OpEnabled(w, s)
    ensures Knows(OpApply(w, s), ever)
  {}

  lemma OutsideKnows(w: World, s: OutsideStep, ever: set<Pod>)
    requires Knows(w, ever) && OutsideEnabled(w, s)
    ensures Knows(OutsideApply(w, s), ever)
  {}

  lemma StrayKnows(w: World, s: StrayStep, ever: set<Pod>)
    requires Knows(w, ever) && StrayEnabled(w, s)
    ensures Knows(StrayApply(w, s), ever)
  {}

  lemma StepKnows(w: World, s: Step, ever: set<Pod>)
    requires Knows(w, ever) && Enabled(w, s)
    ensures Knows(Apply(w, s), ever)
  {
    match s
    case Operator(op) => OpKnows(w, op, ever);
    case Outside(o) => OutsideKnows(w, o, ever);
    case Astray(x) => StrayKnows(w, x, ever);
    case Sync(sync) =>
      match sync {
        case Begin(dev, listed, staff) => BeginKnows(w, dev, listed, staff, ever);
        case Settle => SettleKnows(w, ever);
        case PodStart(_, _) => PushKnows(w, sync, ever);
        case Write(_, _) => PushKnows(w, sync, ever);
        case JobDone => PushKnows(w, sync, ever);
        case PodOk => PushKnows(w, sync, ever);
        case PodCut => PushKnows(w, sync, ever);
        case PodFail(_) => PushKnows(w, sync, ever);
        case Baseline(_, _) => LabelKnows(w, sync, ever);
        case LabelBegin(_, _, _) => LabelKnows(w, sync, ever);
        case PodLeftOut => LabelKnows(w, sync, ever);
        case PodHeld(_, _) => LabelKnows(w, sync, ever);
        case PodNoTime => LabelKnows(w, sync, ever);
        case LabelDone => LabelKnows(w, sync, ever);
        case Dies(_) => LabelKnows(w, sync, ever);
      }
  }

  /** Whoever was on the list of a sync that pushed is pushed by every later one, on the list or off it,
      killed or after a power loss: but the staff, and who is forgotten then. */
  lemma {:induction false} OnceListed(w: World, steps: seq<Step>, w': World, ever: set<Pod>, p: Pod, dev: Volume,
                                      listed: set<Pod>, staff: set<Pod>)
    requires Knows(w, ever) && Runs(w, steps, w') && p in ever
    ensures p in Run(BeginSync(w', dev, listed, staff)).allowed <==> p !in staff && p !in w'.disk.forgotten
    decreases |steps|
  {
    if steps != [] {
      StepKnows(w, steps[0], ever);
      OnceListed(Apply(w, steps[0]), steps[1..], w', ever, p, dev, listed, staff);
    }
  }

  // ---- when a label was tried ---------------------------------------------------------------------------

  /** The record of the label under way says that it is tried in this turn. */
  ghost predicate TriedNow(w: World) {
    OnLabel(w) ==> Cur(w).rec.lastTried == Cur(w).started
  }

  lemma LabelKeepsTried(w: World, s: SyncStep)
    requires TriedNow(w) && SyncEnabled(w, s)
    requires s.LabelBegin? || s.PodLeftOut? || s.PodHeld? || s.PodNoTime? || s.LabelDone? || s.Baseline? || s.Dies?
             || s.Begin? || s.Settle?
    ensures TriedNow(SyncApply(w, s))
  {}

  lemma PushKeepsTried(w: World, s: SyncStep)
    requires TriedNow(w) && SyncEnabled(w, s)
    requires s.PodStart? || s.Write? || s.JobDone? || s.PodOk? || s.PodCut? || s.PodFail?
    ensures TriedNow(SyncApply(w, s))
  {}

  lemma StepKeepsTried(w: World, s: Step)
    requires TriedNow(w) && Enabled(w, s)
    ensures TriedNow(Apply(w, s))
  {
    match s
    case Sync(sync) =>
      if sync.PodStart? || sync.Write? || sync.JobDone? || sync.PodOk? || sync.PodCut? || sync.PodFail? {
        PushKeepsTried(w, sync);
      } else {
        LabelKeepsTried(w, sync);
      }
    case Operator(op) =>
      assert OpApply(w, op).run == w.run;
    case Outside(o) =>
      assert OutsideApply(w, o).run == w.run || OutsideApply(w, o).run == None;
    case Astray(x) =>
      assert StrayApply(w, x).run == w.run;
  }

  /** A label's turn has it tried at the time the turn began, and leaves the other labels as they were. */
  lemma TurnIsTried(w: World, l: Label)
    requires OnLabel(w) && TriedNow(w)
    ensures RecordOf(EndLabel(w).disk.file, l).lastTried ==
            if l == Cur(w).lbl then Cur(w).started else RecordOf(Run(w).st, l).lastTried
    ensures var v := BeginLabel(w, l, [], false);
            Cur(v).started == w.now && TriedNow(v)
  {}

  // ---- what is pushed ----------------------------------------------------------------------------------

  /** What may leave the control box: nothing barred, and what is under the cap or in git. */
  predicate MayLeave(e: Entry) {
    !e.barred && (e.underCap || e.inGit)
  }

  predicate OnlySuchThere(w: World) {
    && (forall f | f in w.arch.remote :: MayLeave(w.arch.remote[f]))
    && (forall x, f | x in w.strays.snap && f in x.read :: MayLeave(x.read[f]))
  }

  lemma PutLeaves(w: World, compare: Compare, f: Path, e: Entry, stamp: nat)
    requires OnlySuchThere(w) && MayLeave(e)
    ensures OnlySuchThere(Put(w, compare, f, e, stamp))
  {}

  lemma SyncLeaves(w: World, s: SyncStep)
    requires OnlySuchThere(w) && SyncEnabled(w, s)
    ensures OnlySuchThere(SyncApply(w, s))
  {
    if s.Write? {
      var c := Cur(w);
      var p := c.push.value;
      var v := WithCur(w, c.(push := Some(p.(seen := p.seen + {s.f}))));
      PutLeaves(v, p.jobs[p.at].compare, s.f, w.local[s.f], s.stamp);
    }
  }

  lemma StrayLeaves(w: World, s: StrayStep)
    requires OnlySuchThere(w) && StrayEnabled(w, s)
    ensures OnlySuchThere(StrayApply(w, s))
  {
    if s.Writes? {
      PutLeaves(w, s.x.job.compare, s.f, s.x.read[s.f], s.stamp);
    }
  }

  lemma StepLeaves(w: World, s: Step)
    requires OnlySuchThere(w) && Enabled(w, s)
    ensures OnlySuchThere(Apply(w, s))
  {
    match s
    case Sync(sync) => SyncLeaves(w, sync);
    case Operator(op) =>
      assert OnlySuchThere(OpApply(w, op));
    case Outside(o) =>
      assert OnlySuchThere(OutsideApply(w, o));
    case Astray(x) => StrayLeaves(w, x);
  }

  /** Over every run, kills and power losses and left-over rsyncs included, nothing comes to the archive
      that may not leave the control box. */
  lemma {:induction false} OnlyWhatMayLeave(w: World, steps: seq<Step>, w': World)
    requires OnlySuchThere(w) && Runs(w, steps, w')
    ensures OnlySuchThere(w')
    decreases |steps|
  {
    if steps != [] {
      StepLeaves(w, steps[0]);
      OnlyWhatMayLeave(Apply(w, steps[0]), steps[1..], w');
    }
  }

  /** And all that may is in the passes of every push. */
  lemma AllThatMay(how: PodPush, e: Entry)
    ensures MayLeave(e) <==> exists j | j in JobsOf(how) :: Takes(j.pass, e)
    ensures MayLeave(e) <==> Storable(e)
  {
    var jobs := JobsOf(how);
    var files, git := jobs[0], jobs[|jobs| - 1];
    assert files in jobs && git in jobs && files.pass == Files && git.pass == Git;
  }

  /** What the passes of a push make of one file that may go, one after the other. */
  function Sent(jobs: seq<Job>, remote: Tree, f: Path, e: Entry, stamp: nat): Tree {
    if jobs == [] then remote
    else
      var was := Sent(jobs[..|jobs| - 1], remote, f, e, stamp);
      var j := jobs[|jobs| - 1];
      if Takes(j.pass, e) then Transfer(j.compare, was, f, e, stamp) else was
  }

  lemma SentByOne(pass: Pass, compare: Compare, remote: Tree, f: Path, e: Entry, stamp: nat)
    ensures Sent([Job(pass, compare)], remote, f, e, stamp) ==
            if Takes(pass, e) then Transfer(compare, remote, f, e, stamp) else remote
  {
    assert [Job(pass, compare)][..0] == [];
    assert Sent([], remote, f, e, stamp) == remote;
  }

  lemma {:induction false} SentByBoth(a: seq<Job>, b: seq<Job>, remote: Tree, f: Path, e: Entry, stamp: nat)
    ensures Sent(a + b, remote, f, e, stamp) == Sent(b, Sent(a, remote, f, e, stamp), f, e, stamp)
    decreases |b|
  {
    if b == [] {
      assert a + b == a;
    } else {
      assert (a + b)[..|a + b| - 1] == a + b[..|b| - 1];
      SentByBoth(a, b[..|b| - 1], remote, f, e, stamp);
    }
  }

  /** A seed leaves the file there, as it is here if it was not; an update leaves it there with its size and
      time; a check with its bytes and its time. And no push changes another file. */
  lemma PushLeaves(how: PodPush, remote: Tree, f: Path, e: Entry, stamp: nat)
    requires MayLeave(e)
    ensures var left := Sent(JobsOf(how), remote, f, e, stamp);
            && f in left && (f !in remote ==> left[f] == e)
            && (how == Seed && f in remote ==> left[f] == remote[f])
            && (how != Seed ==> |left[f].bytes| == |e.bytes| && left[f].mtime == e.mtime)
            && (how == Check ==> left[f].bytes == e.bytes)
            && left - {f} == remote - {f}
  {
    match how
    case Seed => TwoPasses(NewOnly, remote, f, e, stamp);
    case Update => TwoPasses(Quick, remote, f, e, stamp);
    case Check =>
      var files, git := [Job(Files, Content)] + [Job(Files, Quick)], [Job(Git, Content)] + [Job(Git, Quick)];
      assert JobsOf(Check) == files + git;
      SentByBoth(files, git, remote, f, e, stamp);
      CheckPass(Files, remote, f, e, stamp);
      CheckPass(Git, Sent(files, remote, f, e, stamp), f, e, stamp);
  }

  lemma TwoPasses(compare: Compare, remote: Tree, f: Path, e: Entry, stamp: nat)
    ensures var first := if Takes(Files, e) then Transfer(compare, remote, f, e, stamp) else remote;
            Sent([Job(Files, compare), Job(Git, compare)], remote, f, e, stamp) ==
            if Takes(Git, e) then Transfer(compare, first, f, e, stamp) else first
  {
    assert [Job(Files, compare), Job(Git, compare)] == [Job(Files, compare)] + [Job(Git, compare)];
    SentByBoth([Job(Files, compare)], [Job(Git, compare)], remote, f, e, stamp);
    SentByOne(Files, compare, remote, f, e, stamp);
    SentByOne(Git, compare, Sent([Job(Files, compare)], remote, f, e, stamp), f, e, stamp);
  }

  lemma CheckPass(pass: Pass, remote: Tree, f: Path, e: Entry, stamp: nat)
    ensures var left := Sent([Job(pass, Content)] + [Job(pass, Quick)], remote, f, e, stamp);
            && left - {f} == remote - {f}
            && if Takes(pass, e) then f in left && left[f].bytes == e.bytes && left[f].mtime == e.mtime
                                      && (f !in remote || remote[f] == e ==> left[f] == e)
               else left == remote
  {
    SentByBoth([Job(pass, Content)], [Job(pass, Quick)], remote, f, e, stamp);
    SentByOne(pass, Content, remote, f, e, stamp);
    SentByOne(pass, Quick, Sent([Job(pass, Content)], remote, f, e, stamp), f, e, stamp);
  }
}

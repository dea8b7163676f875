/** `sync_snap` as it runs: a loop over labels, a loop over each label's pods, and the charges at the
    end. Its own variables are the ones of the program; every effect it has is one step of the
    archive protocol, with any number of the others' steps in between, so that whatever holds over
    every run of the protocol holds of it. */
module ArchiveSync {
  import opened Wrappers
  import opened ArchiveState
  import opened ArchiveWorld
  import opened ArchiveInvariant
  import opened ArchiveLocks
  import opened ArchiveTheorems
  import opened ArchiveForgets

  datatype Outcome = Went | CutOff | Failed(cls: PushFailure)

  /** What the outside has in store for a pod's turn on a label: too many links to leave out, no time left, a
      pull under way, what its push may link to, and what its rsync runs come to. */
  datatype Luck = Luck(leftOut: bool, noTime: bool, pullRunning: bool, chain: bool, hasLinks: bool, outcome: Outcome)

  /** A label of the plan: its local pods, whether it was asked for by name, and whether its folder is there. */
  datatype Asked = Asked(lbl: Label, local: seq<Pod>, forced: bool, isDir: bool, luck: Pod -> Luck)

  predicate Wide(o: Outcome) {
    o.Failed? && ArchiveWide(o.cls)
  }

  ghost predicate Next(w: World, s: Step, w': World) {
    Enabled(w, s) && w' == Apply(w, s)
  }

  /** The worlds a run went through, one more than its steps. */
  ghost predicate Linked(ws: seq<World>, steps: seq<Step>) {
    |ws| == |steps| + 1 && forall i {:trigger steps[i]} | 0 <= i < |steps| :: Next(ws[i], steps[i], ws[i + 1])
  }

  lemma LinkedTail(ws: seq<World>, steps: seq<Step>)
    requires Linked(ws, steps) && steps != []
    ensures Linked(ws[1..], steps[1..])
  {
    forall i | 0 <= i < |steps| - 1 ensures Next(ws[1..][i], steps[1..][i], ws[1..][i + 1]) {
      assert Next(ws[i + 1], steps[i + 1], ws[i + 2]);
    }
  }

  lemma LinkedRuns(ws: seq<World>, steps: seq<Step>)
    requires Linked(ws, steps)
    ensures Runs(ws[0], steps, ws[|steps|])
    decreases |steps|
  {
    if steps != [] {
      assert Next(ws[0], steps[0], ws[1]);
      LinkedTail(ws, steps);
      LinkedRuns(ws[1..], steps[1..]);
    }
  }

  lemma LinkedMore(ws: seq<World>, steps: seq<Step>, s: Step, w': World)
    requires Linked(ws, steps) && Next(ws[|steps|], s, w')
    ensures Linked(ws + [w'], steps + [s])
  {
    var ws', steps' := ws + [w'], steps + [s];
    forall i | 0 <= i < |steps'| ensures Next(ws'[i], steps'[i], ws'[i + 1]) {
      if i < |steps| {
        assert Next(ws[i], steps[i], ws[i + 1]);
      }
    }
  }

  /** What the history has of turns and pushes is the same. */
  predicate SameRecord(a: History, b: History) {
    b.turns == a.turns && b.had == a.had && b.through == a.through && b.outages == a.outages
  }

  /** Of pushes it has more, perhaps; and no turn more. */
  predicate Records(a: History, b: History) {
    b.turns == a.turns && a.had <= b.had && a.through <= b.through
  }

  /** The run that has met a failure of the archive's is among those that have. */
  predicate OutagesAre(a: History, b: History, stop: bool, run: nat) {
    b.outages == a.outages + if stop then {run} else {}
  }

  /** What a sync that runs finds unchanged while others step: its run, its state file, and every
      local tree that is past its day and grace. */
  predicate Left(was: World, w: World) {
    && w.run == was.run && w.snapLock == was.snapLock && w.disk.file == was.disk.file
    && w.start == was.start && w.now >= was.now && SameRecord(was.log, w.log)
    && (forall f | f in w.local && Over(f.lbl, w.start, was.now) :: f in was.local && was.local[f] == w.local[f])
  }

  predicate Others(w: World, s: Step) {
    !s.Sync? && (s.Outside? ==> !s.outside.PowerLoss?) && Fresh(w, s)
  }

  /** That is all the others do to a sync that holds its lock, whoever they are. */
  lemma OthersLeave(w: World, s: Step)
    requires Locks(w) && Syncing(w) && Enabled(w, s) && Others(w, s)
    ensures Left(w, Apply(w, s))
  {
    match s
    case Operator(a) => OpLeaves(w, a);
    case Outside(a) => OutsideLeaves(w, a);
    case Astray(a) => StrayLeaves(w, a);
  }

  lemma StrayLeaves(w: World, s: StrayStep)
    requires StrayEnabled(w, s)
    ensures Left(w, StrayApply(w, s))
  {}

  lemma OpLeaves(w: World, s: OpStep)
    requires Locks(w) && Syncing(w) && OpEnabled(w, s)
    ensures Left(w, OpApply(w, s))
  {}

  lemma OutsideLeaves(w: World, s: OutsideStep)
    requires Locks(w) && Syncing(w) && OutsideEnabled(w, s) && !s.PowerLoss?
    ensures Left(w, OutsideApply(w, s))
  {
    if s.Pull? {
      PulledIsOpen(s.f.lbl, w.start, s.began, w.now);
    }
  }

  lemma LeftTwice(a: World, b: World, c: World)
    requires Left(a, b) && Left(b, c)
    ensures Left(a, c)
  {}

  /** The push that is under way went on; nothing else of the run changed. */
  ghost predicate PushedOn(was: World, w: World) {
    && Pushing(was) && Pushing(w) && w.start == was.start && w.now >= was.now && w.disk.file == was.disk.file
    && SameRecord(was.log, w.log)
    && var p := Cur(w).push.value;
       w.run == Some(Run(was).(cur := Some(Cur(was).(push := Some(Cur(was).push.value.(at := p.at, seen := p.seen))))))
  }

  /** It is still at the same rsync run, and may still seal its label if it might before. */
  ghost predicate SameJob(was: World, w: World) {
    && PushedOn(was, w) && Cur(w).push.value.at == Cur(was).push.value.at
    && (MaySeal(was) ==> MaySeal(w))
  }

  predicate MaySeal(w: World)
    requires Pushing(w)
  {
    Cur(w).couldSeal ==> Over(Cur(w).lbl, w.start, w.now)
  }

  lemma SameJobTwice(a: World, b: World, c: World)
    requires SameJob(a, b) && SameJob(b, c)
    ensures SameJob(a, c)
  {}

  lemma WritesOn(was: World, w: World, f: Path, stamp: nat)
    requires Left(was, w) && Pushing(was) && Pushing(w) && Carries(w, f)
    ensures SameJob(was, WriteFile(w, f, stamp))
  {}

  lemma LeftOn(was: World, w: World)
    requires Left(was, w) && Pushing(was)
    ensures SameJob(was, w)
  {}

  /** Of a final tree, rsync has gone past every file it has not yet to do. */
  ghost predicate Past(w: World, todo: set<Path>)
    requires Pushing(w)
  {
    Cur(w).couldSeal ==> forall f | f in w.local && Carries(w, f) :: f in todo || f in Cur(w).push.value.seen
  }

  lemma PastButOne(w: World, f: Path, todo: set<Path>)
    requires Pushing(w) && f in todo && Past(w, todo)
    ensures Past(w, (todo - {f}) + {f})
  {
    assert todo == (todo - {f}) + {f};
  }

  /** So many of the push's rsync runs are over. */
  ghost predicate JobsPast(was: World, w: World, n: nat) {
    PushedOn(was, w) && Cur(w).push.value.at == n && Cur(w).push.value.jobs == Cur(was).push.value.jobs
    && (MaySeal(was) ==> MaySeal(w))
  }

  lemma JustStarted(w: World)
    requires Pushing(w) && Cur(w).push.value.at == 0
    ensures JobsPast(w, w, 0)
  {}

  lemma StillAt(was: World, a: World, b: World, n: nat)
    requires JobsPast(was, a, n) && SameJob(a, b)
    ensures JobsPast(was, b, n)
  {}

  lemma OneMorePast(was: World, w: World, n: nat)
    requires JobsPast(was, w, n) && n < |Cur(was).push.value.jobs| && Past(w, {})
    ensures JobEnds(w) && JobsPast(was, NextJob(w), n + 1)
  {}

  lemma PastOn(was: World, w: World, f: Path, todo: set<Path>, stamp: nat)
    requires Pushing(was) && Past(was, todo + {f}) && Left(was, w)
    requires Cur(was).couldSeal ==> Over(Cur(was).lbl, was.start, was.now)
    ensures f in w.local && Carries(w, f) ==> Past(WriteFile(w, f, stamp), todo)
    ensures !(f in w.local && Carries(w, f)) ==> Past(w, todo)
  {}

  /** A label's turn in the program's own variables; and, for the history, how many pods have had theirs. */
  datatype Vars = Vars(
    rec: LabelRecord, st: SnapState, todo: seq<Pod>, reached: nat, complete: bool, linked: bool,
        notStarted: Option<Pod>, cutMid: Option<Pod>,
    okPods: set<Pod>, charges: seq<Charge>)

  /** The protocol's run `r0`, on the label turn `c0`, with what the variables say. */
  function RunWith(r0: SnapRun, c0: LabelRun, t: Vars, push: Option<Push>): SnapRun {
    r0.(st := t.st, okPods := t.okPods, charges := t.charges,
        cur := Some(c0.(rec := t.rec, todo := t.todo, reached := t.reached, push := push, complete := t.complete,
            linked := t.linked,
                        notStarted := t.notStarted, cutMid := t.cutMid)))
  }

  ghost predicate IsAt(w: World, r0: SnapRun, c0: LabelRun, t: Vars, push: Option<Push>) {
    && w.run == Some(RunWith(r0, c0, t, push))
    && t.rec.cutOff == c0.rec.cutOff && OthersKept(r0.st, t.st, c0.lbl)
  }

  /** Of other labels the state says what it said. */
  ghost predicate OthersKept(st: SnapState, st': SnapState, lbl: Label) {
    forall l | l != lbl :: RecordOf(st', l) == RecordOf(st, l)
  }

  /** One pod is past: the first of the order; or all are, there being no time for the first. Nobody
      is charged, or that pod, with a failure of its own kind. */
  ghost predicate Follows(t: Vars, t': Vars)
    requires t.todo != []
  {
    && ChargesOnly(t, t', t.todo[0])
    && if t'.notStarted == None
       then t'.todo == t.todo[1..] && t'.reached == t.reached + 1 && t'.cutMid in {t.cutMid, Some(t.todo[0])}
       else t'.todo == [] && t'.reached == t.reached && t'.notStarted == Some(t.todo[0]) && t'.cutMid == t.cutMid
            && t'.charges == t.charges
  }

  ghost predicate ChargesOnly(t: Vars, t': Vars, pod: Pod) {
    t'.charges == t.charges
    || exists ch :: t'.charges == t.charges + [ch] && ch.pod == pod && !ArchiveWide(ch.cls)
  }

  /** What each outcome of a pod's push leaves in the variables. */
  ghost predicate OutcomeIs(t: Vars, t': Vars, pod: Pod, outcome: Outcome) {
    && t'.todo == t.todo && t'.notStarted == t.notStarted && t'.reached == t.reached
    && (pod in t'.rec.podsOk <==> outcome == Went)
    && (outcome == Went ==> t'.okPods == t.okPods + {pod} && FailsOf(t'.rec, pod) == 0 && pod !in t'.rec.givenUp)
    && (outcome != Went ==> !t'.complete && t'.okPods == t.okPods)
    && (outcome == CutOff ==> t'.cutMid == if t.cutMid.Some? then t.cutMid else Some(pod))
    && (outcome != CutOff ==> t'.cutMid == t.cutMid)
    && (if outcome.Failed? then ChargesOnly(t, t', pod) && |t'.charges| == |t.charges| + 1 else t'.charges == t.charges)
  }

  /** The first pod of the order has its push. */
  predicate Started(t: Vars, t': Vars)
    requires t.todo != []
  {
    t' == t.(todo := t.todo[1..], reached := t.reached + 1, rec := t'.rec, st := t'.st)
  }

  lemma StartFollows(t: Vars, t1: Vars, t': Vars, outcome: Outcome)
    requires t.todo != [] && t.notStarted == None && Started(t, t1) && OutcomeIs(t1, t', t.todo[0], outcome)
    ensures Follows(t, t') && t'.notStarted == None
  {}

  predicate SameRun(r: SnapRun, r0: SnapRun) {
    r.number == r0.number && r.allowed == r0.allowed && r.baselineOk == r0.baselineOk
  }

  function NotThrough(t: Vars, lbl: Label, pod: Pod): Vars {
    var rec := NotePushNotOk(t.rec, pod);
    t.(rec := rec, st := PutRec(t.st, lbl, rec), complete := false)
  }

  /** The run is off its label, and will charge nobody. */
  ghost predicate Stopped(w: World, r0: SnapRun) {
    Syncing(w) && !OnLabel(w) && Run(w).outage && SameRun(Run(w), r0)
  }

  /** The run has given the label its turn, and the archive did not fail. */
  ghost predicate Turned(was: World, w: World, lbl: Label)
    requires Syncing(was)
  {
    && Syncing(w) && !OnLabel(w) && !Run(w).outage && SameRun(Run(w), Run(was))
    && Run(w).visited == Run(was).visited + {lbl} && lbl in w.disk.file.labels && Run(w).st == w.disk.file
    && OthersKept(Run(was).st, Run(w).st, lbl)
  }

  predicate Plan(plan: seq<Asked>) {
    && (forall i, j | 0 <= i < j < |plan| :: plan[i].lbl != plan[j].lbl)
    && (forall i | 0 <= i < |plan| :: Distinct(plan[i].local))
  }

  // ---- what a sync comes to ----------------------------------------------------------------------

  /** Who may be pushed: who is on the list or was archived before, but the staff and the forgotten. */
  ghost function MayPush(w: World, listed: set<Pod>, staff: set<Pod>): set<Pod> {
    set p | p in listed + w.disk.file.allowedEver && p !in staff && p !in w.disk.forgotten
  }

  /** The labels that get their turn. */
  function Due(plan: seq<Asked>): seq<Asked> {
    if plan == [] then []
    else
      var n := |plan| - 1;
      Due(plan[..n]) + if plan[n].isDir then [plan[n]] else []
  }

  /** The pods of a label's turn: who may be pushed, and is not given up unless asked for by name. */
  function AskedOf(a: Asked, allowed: set<Pod>, st: SnapState): seq<Pod> {
    Filter(Filter(a.local, (set p | p in a.local) - allowed), if a.forced then {} else RecordOf(st, a.lbl).givenUp)
  }

  lemma AskedIs(a: Asked, allowed: set<Pod>, st: SnapState, p: Pod)
    ensures p in AskedOf(a, allowed, st) <==>
            p in a.local && p in allowed && (a.forced || p !in RecordOf(st, a.lbl).givenUp)
  {}

  predicate IsWriteOf(s: Step, f: Path) {
    s.Sync? && s.sync.Write? && s.sync.f == f
  }

  /** An rsync has gone past it since. */
  ghost predicate Sent(steps: seq<Step>, from: nat, f: Path) {
    exists i | from <= i < |steps| :: IsWriteOf(steps[i], f)
  }

  /** It was there, and the same, all the while. */
  ghost predicate Steady(ws: seq<World>, from: nat, f: Path) {
    forall i | from <= i < |ws| :: f in ws[i].local && f in ws[from].local && ws[i].local[f] == ws[from].local[f]
  }

  /** What of the pod's tree on the label may go and was steady has been sent. */
  ghost predicate AllSent(ws: seq<World>, steps: seq<Step>, from: nat, lbl: Label, p: Pod)
    requires from < |ws|
  {
    forall f | f in ws[from].local && IsOf(f, lbl, p) && Storable(ws[from].local[f]) && Steady(ws, from, f) ::
      Sent(steps, from, f)
  }

  /** The pod had its turn as the outside had it: left out, held back for its pull, or pushed; and a push
      whose rsync runs all ended went through, and has sent the tree. */
  ghost predicate PodWent(log: History, ws: seq<World>, steps: seq<Step>, from: nat, run: nat, lbl: Label, p: Pod,
                          k: Luck)
    requires from < |ws|
  {
    if k.leftOut then Had(run, lbl, p, LeftOut) in log.had
    else
      || (k.pullRunning && Had(run, lbl, p, Held) in log.had)
      || (&& Had(run, lbl, p, Pushed) in log.had && !Wide(k.outcome)
          && (k.outcome == Went ==> Passed(run, Some((lbl, p))) in log.through && AllSent(ws, steps, from, lbl, p)))
  }

  /** And so each of the order that was reached; which is all of it, or all up to the first without time. */
  ghost predicate TurnWent(log: History, ws: seq<World>, steps: seq<Step>, from: nat, run: nat, lbl: Label,
                           order: seq<Pod>, reached: nat, luck: Pod -> Luck)
    requires from < |ws|
  {
    && reached <= |order|
    && (forall i | 0 <= i < reached ::
          PodWent(log, ws, steps, from, run, lbl, order[i], luck(order[i]))
              && (luck(order[i]).leftOut || !luck(order[i]).noTime))
    && (reached < |order| ==> !luck(order[reached]).leftOut && luck(order[reached]).noTime)
  }

  predicate TurnFor(t: Turn, a: Asked, run: nat, allowed: set<Pod>, st: SnapState) {
    t.run == run && t.lbl == a.lbl && t.asked == AskedOf(a, allowed, st) && t.found == RecordOf(st, a.lbl).cutOff
  }

  /** The turns a run has given: to the labels that are due, in order; to all of them, unless the archive
      failed. */
  ghost predicate TurnsWent(log: History, base: nat, ws: seq<World>, steps: seq<Step>, from: nat, run: nat,
                            due: seq<Asked>, allowed: set<Pod>, st: SnapState)
    requires from < |ws|
  {
    && base <= |log.turns| <= base + |due|
    && forall i | 0 <= i < |log.turns| - base ::
         var t := log.turns[base + i];
         && TurnFor(t, due[i], run, allowed, st)
         && TurnWent(log, ws, steps, from, run, t.lbl, Rotated(t.asked, t.found), t.reached, due[i].luck)
  }

  lemma SteadySince(ws: seq<World>, ws': seq<World>, from: nat, k: nat, f: Path)
    requires from <= k < |ws| && ws <= ws' && Steady(ws', from, f)
    ensures Steady(ws, k, f) && f in ws[from].local && f in ws[k].local && ws[k].local[f] == ws[from].local[f]
  {
    assert ws'[k] == ws[k] && ws'[from] == ws[from];
    forall i | k <= i < |ws| ensures f in ws[i].local && ws[i].local[f] == ws[k].local[f] {
      assert ws'[i] == ws[i];
    }
  }

  lemma SentStill(steps: seq<Step>, steps': seq<Step>, from: nat, k: nat, f: Path)
    requires from <= k && steps <= steps' && Sent(steps, k, f)
    ensures Sent(steps', from, f)
  {
    var i :| k <= i < |steps| && IsWriteOf(steps[i], f);
    assert steps'[i] == steps[i];
  }

  lemma AllSentStill(ws: seq<World>, ws': seq<World>, steps: seq<Step>, steps': seq<Step>, from: nat, k: nat,
                     lbl: Label, p: Pod)
    requires from <= k < |ws| && ws <= ws' && steps <= steps' && AllSent(ws, steps, k, lbl, p)
    ensures AllSent(ws', steps', from, lbl, p)
  {
    forall f | f in ws'[from].local && IsOf(f, lbl, p) && Storable(ws'[from].local[f]) && Steady(ws', from, f)
      ensures Sent(steps', from, f)
    {
      SteadySince(ws, ws', from, k, f);
      SentStill(steps, steps', from, k, f);
    }
  }

  /** What is so of a pod's turn stays so as the history goes on. */
  lemma PodWentStill(a: History, b: History, ws: seq<World>, ws': seq<World>, steps: seq<Step>, steps': seq<Step>,
                     from: nat, run: nat, lbl: Label, p: Pod, k: Luck)
    requires from < |ws| && ws <= ws' && steps <= steps' && a.had <= b.had && a.through <= b.through
    requires PodWent(a, ws, steps, from, run, lbl, p, k)
    ensures PodWent(b, ws', steps', from, run, lbl, p, k)
  {
    if AllSent(ws, steps, from, lbl, p) {
      AllSentStill(ws, ws', steps, steps', from, from, lbl, p);
    }
  }

  lemma TurnWentStill(a: History, b: History, ws: seq<World>, ws': seq<World>, steps: seq<Step>, steps': seq<Step>,
                      from: nat, run: nat, lbl: Label, order: seq<Pod>, reached: nat, luck: Pod -> Luck)
    requires from < |ws| && ws <= ws' && steps <= steps' && a.had <= b.had && a.through <= b.through
    requires TurnWent(a, ws, steps, from, run, lbl, order, reached, luck)
    ensures TurnWent(b, ws', steps', from, run, lbl, order, reached, luck)
  {
    forall i | 0 <= i < reached ensures PodWent(b, ws', steps', from, run, lbl, order[i], luck(order[i])) {
      PodWentStill(a, b, ws, ws', steps, steps', from, run, lbl, order[i], luck(order[i]));
    }
  }

  lemma TurnsWentStill(a: History, b: History, base: nat, ws: seq<World>, ws': seq<World>, steps: seq<Step>,
                       steps': seq<Step>, from: nat, run: nat, due: seq<Asked>, allowed: set<Pod>, st: SnapState)
    requires from < |ws| && ws <= ws' && steps <= steps' && Records(a, b)
    requires TurnsWent(a, base, ws, steps, from, run, due, allowed, st)
    ensures TurnsWent(b, base, ws', steps', from, run, due, allowed, st)
  {
    forall i | 0 <= i < |b.turns| - base
      ensures var t := b.turns[base + i];
              TurnWent(b, ws', steps', from, run, t.lbl, Rotated(t.asked, t.found), t.reached, due[i].luck)
    {
      var t := a.turns[base + i];
      assert TurnFor(t, due[i], run, allowed, st);
      TurnWentStill(a, b, ws, ws', steps, steps', from, run, t.lbl, Rotated(t.asked, t.found), t.reached, due[i].luck);
    }
  }

  /** The loop over the order has given `reached` pods their turn. */
  ghost predicate LoopAt(order: seq<Pod>, t: Vars) {
    && t.reached <= |order|
    && (t.notStarted == None ==> t.todo == order[t.reached..])
    && (t.notStarted.Some? ==> t.todo == [] && t.reached < |order| && t.notStarted == Some(order[t.reached]))
    && (t.cutMid.Some? ==> t.cutMid.value in order)
  }

  lemma InOrderNext(order: seq<Pod>, t: Vars, t': Vars)
    requires LoopAt(order, t) && t.todo != [] && Follows(t, t')
    ensures LoopAt(order, t') && |t'.todo| < |t.todo|
  {
    assert t.todo[0] == order[t.reached];
  }

  /** What a label's turn starts from. */
  predicate MayTurn(w: World, lbl: Label, pods: seq<Pod>) {
    && Syncing(w) && !OnLabel(w) && !Run(w).outage && lbl !in Run(w).visited
    && Distinct(pods) && (forall p | p in pods :: p in Run(w).allowed)
  }

  function TurnStart(w: World): Vars
    requires OnLabel(w)
  {
    Vars(Cur(w).rec, Run(w).st, Cur(w).todo, Cur(w).reached, true, true, None, None, Run(w).okPods, Run(w).charges)
  }

  lemma TurnBegins(w: World, lbl: Label, pods: seq<Pod>, forced: bool)
    requires MayTurn(w, lbl, pods)
    ensures var w1 := BeginLabel(w, lbl, pods, forced);
            && IsAt(w1, Run(w1), Cur(w1), TurnStart(w1), None) && LoopAt(Cur(w1).todo, TurnStart(w1))
            && w1.start == w.start && w1.now == w.now
            && (Cur(w1).couldSeal ==> Over(Cur(w1).lbl, w1.start, w1.now))
            && Cur(w1).lbl == lbl && Run(w1) == Run(w).(cur := Some(Cur(w1))) && w1.log == w.log
            && var was := RecordOf(Run(w).st, lbl);
               && Cur(w1).asked == Filter(pods, if forced then {} else was.givenUp)
               && Cur(w1).todo == Rotated(Cur(w1).asked, was.cutOff) && Cur(w1).rec.cutOff == was.cutOff
  {}

  /** A turn that came to its end leaves the cursor where the next run starts. */
  lemma TurnEnds(w0: World, w1: World, w: World, lbl: Label, pods: seq<Pod>, t: Vars)
    requires Syncing(w0) && OnLabel(w1) && Cur(w1).lbl == lbl && Run(w1) == Run(w0).(cur := Some(Cur(w1)))
             && !Run(w0).outage
    requires IsAt(w, Run(w1), Cur(w1), t, None) && t.todo == [] && LoopAt(Cur(w1).todo, t)
    requires Cur(w1).todo == Rotated(pods, RecordOf(Run(w0).st, lbl).cutOff)
    ensures Turned(w0, EndLabel(w), lbl)
    ensures EndLabel(w).disk.file == PutRec(t.st, lbl, TurnRec(t, Cur(w1).started, w.now, lbl))
    ensures Reaches(pods, RecordOf(Run(w0).st, lbl).cutOff, t.reached, RecordOf(EndLabel(w).disk.file, lbl).cutOff)
  {
    if t.notStarted == None {
      assert Cur(w1).todo[t.reached..] == [] ==> t.reached == |Cur(w1).todo|;
    }
  }

  lemma OrderIsOf(asked: seq<Pod>, cutOff: Option<Pod>, luck: Pod -> Luck)
    requires exists p :: p in Rotated(asked, cutOff) && Wide(luck(p).outcome)
    ensures exists p :: p in asked && Wide(luck(p).outcome)
  {
    RotatedIsPermutation(asked, cutOff);
  }

  lemma TurnLogged(w: World, r0: SnapRun, c0: LabelRun, t: Vars, asked: seq<Pod>)
    requires IsAt(w, r0, c0, t, None) && c0.asked == asked
    ensures TurnAdded(w.log, EndLabel(w).log, Turn(r0.number, c0.lbl, asked, c0.rec.cutOff, t.reached,
                                                   RecordOf(EndLabel(w).disk.file, c0.lbl).cutOff))
  {}

  /** The record a turn leaves. */
  function TurnRec(t: Vars, started: nat, now: nat, lbl: Label): LabelRecord {
    var rec := t.rec.(cutOff := if t.notStarted.Some? then t.notStarted else t.cutMid);
    if t.complete
    then rec.(okStarted := started, okFinished := if now == 0 then 1 else now, linked := t.linked && lbl.Dated?)
    else rec
  }

  // What each of the sync's steps makes of the variables.

  lemma LeftOutIs(w: World, r0: SnapRun, c0: LabelRun, t: Vars)
    requires IsAt(w, r0, c0, t, None) && t.todo != []
    ensures IsAt(LeaveOut(w), r0, c0,
                 t.(todo := t.todo[1..], reached := t.reached + 1, rec := NotePushNotOk(t.rec, t.todo[0]),
                     complete := false,
                    charges := t.charges
                        + [Charge(c0.lbl, t.todo[0], Other, c0.started, LabelEnd(c0.lbl, w.start))]), None)
  {}

  lemma StartIs(w: World, r0: SnapRun, c0: LabelRun, t: Vars, chain: bool, hasLinks: bool)
    requires IsAt(w, r0, c0, t, None) && t.todo != []
    ensures var how := PodPushOf(t.rec, t.todo[0], chain, hasLinks, c0.couldSeal, c0.forced);
            var rec := NotePushStart(t.rec, t.todo[0], how);
            IsAt(StartPush(w, chain, hasLinks), r0, c0,
                 t.(todo := t.todo[1..], reached := t.reached + 1, rec := rec, st := PutRec(t.st, c0.lbl, rec)),
                 Some(Push(t.todo[0], how, chain, hasLinks, JobsOf(how), 0, {})))
  {}

  lemma OkIs(w: World, r0: SnapRun, c0: LabelRun, t: Vars, p: Push)
    requires IsAt(w, r0, c0, t, Some(p))
    ensures var rec := NotePushOk(t.rec, p.pod, p.how, p.chain, p.hasLinks, c0.couldSeal, t.st.bornEmpty);
            IsAt(EndOk(w), r0, c0, t.(rec := rec, st := PutRec(t.st, c0.lbl, rec),
                                          linked := t.linked && p.pod in rec.podsLinked,
                                      okPods := t.okPods + {p.pod}), None)
  {}

  lemma NotOkIs(w: World, r0: SnapRun, c0: LabelRun, t: Vars, p: Push, failure: Option<PushFailure>,
                cutMid: Option<Pod>)
    requires IsAt(w, r0, c0, t, Some(p)) && !IsOutage(failure)
    ensures var rec := NotePushNotOk(t.rec, p.pod);
            var charge := if failure.None? then []
                          else [Charge(c0.lbl, p.pod, failure.value, c0.started, LabelEnd(c0.lbl, w.start))];
            IsAt(EndNotOk(w, failure, cutMid), r0, c0,
                 t.(rec := rec, st := PutRec(t.st, c0.lbl, rec), complete := false, cutMid := cutMid,
                    charges := t.charges + charge), None)
  {}

  lemma PushedOnIs(was: World, w: World, r0: SnapRun, c0: LabelRun, t: Vars, p: Push)
    requires IsAt(was, r0, c0, t, Some(p)) && PushedOn(was, w)
    ensures IsAt(w, r0, c0, t, Some(Cur(w).push.value)) && Cur(w).push.value.(at := p.at, seen := p.seen) == p
  {}

  /** Every step of the run was taken where `Fresh` and the forgets have it. */
  ghost predicate Honours(ws: seq<World>, steps: seq<Step>)
    requires Linked(ws, steps)
  {
    forall i {:trigger steps[i]} | 0 <= i < |steps| :: Fresh(ws[i], steps[i]) && ForgetsKept(ws[i], steps[i])
  }

  lemma HonoursKept(ws: seq<World>, steps: seq<Step>)
    requires Linked(ws, steps) && Honours(ws, steps)
    ensures Kept(ws[0], steps) && ForgetsRespected(ws[0], steps)
    decreases |steps|
  {
    if steps != [] {
      assert Next(ws[0], steps[0], ws[1]);
      LinkedTail(ws, steps);
      forall i | 0 <= i < |steps| - 1 ensures Fresh(ws[1..][i], steps[1..][i])
          && ForgetsKept(ws[1..][i], steps[1..][i]) {
        assert steps[1..][i] == steps[i + 1] && ws[1..][i] == ws[i + 1];
      }
      HonoursKept(ws[1..], steps[1..]);
    }
  }

  lemma HonoursMore(ws: seq<World>, steps: seq<Step>, s: Step, w': World)
    requires Linked(ws, steps) && Linked(ws + [w'], steps + [s])
    requires Honours(ws, steps) && Fresh(ws[|steps|], s) && ForgetsKept(ws[|steps|], s)
    ensures Honours(ws + [w'], steps + [s])
  {
    var ws', steps' := ws + [w'], steps + [s];
    forall i | 0 <= i < |steps'| ensures Fresh(ws'[i], steps'[i]) && ForgetsKept(ws'[i], steps'[i]) {
      if i < |steps| {
        assert steps'[i] == steps[i] && ws'[i] == ws[i];
      }
    }
  }

  predicate Honoured(w: World, s: Step) {
    Fresh(w, s) && ForgetsKept(w, s)
  }

  /** The others' steps do; and of the sync's own all but one that begins with another volume's
      `archive.json`. */
  lemma OthersHonour(w: World, s: Step)
    requires Locks(w) && Syncing(w) && Others(w, s) && Enabled(w, s)
    ensures Honoured(w, s)
  {}

  /** What a sync that ran has done. Unless the archive itself failed, each label of the plan whose folder is
      there has had its turn, in order, over its pods that may be pushed; each pod its turn as the outside
      had it; and what was there before, and steady, of a push that went through was sent. Last it settles
      what it charged. */
  ghost predicate SyncWent(w0: World, w: World, ws: seq<World>, steps: seq<Step>, from: nat, dev: Volume,
                           listed: set<Pod>,
                           staff: set<Pod>, baseline: Option<Outcome>, plan: seq<Asked>)
    requires from < |ws|
  {
    var run := w0.log.runs;
    && w0.log.turns <= w.log.turns
    && TurnsWent(w.log, |w0.log.turns|, ws, steps, from, run, Due(plan), MayPush(w0, listed, staff),
                 ForVolume(w0.disk.file, dev))
    && (run !in w.log.outages ==> |w.log.turns| == |w0.log.turns| + |Due(plan)|)
    && (run in w.log.outages && run !in w0.log.outages ==> (baseline.Some? && Wide(baseline.value)) || SomeWide(plan))
    && (baseline == Some(Went) ==> Passed(run, None) in w.log.through)
    && Settles(steps)
  }

  /** The last step is a sync's that comes to its end, and settles what it charged. */
  predicate Settles(steps: seq<Step>) {
    steps != [] && steps[|steps| - 1] == Sync(Settle)
  }

  // ---- what is sent, pass by pass --------------------------------------------------------------------

  /** What the pass that was under way found, and was steady since, is sent. */
  ghost predicate SentOf(ws: seq<World>, steps: seq<Step>, from: nat, was: World)
    requires Pushing(was)
  {
    forall f | f in was.local && Carries(was, f) && Steady(ws, from, f) :: Sent(steps, from, f)
  }

  ghost predicate SentBut(ws: seq<World>, steps: seq<Step>, from: nat, listed: set<Path>, todo: set<Path>) {
    forall f | f in listed && f !in todo && Steady(ws, from, f) :: Sent(steps, from, f)
  }

  lemma SentMore(ws: seq<World>, ws': seq<World>, steps: seq<Step>, steps': seq<Step>, from: nat, listed: set<Path>,
                 todo: set<Path>, f: Path, w0: World, was: World)
    requires from <= |steps| && |ws| == |steps| + 1 && ws <= ws' && steps <= steps' && ws[from] == w0
    requires ws[|steps|] == was
    requires Pushing(w0) && SameJob(w0, was) && f in listed ==> Carries(w0, f)
    requires Pushing(w0) && SameJob(w0, was) && SentBut(ws, steps, from, listed, todo)
    requires Carries(was, f) && Steady(ws', |steps|, f) ==> Sent(steps', |steps|, f)
    ensures SentBut(ws', steps', from, listed, todo - {f})
  {
    forall g | g in listed && g !in todo - {f} && Steady(ws', from, g) ensures Sent(steps', from, g) {
      SteadySince(ws', ws', from, |steps|, g);
      if g == f {
        assert ws'[|steps|] == was && ws'[from] == w0;
        SentStill(steps', steps', from, |steps|, g);
      } else {
        SteadySince(ws, ws', from, from, g);
        SentStill(steps, steps', from, from, g);
      }
    }
  }

  lemma SentOfStill(ws: seq<World>, ws': seq<World>, steps: seq<Step>, steps': seq<Step>, from: nat, was: World)
    requires from < |ws| && ws <= ws' && steps <= steps' && Pushing(was) && SentOf(ws, steps, from, was)
    ensures SentOf(ws', steps', from, was)
  {
    forall f | f in was.local && Carries(was, f) && Steady(ws', from, f) ensures Sent(steps', from, f) {
      SteadySince(ws, ws', from, from, f);
      SentStill(steps, steps', from, from, f);
    }
  }

  /** What the push's first passes take, and was steady since it began, is sent. */
  ghost predicate JobsSent(ws: seq<World>, steps: seq<Step>, from: nat, was: World, n: nat)
    requires Pushing(was) && n <= |Cur(was).push.value.jobs|
  {
    forall i, f | 0 <= i < n && InPass(was, Cur(was).push.value.jobs[i], f, Cur(was).lbl, Cur(was).push.value.pod)
                  && Steady(ws, from, f) :: Sent(steps, from, f)
  }

  lemma OneMoreSent(ws: seq<World>, ws': seq<World>, steps: seq<Step>, steps': seq<Step>, from: nat, k: nat, was: World,
                    wj: World, n: nat)
    requires |ws| == |steps| + 1 && from <= k == |steps| && ws <= ws' && steps <= steps' && ws[from] == was
             && ws[k] == wj
    requires JobsPast(was, wj, n) && n < |Cur(was).push.value.jobs|
    requires JobsSent(ws, steps, from, was, n) && SentOf(ws', steps', k, wj)
    ensures JobsSent(ws', steps', from, was, n + 1)
  {
    var p, lbl := Cur(was).push.value, Cur(was).lbl;
    forall i, f | 0 <= i < n + 1 && InPass(was, p.jobs[i], f, lbl, p.pod) && Steady(ws', from, f)
      ensures Sent(steps', from, f)
    {
      SteadySince(ws', ws', from, k, f);
      if i == n {
        assert ws'[k] == wj && ws'[from] == was;
        assert Carries(wj, f);
        SentStill(steps', steps', from, k, f);
      } else {
        SteadySince(ws, ws', from, from, f);
        SentStill(steps, steps', from, from, f);
      }
    }
  }

  lemma AllJobsSent(ws: seq<World>, steps: seq<Step>, from: nat, was: World)
    requires from < |ws| && ws[from] == was && Pushing(was)
    requires Cur(was).push.value.jobs == JobsOf(Cur(was).push.value.how)
    requires JobsSent(ws, steps, from, was, |Cur(was).push.value.jobs|)
    ensures AllSent(ws, steps, from, Cur(was).lbl, Cur(was).push.value.pod)
  {
    var p, lbl := Cur(was).push.value, Cur(was).lbl;
    forall f | f in was.local && IsOf(f, lbl, p.pod) && Storable(was.local[f]) && Steady(ws, from, f)
      ensures Sent(steps, from, f)
    {
      var i := if Takes(Files, was.local[f]) then 0 else if p.how == Check then 2 else 1;
      assert InPass(was, p.jobs[i], f, lbl, p.pod);
    }
  }

  // ---- the loops ---------------------------------------------------------------------------------------

  /** What the loop over the order has done so far. */
  ghost predicate LoopWent(log: History, ws: seq<World>, steps: seq<Step>, from: nat, run: nat, lbl: Label,
                           order: seq<Pod>, t: Vars, luck: Pod -> Luck)
    requires from < |ws|
  {
    && t.reached <= |order|
    && (forall i | 0 <= i < t.reached ::
          PodWent(log, ws, steps, from, run, lbl, order[i], luck(order[i]))
              && (luck(order[i]).leftOut || !luck(order[i]).noTime))
    && (t.notStarted.Some? ==> t.reached < |order| && !luck(order[t.reached]).leftOut && luck(order[t.reached]).noTime)
    && (t.notStarted == None && t.todo == [] ==> t.reached == |order|)
  }

  lemma LoopWentMore(a: History, b: History, ws: seq<World>, ws': seq<World>, steps: seq<Step>, steps': seq<Step>,
                     from: nat, run: nat, lbl: Label, order: seq<Pod>, t: Vars, t': Vars, luck: Pod -> Luck)
    requires from < |ws| && ws <= ws' && steps <= steps' && a.had <= b.had && a.through <= b.through
    requires LoopWent(a, ws, steps, from, run, lbl, order, t, luck) && LoopAt(order, t) && LoopAt(order, t')
    requires t.todo != [] && t.notStarted == None && Follows(t, t')
    requires var k := luck(t.todo[0]);
             && (t'.notStarted.Some? <==> !k.leftOut && k.noTime)
             && (t'.notStarted == None ==> PodWent(b, ws', steps', from, run, lbl, t.todo[0], k))
    ensures LoopWent(b, ws', steps', from, run, lbl, order, t', luck)
  {
    assert t.todo[0] == order[t.reached];
    forall i | 0 <= i < t.reached ensures PodWent(b, ws', steps', from, run, lbl, order[i], luck(order[i])) {
      PodWentStill(a, b, ws, ws', steps, steps', from, run, lbl, order[i], luck(order[i]));
    }
    if t'.notStarted == None && t'.todo == [] {
      assert order[t'.reached..] == [];
    }
  }

  /** The label's turn is over. */
  predicate TurnAdded(a: History, b: History, t: Turn) {
    b.turns == a.turns + [t] && a.had <= b.had && a.through <= b.through
  }

  ghost predicate SomeWide(plan: seq<Asked>) {
    exists a, p :: a in plan && p in a.local && Wide(a.luck(p).outcome)
  }

  /** Of the labels that have not come yet the state says what it said when the run began. */
  ghost predicate Unvisited(st: SnapState, r: SnapRun, done: seq<Asked>) {
    && (forall l | l in r.visited :: exists a :: a in done && a.lbl == l)
    && (forall l | l !in r.visited :: RecordOf(r.st, l) == RecordOf(st, l))
  }

  lemma NotYet(st: SnapState, r: SnapRun, done: seq<Asked>, a: Asked)
    requires Unvisited(st, r, done) && forall b | b in done :: b.lbl != a.lbl
    ensures a.lbl !in r.visited && RecordOf(r.st, a.lbl) == RecordOf(st, a.lbl)
  {}

  lemma VisitedMore(st: SnapState, r: SnapRun, r': SnapRun, done: seq<Asked>, a: Asked)
    requires Unvisited(st, r, done) && r'.visited == r.visited + {a.lbl} && OthersKept(r.st, r'.st, a.lbl)
    ensures Unvisited(st, r', done + [a])
  {
    forall l | l in r'.visited ensures exists b :: b in done + [a] && b.lbl == l {
      if l == a.lbl {
        assert a in done + [a];
      } else {
        var b :| b in done && b.lbl == l;
        assert b in done + [a];
      }
    }
  }

  lemma SkippedMore(st: SnapState, r: SnapRun, done: seq<Asked>, a: Asked)
    requires Unvisited(st, r, done)
    ensures Unvisited(st, r, done + [a])
  {
    forall l | l in r.visited ensures exists b :: b in done + [a] && b.lbl == l {
      var b :| b in done && b.lbl == l;
      assert b in done + [a];
    }
  }

  lemma StopsAt(done: seq<Asked>, a: Asked, pods: seq<Pod>)
    requires (forall p | p in pods :: p in a.local) && exists p :: p in pods && Wide(a.luck(p).outcome)
    ensures SomeWide(done + [a])
  {
    var p :| p in pods && Wide(a.luck(p).outcome);
    assert a in done + [a] && p in a.local;
  }

  lemma DueMore(done: seq<Asked>, a: Asked)
    ensures Due(done + [a]) == Due(done) + if a.isDir then [a] else []
  {
    assert (done + [a])[..|done|] == done;
  }

  lemma {:induction false} DueOfMore(a: seq<Asked>, b: seq<Asked>)
    ensures Due(a) <= Due(a + b)
  {
    if b == [] {
      assert a + b == a;
    } else {
      var n := |b| - 1;
      DueOfMore(a, b[..n]);
      DueMore(a + b[..n], b[n]);
      assert a + b == (a + b[..n]) + [b[n]];
    }
  }

  lemma TurnsOfLonger(log: History, base: nat, ws: seq<World>, steps: seq<Step>, from: nat, run: nat, done: seq<Asked>,
                      a: Asked, allowed: set<Pod>, st: SnapState)
    requires from < |ws| && TurnsWent(log, base, ws, steps, from, run, Due(done), allowed, st)
    ensures TurnsWent(log, base, ws, steps, from, run, Due(done + [a]), allowed, st)
  {
    DueMore(done, a);
  }

  lemma TurnAddedWent(a: History, b: History, base: nat, ws: seq<World>, ws': seq<World>, steps: seq<Step>,
                      steps': seq<Step>, from: nat, run: nat, done: seq<Asked>, next: Asked, allowed: set<Pod>,
                      st: SnapState)
    requires from < |ws| && ws <= ws' && steps <= steps' && next.isDir
    requires TurnsWent(a, base, ws, steps, from, run, Due(done), allowed, st) && |a.turns| == base + |Due(done)|
    requires |b.turns| == |a.turns| + 1 && TurnAdded(a, b, b.turns[|a.turns|])
    requires var t := b.turns[|a.turns|];
             && TurnFor(t, next, run, allowed, st)
             && TurnWent(b, ws', steps', from, run, t.lbl, Rotated(t.asked, t.found), t.reached, next.luck)
    ensures TurnsWent(b, base, ws', steps', from, run, Due(done + [next]), allowed, st)
    ensures |b.turns| == base + |Due(done + [next])|
  {
    DueMore(done, next);
    var due := Due(done + [next]);
    forall i | 0 <= i < |b.turns| - base
      ensures var t := b.turns[base + i];
              && TurnFor(t, due[i], run, allowed, st)
              && TurnWent(b, ws', steps', from, run, t.lbl, Rotated(t.asked, t.found), t.reached, due[i].luck)
    {
      if base + i < |a.turns| {
        var t := a.turns[base + i];
        assert b.turns[base + i] == t && due[i] == Due(done)[i];
        TurnWentStill(a, b, ws, ws', steps, steps', from, run, t.lbl, Rotated(t.asked, t.found), t.reached,
            due[i].luck);
      }
    }
  }

  /** The run, from `w0` on, has come so far in the plan. */
  ghost predicate PlanAt(w0: World, w: World, ws: seq<World>, steps: seq<Step>, from: nat, done: seq<Asked>)
    requires Syncing(w0) && from < |ws|
  {
    && Syncing(w) && !OnLabel(w) && SameRun(Run(w), Run(w0)) && (Run(w0).outage ==> Run(w).outage)
    && w0.log.turns <= w.log.turns && w0.log.through <= w.log.through
    && w.log.outages == w0.log.outages + (if Run(w).outage then {Run(w0).number} else {})
    && (Run(w).outage && !Run(w0).outage ==> SomeWide(done))
    && TurnsWent(w.log, |w0.log.turns|, ws, steps, from, Run(w0).number, Due(done), Run(w0).allowed, Run(w0).st)
    && (!Run(w).outage ==>
          Unvisited(Run(w0).st, Run(w), done) && |w.log.turns| == |w0.log.turns| + |Due(done)|)
  }

  lemma PlanStarts(w: World, ws: seq<World>, steps: seq<Step>, from: nat)
    requires Syncing(w) && !OnLabel(w) && Run(w).visited == {} && from < |ws|
    requires Run(w).outage ==> Run(w).number in w.log.outages
    ensures PlanAt(w, w, ws, steps, from, [])
  {
    assert w.log.outages == w.log.outages + {};
    assert Run(w).outage ==> w.log.outages == w.log.outages + {Run(w).number};
  }

  lemma LabelStops(w0: World, w1: World, w: World, ws: seq<World>, ws': seq<World>, steps: seq<Step>, steps': seq<Step>,
                   from: nat, done: seq<Asked>, a: Asked, pods: seq<Pod>)
    requires Syncing(w0) && from < |ws| && ws <= ws' && steps <= steps'
    requires PlanAt(w0, w1, ws, steps, from, done) && Stopped(w, Run(w1)) && Records(w1.log, w.log)
    requires w.log.outages == w1.log.outages + {Run(w1).number}
    requires (forall p | p in pods :: p in a.local) && exists p :: p in pods && Wide(a.luck(p).outcome)
    ensures PlanAt(w0, w, ws', steps', from, done + [a])
  {
    StopsAt(done, a, pods);
    TurnsWentStill(w1.log, w.log, |w0.log.turns|, ws, ws', steps, steps', from, Run(w0).number, Due(done),
        Run(w0).allowed,
                   Run(w0).st);
    TurnsOfLonger(w.log, |w0.log.turns|, ws', steps', from, Run(w0).number, done, a, Run(w0).allowed, Run(w0).st);
  }

  lemma LabelSkipped(w0: World, w: World, ws: seq<World>, steps: seq<Step>, from: nat, done: seq<Asked>, a: Asked)
    requires Syncing(w0) && from < |ws| && PlanAt(w0, w, ws, steps, from, done) && !Run(w).outage && !a.isDir
    ensures PlanAt(w0, w, ws, steps, from, done + [a])
  {
    SkippedMore(Run(w0).st, Run(w), done, a);
    DueMore(done, a);
    assert Due(done) + [] == Due(done);
  }

  lemma LabelWent(w0: World, w1: World, w: World, ws: seq<World>, ws': seq<World>, steps: seq<Step>, steps': seq<Step>,
                  from: nat, done: seq<Asked>, a: Asked, pods: seq<Pod>, reached: nat)
    requires Syncing(w0) && from < |ws| && ws <= ws' && steps <= steps' && a.isDir
    requires PlanAt(w0, w1, ws, steps, from, done) && !Run(w1).outage && Turned(w1, w, a.lbl)
    requires forall b | b in done :: b.lbl != a.lbl
    requires pods == Filter(a.local, (set p | p in a.local) - Run(w0).allowed) && w.log.outages == w1.log.outages
    requires var was := RecordOf(Run(w1).st, a.lbl);
             var asked := Filter(pods, if a.forced then {} else was.givenUp);
             && TurnAdded(w1.log, w.log, Turn(Run(w1).number, a.lbl, asked, was.cutOff, reached,
                                              RecordOf(w.disk.file, a.lbl).cutOff))
             && TurnWent(w.log, ws', steps', from, Run(w1).number, a.lbl, Rotated(asked, was.cutOff), reached, a.luck)
    ensures PlanAt(w0, w, ws', steps', from, done + [a])
  {
    NotYet(Run(w0).st, Run(w1), done, a);
    TurnAddedWent(w1.log, w.log, |w0.log.turns|, ws, ws', steps, steps', from, Run(w0).number, done, a, Run(w0).allowed,
                  Run(w0).st);
    VisitedMore(Run(w0).st, Run(w1), Run(w), done, a);
  }

  /** Where the loop over the plan stops. */
  lemma PlanCut(w0: World, w: World, ws: seq<World>, steps: seq<Step>, from: nat, plan: seq<Asked>, i: nat)
    requires i <= |plan| && Syncing(w0) && from < |ws| && PlanAt(w0, w, ws, steps, from, plan[..i])
    requires i == |plan| || Run(w).outage
    ensures PlanAt(w0, w, ws, steps, from, plan)
  {
    if i == |plan| {
      assert plan[..i] == plan;
    } else {
      DueOfMore(plan[..i], plan[i..]);
      assert plan == plan[..i] + plan[i..];
      if SomeWide(plan[..i]) {
        var a, p :| a in plan[..i] && p in a.local && Wide(a.luck(p).outcome);
        assert a in plan;
      }
    }
  }

  /** What a run begins with. */
  lemma BeginsWith(w: World, dev: Volume, listed: set<Pod>, staff: set<Pod>)
    ensures var r := Run(BeginSync(w, dev, listed, staff));
            && r.number == w.log.runs && r.allowed == MayPush(w, listed, staff) && r.visited == {} && !r.outage
            && forall l :: RecordOf(r.st, l) == RecordOf(ForVolume(w.disk.file, dev), l)
    ensures SameRecord(w.log, BeginSync(w, dev, listed, staff).log)
  {}

  lemma AllWent(w0: World, w1: World, w2: World, w: World, ws: seq<World>, ws': seq<World>, steps: seq<Step>,
                steps': seq<Step>, from: nat, dev: Volume, listed: set<Pod>, staff: set<Pod>,
                baseline: Option<Outcome>, plan: seq<Asked>)
    requires from < |ws| && ws <= ws' && steps <= steps' && Syncing(w1) && PlanAt(w1, w2, ws, steps, from, plan)
    requires Run(w1).number == w0.log.runs && Run(w1).allowed == MayPush(w0, listed, staff)
    requires forall l :: RecordOf(Run(w1).st, l) == RecordOf(ForVolume(w0.disk.file, dev), l)
    requires Records(w0.log, w1.log) && SameRecord(w2.log, w.log)
    requires Run(w1).outage <==> baseline.Some? && Wide(baseline.value)
    requires w1.log.outages == w0.log.outages + if Run(w1).outage then {w0.log.runs} else {}
    requires baseline == Some(Went) ==> Passed(w0.log.runs, None) in w1.log.through
    requires Settles(steps')
    ensures SyncWent(w0, w, ws', steps', from, dev, listed, staff, baseline, plan)
  {
    TurnsWentSame(w2.log, w.log, |w0.log.turns|, ws, ws', steps, steps', from, w0.log.runs, Due(plan),
                  MayPush(w0, listed, staff), Run(w1).st, ForVolume(w0.disk.file, dev));
  }

  /** And of what the run began with only the records count. */
  lemma TurnsWentSame(a: History, b: History, base: nat, ws: seq<World>, ws': seq<World>, steps: seq<Step>,
                      steps': seq<Step>, from: nat, run: nat, due: seq<Asked>, allowed: set<Pod>, st: SnapState,
                      st': SnapState)
    requires from < |ws| && ws <= ws' && steps <= steps' && Records(a, b)
    requires TurnsWent(a, base, ws, steps, from, run, due, allowed, st)
    requires forall l :: RecordOf(st, l) == RecordOf(st', l)
    ensures TurnsWent(b, base, ws', steps', from, run, due, allowed, st')
  {
    TurnsWentStill(a, b, base, ws, ws', steps, steps', from, run, due, allowed, st);
    forall i | 0 <= i < |b.turns| - base ensures TurnFor(b.turns[base + i], due[i], run, allowed, st') {
      assert TurnFor(b.turns[base + i], due[i], run, allowed, st);
    }
  }

  /** The control box and the archive, with the steps taken since the object was made; `current`: every sync
      read the current `archive.json`. */
  class SnapSync {
    const first: World
    var w: World
    ghost var worlds: seq<World>
    ghost var trace: seq<Step>
    ghost var current: bool

    ghost predicate Valid()
      reads this
    {
      && Linked(worlds, trace) && worlds[0] == first && worlds[|trace|] == w && Locks(w)
      && (current ==> Honours(worlds, trace))
    }

    constructor (world: World)
      requires Locks(world)
      ensures Valid() && first == w == world && current
    {
      first := world;
      w := world;
      worlds := [world];
      trace := [];
      current := true;
    }

    /** Since the method began only more steps were taken. */
    twostate predicate Onward()
      reads this
    {
      current == old(current) && old(trace) <= trace && old(worlds) <= worlds
    }

    method Take(s: Step)
      requires Valid() && Enabled(w, s)
      modifies this
      ensures Valid() && w == Apply(old(w), s) && current == (old(current) && Honoured(old(w), s))
      ensures trace == old(trace) + [s] && worlds == old(worlds) + [w]
    {
      LinkedMore(worlds, trace, s, Apply(w, s));
      if current && Honoured(w, s) {
        HonoursMore(worlds, trace, s, Apply(w, s));
      }
      StepKeepsLocks(w, s);
      current := current && Honoured(w, s);
      trace := trace + [s];
      w := Apply(w, s);
      worlds := worlds + [w];
    }

    /** Anyone else takes any number of steps: pulls, a forget, the big sync, `up`, the clock. */
    method Meanwhile()
      requires Valid() && Syncing(w)
      modifies this
      ensures Valid() && Onward() && Left(old(w), w)
    {
      var n: int := *;
      for i := 0 to if n < 0 then 0 else n
        invariant Valid() && Onward() && Left(old(w), w)
      {
        var s: Step := *;
        if Enabled(w, s) && Others(w, s) {
          OthersLeave(w, s);
          OthersHonour(w, s);
          LeftTwice(old(w), w, Apply(w, s));
          Take(s);
        }
      }
    }

    // The sync's own steps.

    method SendOne(f: Path)
      requires Valid() && Pushing(w) && Carries(w, f)
      modifies this
      ensures Valid() && Onward() && w == WriteFile(old(w), f, old(w).now)
      ensures trace == old(trace) + [Sync(Write(f, old(w).now))]
    {
      Take(Sync(Write(f, w.now)));
    }

    method FinishJob()
      requires Valid() && Pushing(w) && JobEnds(w)
      modifies this
      ensures Valid() && Onward() && w == NextJob(old(w))
    {
      Take(Sync(JobDone));
    }

    method BeginTurn(lbl: Label, pods: seq<Pod>, forced: bool)
      requires Valid() && MayTurn(w, lbl, pods)
      modifies this
      ensures Valid() && Onward() && w == BeginLabel(old(w), lbl, pods, forced)
    {
      Take(Sync(LabelBegin(lbl, pods, forced)));
    }

    method SkipLeftOut()
      requires Valid() && AtPod(w)
      modifies this
      ensures Valid() && Onward() && w == LeaveOut(old(w))
    {
      Take(Sync(PodLeftOut));
    }

    method SkipHeld(chain: bool, hasLinks: bool)
      requires Valid() && AtPod(w) && HoldsForPull(HowOf(Cur(w), chain, hasLinks), Cur(w).couldSeal)
      modifies this
      ensures Valid() && Onward() && w == Hold(old(w))
    {
      Take(Sync(PodHeld(chain, hasLinks)));
    }

    method RunOutOfTime()
      requires Valid() && AtPod(w)
      modifies this
      ensures Valid() && Onward() && w == NoTime(old(w))
    {
      Take(Sync(PodNoTime));
    }

    /** The write-ahead record: saved durably, and only then does rsync start. */
    method SaveBeforePush(chain: bool, hasLinks: bool)
      requires Valid() && AtPod(w)
      modifies this
      ensures Valid() && Onward() && w == StartPush(old(w), chain, hasLinks)
    {
      Take(Sync(PodStart(chain, hasLinks)));
    }

    method SaveOk()
      requires Valid() && Pushing(w) && Cur(w).push.value.at == |Cur(w).push.value.jobs|
      modifies this
      ensures Valid() && Onward() && w == EndOk(old(w))
    {
      Take(Sync(PodOk));
    }

    method SaveCut(cutMid: Option<Pod>)
      requires Valid() && Pushing(w)
      requires cutMid == if Cur(w).cutMid.Some? then Cur(w).cutMid else Some(Cur(w).push.value.pod)
      modifies this
      ensures Valid() && Onward() && w == EndNotOk(old(w), None, cutMid)
    {
      Take(Sync(PodCut));
    }

    method SaveFailed(cls: PushFailure)
      requires Valid() && Pushing(w)
      modifies this
      ensures Valid() && Onward() && w == EndNotOk(old(w), Some(cls), Cur(old(w)).cutMid)
    {
      Take(Sync(PodFail(cls)));
    }

    method SaveTurn()
      requires Valid() && OnLabel(w) && !Pushing(w) && Cur(w).todo == []
      modifies this
      ensures Valid() && Onward() && w == EndLabel(old(w))
    {
      Take(Sync(LabelDone));
    }

    // A push.

    /** One file of the pass, after whatever others do first: if it is still as it was, it is sent. */
    method SendFile(f: Path, ghost todo: set<Path>)
      requires Valid() && Pushing(w) && Past(w, todo + {f})
      requires MaySeal(w)
      modifies this
      ensures Valid() && Onward() && SameJob(old(w), w) && Past(w, todo)
      ensures Carries(old(w), f) && Steady(worlds, |old(trace)|, f) ==> Sent(trace, |old(trace)|, f)
    {
      ghost var was, from := w, |trace|;
      Meanwhile();
      ghost var then_, k := w, |trace|;
      LeftOn(was, w);
      PastOn(was, w, f, todo, w.now);
      if f in w.local && Carries(w, f) {
        WritesOn(was, w, f, w.now);
        SendOne(f);
        assert IsWriteOf(trace[k], f);
      }
      if Carries(was, f) && Steady(worlds, from, f) {
        assert worlds[k] == then_ && worlds[from] == was;
        assert f in then_.local && then_.local[f] == was.local[f];
      }
    }

    /** The files of one rsync run: if it ends, all it found; else it is cut off, or fails, before any of
        them or after the last. */
    method SendAll(outcome: Outcome)
      requires Valid() && Pushing(w)
      requires MaySeal(w)
      modifies this
      ensures Valid() && Onward() && SameJob(old(w), w)
      ensures outcome == Went ==> Past(w, {}) && SentOf(worlds, trace, |old(trace)|, old(w))
    {
      var todo := set f | f in w.local && Carries(w, f);
      ghost var w0, from, listed := w, |trace|, todo;
      var goesOn: bool := *;
      while todo != {} && (outcome == Went || goesOn)
        invariant Valid() && Onward() && SameJob(w0, w) && Past(w, todo)
        invariant SentBut(worlds, trace, from, listed, todo)
        decreases todo
      {
        var f :| f in todo;
        PastButOne(w, f, todo);
        ghost var was, wasTodo, wasWorlds, wasTrace := w, todo, worlds, trace;
        todo := todo - {f};
        SendFile(f, todo);
        SameJobTwice(w0, was, w);
        SentMore(wasWorlds, worlds, wasTrace, trace, from, listed, wasTodo, f, w0, was);
        goesOn := *;
      }
    }

    /** One more rsync run over the pod's tree. */
    method RunJob(ghost was: World, ghost n: nat, outcome: Outcome)
      requires Valid() && JobsPast(was, w, n) && n < |Cur(was).push.value.jobs| && MaySeal(was)
      modifies this
      ensures Valid() && Onward() && PushedOn(was, w)
      ensures outcome == Went ==> JobsPast(was, w, n + 1) && SentOf(worlds, trace, |old(trace)|, old(w))
    {
      ghost var w0, from := w, |trace|;
      SendAll(outcome);
      StillAt(was, w0, w, n);
      if outcome == Went {
        ghost var ws, steps := worlds, trace;
        OneMorePast(was, w, n);
        FinishJob();
        SentOfStill(ws, worlds, steps, trace, from, w0);
      }
    }

    /** A pod's push: its rsync runs, one after the other. It goes through only when all have ended; what was
        there before, and steady, is then sent. */
    method RunPush(outcome: Outcome)
      requires Valid() && Pushing(w) && Cur(w).push.value.at == 0
               && Cur(w).push.value.jobs == JobsOf(Cur(w).push.value.how)
      requires MaySeal(w)
      modifies this
      ensures Valid() && Onward() && PushedOn(old(w), w)
      ensures outcome == Went ==>
                && JobsPast(old(w), w, |Cur(old(w)).push.value.jobs|)
                && AllSent(worlds, trace, |old(trace)|, Cur(old(w)).lbl, Cur(old(w)).push.value.pod)
    {
      var n := |Cur(w).push.value.jobs|;
      ghost var w0, from := w, |trace|;
      JustStarted(w);
      for j := 0 to n
        invariant Valid() && Onward() && JobsPast(w0, w, j)
        invariant JobsSent(worlds, trace, from, w0, j)
      {
        ghost var k, wj, ws, steps := |trace|, w, worlds, trace;
        var ends: bool := *;
        var mine := if ends || j == n - 1 then outcome else Went;
        RunJob(w0, j, mine);
        if mine != Went {
          return;
        }
        OneMoreSent(ws, worlds, steps, trace, from, k, w0, wj, j);
      }
      AllJobsSent(worlds, trace, from, w0);
    }

    /** A pod's push of the label and what is recorded of it; `stop`: the archive itself failed. */
    method PushPod(ghost from: nat, ghost r0: SnapRun, ghost c0: LabelRun, t: Vars, k: Luck)
      returns (t': Vars, stop: bool)
      requires Valid() && IsAt(w, r0, c0, t, None) && t.todo != [] && t.notStarted == None && from <= |trace|
      requires c0.couldSeal ==> Over(c0.lbl, w.start, w.now)
      requires !k.leftOut
      modifies this
      ensures Valid() && Onward() && w.start == old(w).start && w.now >= old(w).now && Records(old(w).log, w.log)
      ensures (stop <==> Wide(k.outcome)) && OutagesAre(old(w).log, w.log, stop, r0.number)
      ensures !stop ==> IsAt(w, r0, c0, t', None) && Follows(t, t') && t'.notStarted == None
      ensures !stop ==> PodWent(w.log, worlds, trace, from, r0.number, c0.lbl, t.todo[0], k)
      ensures stop ==> Stopped(w, r0)
    {
      var pod := t.todo[0];
      t' := StartPod(r0, c0, t, k.chain, k.hasLinks);
      ghost var t1, before, at := t', w, |trace|;
      RunPush(k.outcome);
      PushedOnIs(before, w, r0, c0, t', Cur(before).push.value);
      ghost var ws, steps := worlds, trace;
      t', stop := Record(r0, c0, t', k.outcome);
      if !stop {
        StartFollows(t, t1, t', k.outcome);
      }
      if k.outcome == Went {
        AllSentStill(ws, worlds, steps, trace, from, at, c0.lbl, pod);
      }
    }

    /** The pod's push is recorded, and starts. */
    method StartPod(ghost r0: SnapRun, ghost c0: LabelRun, t: Vars, chain: bool, hasLinks: bool) returns (t': Vars)
      requires Valid() && IsAt(w, r0, c0, t, None) && t.todo != []
      requires c0.couldSeal ==> Over(c0.lbl, w.start, w.now)
      modifies this
      ensures Valid() && Onward()
      ensures w.start == old(w).start && w.now == old(w).now && Records(old(w).log, w.log)
      ensures w.log.outages == old(w).log.outages
      ensures Started(t, t') && Pushing(w) && MaySeal(w) && IsAt(w, r0, c0, t', Cur(w).push)
      ensures var p := Cur(w).push.value; p.pod == t.todo[0] && p.at == 0 && p.jobs == JobsOf(p.how)
      ensures Cur(w).lbl == c0.lbl && Had(r0.number, c0.lbl, t.todo[0], Pushed) in w.log.had
    {
      var pod, lbl, couldSeal := t.todo[0], Cur(w).lbl, Cur(w).couldSeal;
      var how := PodPushOf(t.rec, pod, chain, hasLinks, couldSeal, Cur(w).forced);
      var rec := NotePushStart(t.rec, pod, how);
      t' := t.(todo := t.todo[1..], reached := t.reached + 1, rec := rec, st := PutRec(t.st, lbl, rec));
      StartIs(w, r0, c0, t, chain, hasLinks);
      SaveBeforePush(chain, hasLinks);
    }

    /** What a push's end leaves. */
    method Record(ghost r0: SnapRun, ghost c0: LabelRun, t: Vars, outcome: Outcome) returns (t': Vars, stop: bool)
      requires Valid() && Pushing(w) && IsAt(w, r0, c0, t, Cur(w).push)
      requires outcome == Went ==> Cur(w).push.value.at == |Cur(w).push.value.jobs|
      modifies this
      ensures Valid() && Onward() && w.start == old(w).start && w.now == old(w).now && Records(old(w).log, w.log)
      ensures !stop ==> IsAt(w, r0, c0, t', None)
      ensures stop ==> Stopped(w, r0)
      ensures (stop <==> Wide(outcome)) && OutagesAre(old(w).log, w.log, stop, r0.number)
      ensures !stop ==> OutcomeIs(t, t', Cur(old(w)).push.value.pod, outcome)
      ensures outcome == Went ==> Passed(r0.number, Some((c0.lbl, Cur(old(w)).push.value.pod))) in w.log.through
    {
      var lbl, p := Cur(w).lbl, Cur(w).push.value;
      stop := false;
      match outcome
      case Went =>
        var rec := NotePushOk(t.rec, p.pod, p.how, p.chain, p.hasLinks, Cur(w).couldSeal, t.st.bornEmpty);
        t' := t.(rec := rec, st := PutRec(t.st, lbl, rec), linked := t.linked && p.pod in rec.podsLinked,
                 okPods := t.okPods + {p.pod});
        OkIs(w, r0, c0, t, p);
        SaveOk();
      case CutOff =>
        t' := NotThrough(t, lbl, p.pod).(cutMid := if t.cutMid.Some? then t.cutMid else Some(p.pod));
        assert t.charges + [] == t.charges;
        NotOkIs(w, r0, c0, t, p, None, t'.cutMid);
        SaveCut(t'.cutMid);
      case Failed(cls) =>
        if ArchiveWide(cls) {
          t', stop := NotThrough(t, lbl, p.pod), true;
          SaveFailed(cls);
        } else {
          t' := RecordFailed(r0, c0, t, cls);
        }
    }

    /** A failure of the pod's own. */
    method RecordFailed(ghost r0: SnapRun, ghost c0: LabelRun, t: Vars, cls: PushFailure) returns (t': Vars)
      requires Valid() && Pushing(w) && IsAt(w, r0, c0, t, Cur(w).push) && !ArchiveWide(cls)
      modifies this
      ensures Valid() && Onward() && w.start == old(w).start && w.now == old(w).now && Records(old(w).log, w.log)
      ensures w.log.outages == old(w).log.outages
      ensures IsAt(w, r0, c0, t', None) && OutcomeIs(t, t', Cur(old(w)).push.value.pod, Failed(cls))
    {
      var lbl, p := Cur(w).lbl, Cur(w).push.value;
      var ch := Charge(lbl, p.pod, cls, Cur(w).started, LabelEnd(lbl, w.start));
      t' := NotThrough(t, lbl, p.pod).(charges := t.charges + [ch]);
      NotOkIs(w, r0, c0, t, p, Some(cls), t.cutMid);
      SaveFailed(cls);
    }

    // A label's turn.

    /** A pod of the order: its push, or why it is passed over. */
    method NextPod(ghost from: nat, ghost r0: SnapRun, ghost c0: LabelRun, t: Vars, k: Luck)
      returns (t': Vars, stop: bool)
      requires Valid() && IsAt(w, r0, c0, t, None) && t.todo != [] && t.notStarted == None && from <= |trace|
      requires c0.couldSeal ==> Over(c0.lbl, w.start, w.now)
      modifies this
      ensures Valid() && Onward() && w.start == old(w).start && w.now >= old(w).now && Records(old(w).log, w.log)
      ensures !stop ==> IsAt(w, r0, c0, t', None) && Follows(t, t')
      ensures !stop ==> (t'.notStarted.Some? <==> !k.leftOut && k.noTime)
      ensures !stop && t'.notStarted == None ==> PodWent(w.log, worlds, trace, from, r0.number, c0.lbl, t.todo[0], k)
      ensures !k.leftOut && !k.noTime && k.pullRunning && HoldsForPull(
                PodPushOf(t.rec, t.todo[0], k.chain, k.hasLinks, c0.couldSeal, c0.forced), c0.couldSeal) ==>
                Had(r0.number, c0.lbl, t.todo[0], Held) in w.log.had
      ensures stop ==> Stopped(w, r0) && Wide(k.outcome)
      ensures OutagesAre(old(w).log, w.log, stop, r0.number)
    {
      Meanwhile();
      var how := PodPushOf(t.rec, t.todo[0], k.chain, k.hasLinks, Cur(w).couldSeal, Cur(w).forced);
      if k.leftOut {
        stop := false;
        t' := LeaveItOut(r0, c0, t);
      } else if k.noTime {
        stop := false;
        t' := LeaveTheRest(r0, c0, t);
      } else if HoldsForPull(how, Cur(w).couldSeal) && k.pullRunning {
        stop := false;
        t' := WaitForPull(r0, c0, t, k.chain, k.hasLinks);
      } else {
        t', stop := PushPod(from, r0, c0, t, k);
      }
    }

    /** The budget is used up: this pod and the rest wait for the next run. */
    method LeaveTheRest(ghost r0: SnapRun, ghost c0: LabelRun, t: Vars) returns (t': Vars)
      requires Valid() && IsAt(w, r0, c0, t, None) && t.todo != [] && t.notStarted == None
      modifies this
      ensures Valid() && Onward() && w.start == old(w).start && w.now == old(w).now && Records(old(w).log, w.log)
      ensures w.log.outages == old(w).log.outages
      ensures IsAt(w, r0, c0, t', None) && Follows(t, t') && t'.notStarted == Some(t.todo[0])
    {
      t' := t.(todo := [], notStarted := Some(t.todo[0]), complete := false);
      RunOutOfTime();
    }

    /** Its pull is running: it waits for the next run, and is never charged. */
    method WaitForPull(ghost r0: SnapRun, ghost c0: LabelRun, t: Vars, chain: bool, hasLinks: bool) returns (t': Vars)
      requires Valid() && IsAt(w, r0, c0, t, None) && t.todo != [] && t.notStarted == None
      requires HoldsForPull(HowOf(Cur(w), chain, hasLinks), Cur(w).couldSeal)
      modifies this
      ensures Valid() && Onward() && w.start == old(w).start && w.now == old(w).now && Records(old(w).log, w.log)
      ensures w.log.outages == old(w).log.outages
      ensures IsAt(w, r0, c0, t', None) && Follows(t, t') && t'.charges == t.charges && t'.notStarted == None
      ensures Had(r0.number, c0.lbl, t.todo[0], Held) in w.log.had
    {
      t' := t.(todo := t.todo[1..], reached := t.reached + 1, complete := false);
      SkipHeld(chain, hasLinks);
    }

    /** Its own doing: its failure, charged like any other. */
    method LeaveItOut(ghost r0: SnapRun, ghost c0: LabelRun, t: Vars) returns (t': Vars)
      requires Valid() && IsAt(w, r0, c0, t, None) && t.todo != [] && t.notStarted == None
      modifies this
      ensures Valid() && Onward() && w.start == old(w).start && w.now == old(w).now && Records(old(w).log, w.log)
      ensures w.log.outages == old(w).log.outages
      ensures IsAt(w, r0, c0, t', None) && Follows(t, t') && |t'.charges| == |t.charges| + 1 && t'.notStarted == None
      ensures Had(r0.number, c0.lbl, t.todo[0], LeftOut) in w.log.had
    {
      var pod := t.todo[0];
      var ch := Charge(Cur(w).lbl, pod, Other, Cur(w).started, LabelEnd(Cur(w).lbl, w.start));
      t' := t.(todo := t.todo[1..], reached := t.reached + 1, rec := NotePushNotOk(t.rec, pod), complete := false,
               charges := t.charges + [ch]);
      LeftOutIs(w, r0, c0, t);
      SkipLeftOut();
    }

    /** The pods of the order, one after the other. */
    method PushPods(ghost from: nat, ghost r0: SnapRun, ghost c0: LabelRun, t: Vars, luck: Pod -> Luck)
      returns (t': Vars, stop: bool)
      requires Valid() && IsAt(w, r0, c0, t, None) && t.reached == 0 && t.notStarted == None && LoopAt(t.todo, t)
      requires c0.couldSeal ==> Over(c0.lbl, w.start, w.now)
      requires from <= |trace|
      modifies this
      ensures Valid() && Onward() && w.start == old(w).start && w.now >= old(w).now && Records(old(w).log, w.log)
      ensures !stop ==> IsAt(w, r0, c0, t', None) && t'.todo == [] && LoopAt(t.todo, t')
      ensures !stop ==> TurnWent(w.log, worlds, trace, from, r0.number, c0.lbl, t.todo, t'.reached, luck)
      ensures stop ==> Stopped(w, r0) && exists p :: p in t.todo && Wide(luck(p).outcome)
      ensures OutagesAre(old(w).log, w.log, stop, r0.number)
    {
      ghost var w0, order := w, t.todo;
      t', stop := t, false;
      while t'.todo != []
        invariant Valid() && Onward() && w.start == w0.start && w.now >= w0.now && Records(w0.log, w.log)
        invariant IsAt(w, r0, c0, t', None) && LoopAt(order, t')
        invariant w.log.outages == w0.log.outages
        invariant LoopWent(w.log, worlds, trace, from, r0.number, c0.lbl, order, t', luck)
        decreases |t'.todo|
      {
        ghost var was, log, ws, steps := t', w.log, worlds, trace;
        assert t'.todo[0] == order[t'.reached];
        t', stop := NextPod(from, r0, c0, t', luck(t'.todo[0]));
        if stop {
          return;
        }
        InOrderNext(order, was, t');
        LoopWentMore(log, w.log, ws, worlds, steps, trace, from, r0.number, c0.lbl, order, was, t', luck);
      }
    }

    /** One label's turn: its pods in order, until the order or the budget is through. `reached` of
        the order got their turn. */
    method PushLabel(ghost from: nat, lbl: Label, pods: seq<Pod>, forced: bool, luck: Pod -> Luck)
      returns (stop: bool, reached: nat)
      requires Valid() && MayTurn(w, lbl, pods) && from <= |trace|
      modifies this
      ensures Valid() && Onward()
      ensures stop ==> Stopped(w, Run(old(w))) && Records(old(w).log, w.log)
      ensures stop ==> exists p :: p in pods && Wide(luck(p).outcome)
      ensures OutagesAre(old(w).log, w.log, stop, Run(old(w)).number)
      ensures !stop ==> Turned(old(w), w, lbl)
      ensures !stop ==> var was := RecordOf(Run(old(w)).st, lbl);
                        Reaches(Filter(pods, if forced then {} else was.givenUp), was.cutOff, reached,
                                RecordOf(w.disk.file, lbl).cutOff)
      ensures !stop ==> var was := RecordOf(Run(old(w)).st, lbl);
                        var asked := Filter(pods, if forced then {} else was.givenUp);
                        && TurnAdded(old(w).log, w.log, Turn(Run(old(w)).number, lbl, asked, was.cutOff, reached,
                                                             RecordOf(w.disk.file, lbl).cutOff))
                        && TurnWent(w.log, worlds, trace, from, Run(old(w)).number, lbl, Rotated(asked, was.cutOff),
                                    reached, luck)
    {
      ghost var w0 := w;
      TurnBegins(w, lbl, pods, forced);
      BeginTurn(lbl, pods, forced);
      ghost var w1 := w;
      var t := TurnStart(w);
      ghost var order := t.todo;
      t, stop := PushPods(from, Run(w), Cur(w), t, luck);
      reached := t.reached;
      ghost var was := RecordOf(Run(w0).st, lbl);
      ghost var asked := Filter(pods, if forced then {} else was.givenUp);
      if stop {
        OrderIsOf(asked, was.cutOff, luck);
      } else {
        EndTurn(from, w0, w1, lbl, asked, t, order, luck);
      }
    }

    /** The turn comes to its end: what it leaves is saved. */
    method EndTurn(ghost from: nat, ghost w0: World, ghost w1: World, ghost lbl: Label, ghost asked: seq<Pod>,
                   ghost t: Vars, ghost order: seq<Pod>, ghost luck: Pod -> Luck)
      requires Valid() && from <= |trace|
      requires Syncing(w0) && OnLabel(w1) && Cur(w1).lbl == lbl && Run(w1) == Run(w0).(cur := Some(Cur(w1)))
               && !Run(w0).outage
      requires IsAt(w, Run(w1), Cur(w1), t, None) && t.todo == [] && LoopAt(Cur(w1).todo, t)
      requires Cur(w1).asked == asked && Cur(w1).rec.cutOff == RecordOf(Run(w0).st, lbl).cutOff
      requires Cur(w1).todo == Rotated(asked, RecordOf(Run(w0).st, lbl).cutOff) == order
      requires TurnWent(w.log, worlds, trace, from, Run(w0).number, lbl, order, t.reached, luck)
      modifies this
      ensures Valid() && Onward() && Turned(w0, w, lbl) && w.log.outages == old(w).log.outages
      ensures Reaches(asked, RecordOf(Run(w0).st, lbl).cutOff, t.reached, RecordOf(w.disk.file, lbl).cutOff)
      ensures TurnAdded(old(w).log, w.log, Turn(Run(w0).number, lbl, asked, RecordOf(Run(w0).st, lbl).cutOff, t.reached,
                                                RecordOf(w.disk.file, lbl).cutOff))
      ensures TurnWent(w.log, worlds, trace, from, Run(w0).number, lbl, order, t.reached, luck)
    {
      ghost var log, ws, steps := w.log, worlds, trace;
      TurnEnds(w0, w1, w, lbl, asked, t);
      TurnLogged(w, Run(w1), Cur(w1), t, asked);
      SaveTurn();
      TurnWentStill(log, w.log, ws, worlds, steps, trace, from, Run(w0).number, lbl, order, t.reached, luck);
    }

    // The run.

    /** The charges held back to the end of the run. */
    method SettleCharges(st: SnapState, charges: seq<Charge>, okPods: set<Pod>, baselineOk: bool)
      returns (st': SnapState)
      ensures st' == SettleAll(st, charges, okPods, baselineOk)
    {
      st' := st;
      assert charges[..0] == [];
      for i := 0 to |charges|
        invariant st' == SettleAll(st, charges[..i], okPods, baselineOk)
      {
        var ch := charges[i];
        assert charges[..i + 1][..i] == charges[..i];
        if baselineOk || exists p | p in okPods :: p != ch.pod {
          var rec := NotePushFailed(RecordOf(st', ch.lbl), ch.pod, ch.cls, ch.started, ch.end);
          st' := st'.(labels := st'.labels[ch.lbl := rec]);
        }
      }
      assert charges[..|charges|] == charges;
    }

    method LetGo()
      requires Valid() && Syncing(w) && !OnLabel(w)
      modifies this
      ensures Valid() && Onward() && w == EndRun(old(w)) && Settles(trace)
    {
      Take(Sync(Settle));
    }

    /** The baselines' push, if any is due. */
    method PushBaseline(baseline: Option<Outcome>)
      requires Valid() && Syncing(w) && !OnLabel(w) && Run(w).visited == {} && !Run(w).outage
      modifies this
      ensures Valid() && Onward() && Syncing(w) && !OnLabel(w) && Run(w).visited == {}
      ensures Run(w).allowed == Run(old(w)).allowed && Run(w).number == Run(old(w)).number
              && Run(w).st == Run(old(w)).st
      ensures w.start == old(w).start && w.now == old(w).now && Records(old(w).log, w.log)
      ensures Run(w).outage <==> baseline.Some? && Wide(baseline.value)
      ensures w.log.outages == old(w).log.outages + if Run(w).outage then {Run(w).number} else {}
      ensures baseline == Some(Went) ==> Passed(Run(w).number, None) in w.log.through
    {
      if baseline.Some? {
        Take(Sync(Baseline(baseline.value == Went, Wide(baseline.value))));
      }
    }

    /** A label of the plan. */
    method NextLabel(ghost from: nat, ghost w0: World, ghost done: seq<Asked>, a: Asked, allowed: set<Pod>)
      requires Valid() && from <= |trace| && Syncing(w0) && Run(w0).allowed == allowed
      requires PlanAt(w0, w, worlds, trace, from, done) && !Run(w).outage
      requires Distinct(a.local) && forall b | b in done :: b.lbl != a.lbl
      modifies this
      ensures Valid() && Onward() && PlanAt(w0, w, worlds, trace, from, done + [a])
    {
      ghost var w1, ws, steps := w, worlds, trace;
      if a.isDir {
        var pods := Filter(a.local, (set p | p in a.local) - allowed);
        NotYet(Run(w0).st, Run(w), done, a);
        var stop, reached := PushLabel(from, a.lbl, pods, a.forced, a.luck);
        if stop {
          LabelStops(w0, w1, w, ws, worlds, steps, trace, from, done, a, pods);
        } else {
          LabelWent(w0, w1, w, ws, worlds, steps, trace, from, done, a, pods, reached);
        }
      } else {
        LabelSkipped(w0, w, worlds, trace, from, done, a);
      }
    }

    /** The labels of the plan, until the archive itself fails. */
    method PushLabels(ghost from: nat, plan: seq<Asked>)
      requires Valid() && Syncing(w) && !OnLabel(w) && Plan(plan) && Run(w).visited == {} && from <= |trace|
      requires Run(w).outage ==> Run(w).number in w.log.outages
      modifies this
      ensures Valid() && Onward() && PlanAt(old(w), w, worlds, trace, from, plan)
    {
      ghost var w0 := w;
      var allowed := Run(w).allowed;
      var i := 0;
      PlanStarts(w, worlds, trace, from);
      assert plan[..0] == [];
      while i < |plan| && !Run(w).outage
        invariant 0 <= i <= |plan| && Valid() && Onward()
        invariant PlanAt(w0, w, worlds, trace, from, plan[..i])
      {
        assert plan[..i + 1] == plan[..i] + [plan[i]];
        NextLabel(from, w0, plan[..i], plan[i], allowed);
        i := i + 1;
      }
      PlanCut(w0, w, worlds, trace, from, plan, i);
    }

    /** The others may still step; then the charges are settled, the state saved and the lock let go. */
    method FinishRun()
      requires Valid() && Syncing(w) && !OnLabel(w)
      modifies this
      ensures Valid() && Onward() && w.run == None && w.snapLock == Free && SameRecord(old(w).log, w.log)
      ensures var r := Run(old(w));
              w.disk.file == if r.outage then r.st else SettleAll(r.st, r.charges, r.okPods, r.baselineOk)
      ensures Settles(trace)
    {
      Meanwhile();
      var st := Run(w).st;
      if !Run(w).outage {
        st := SettleCharges(st, Run(w).charges, Run(w).okPods, Run(w).baselineOk);
      }
      LetGo();
      assert w.disk.file == st;
    }

    /** The lock is had, and the state loaded: for this volume, with who is listed. */
    method BeginRun(dev: Volume, listed: set<Pod>, staff: set<Pod>)
      requires Valid() && w.snapLock == Free
      modifies this
      ensures Valid() && old(trace) <= trace && old(worlds) <= worlds
      ensures current == (old(current) && dev == old(w).arch.mounted)
      ensures Syncing(w) && !OnLabel(w) && Run(w).visited == {} && !Run(w).outage && SameRecord(old(w).log, w.log)
      ensures Run(w).number == old(w).log.runs && Run(w).allowed == MayPush(old(w), listed, staff)
      ensures forall l :: RecordOf(Run(w).st, l) == RecordOf(ForVolume(old(w).disk.file, dev), l)
    {
      BeginsWith(w, dev, listed, staff);
      Take(Sync(Begin(dev, listed, staff)));
    }

    /** A sync that has the lock. */
    method RunSync(dev: Volume, listed: set<Pod>, staff: set<Pod>, baseline: Option<Outcome>, plan: seq<Asked>)
      requires Valid() && Plan(plan) && w.snapLock == Free
      modifies this
      ensures Valid() && old(trace) <= trace && old(worlds) <= worlds
      ensures current == (old(current) && dev == old(w).arch.mounted)
      ensures w.run == None && w.snapLock == Free
      ensures SyncWent(old(w), w, worlds, trace, |old(trace)|, dev, listed, staff, baseline, plan)
    {
      ghost var w0, from := w, |trace|;
      BeginRun(dev, listed, staff);
      PushBaseline(baseline);
      ghost var w1 := w;
      PushLabels(from, plan);
      ghost var w2, ws, steps := w, worlds, trace;
      FinishRun();
      AllWent(w0, w1, w2, w, ws, worlds, steps, trace, from, dev, listed, staff, baseline, plan);
    }

    /** `archive sync` of the snap tier, from the lock to its release. The box comes from where it was
        to where it is by the protocol's steps; and the sync does all that is due. */
    method SyncSnap(dev: Volume, listed: set<Pod>, staff: set<Pod>, baseline: Option<Outcome>, plan: seq<Asked>)
      returns (ran: bool)
      requires Valid() && Plan(plan)
      modifies this
      ensures Valid() && Runs(first, trace, w) && old(trace) <= trace && old(worlds) <= worlds
      ensures current == (old(current) && (ran ==> dev == old(w).arch.mounted))
      ensures current ==> Kept(first, trace) && ForgetsRespected(first, trace)
      ensures ran <==> old(w).snapLock == Free
      ensures if ran then w.run == None && w.snapLock == Free else w == old(w)
      ensures ran ==> SyncWent(old(w), w, worlds, trace, |old(trace)|, dev, listed, staff, baseline, plan)
    {
      ran := w.snapLock == Free;
      if ran {
        RunSync(dev, listed, staff, baseline, plan);
      }
      LinkedRuns(worlds, trace);
      if current {
        HonoursKept(worlds, trace);
      }
    }
  }

  /** So after any number of syncs on a box that began with nothing, each having read the current
      `archive.json`, what the theorems say of all runs holds of it. */
  lemma SyncedBox(box: SnapSync, pods: set<Pod>, f: Path)
    requires box.Valid() && box.current && Init(box.first)
    ensures SealedFile(box.w, pods, f) ==> Settled(box.w, f)
    ensures box.w.disk.file.bornEmpty && box.w.disk.file.volume == Some(box.w.arch.mounted) ==>
            Covers(box.w, box.w.disk.file)
    ensures ForgetsHold(box.w)
  {
    LinkedRuns(box.worlds, box.trace);
    HonoursKept(box.worlds, box.trace);
    InitHolds(box.first);
    assert ForgetsHold(box.first);
    RunsKeep(box.first, box.trace, box.w);
    RunsForget(box.first, box.trace, box.w);
    assert Sound(box.w, box.w.disk.file);
    if SealedFile(box.w, pods, f) {
      SealedIsSettled(box.w, pods, f);
    }
  }
}

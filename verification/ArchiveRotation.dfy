/** No pod starves on a label's budget: where one run's order stops, the next one's starts. */
module ArchiveRotation {
  import opened Wrappers
  import opened ArchiveState
  import opened ArchiveRing
  import opened ArchiveWorld
  import opened ArchiveInvariant
  import opened ArchiveLocks

  // ---- the cursor, from turn to turn ---------------------------------------------------------------

  function Cursor(s: SnapState, lbl: Label): Option<Pod> {
    RecordOf(s, lbl).cutOff
  }

  /** The turn under way: of its order, the first `reached` have had theirs. */
  ghost predicate TurnInv(w: World) {
    OnLabel(w) ==>
      var c := Cur(w);
      var order := Rotated(c.asked, c.rec.cutOff);
      && Distinct(c.asked) && c.reached <= |order|
      && (c.notStarted == None ==> c.todo == order[c.reached..])
      && (c.notStarted.Some? ==> c.todo == [] && c.reached < |order| && c.notStarted == Some(order[c.reached]))
      && (c.cutMid.Some? ==> c.cutMid.value in order)
      && (c.push.Some? ==> c.push.value.pod in order)
  }

  /** The saved state, the run and its turn have the label's cursor at one place. */
  predicate CursorsAgree(w: World, lbl: Label) {
    && (w.run.Some? ==> Cursor(Run(w).st, lbl) == Cursor(w.disk.file, lbl))
    && (OnLabel(w) && Cur(w).lbl == lbl ==> Cur(w).rec.cutOff == Cursor(w.disk.file, lbl))
  }

  function TurnsOf(turns: seq<Turn>, lbl: Label): seq<Turn> {
    if turns == [] then []
    else
      var n := |turns| - 1;
      TurnsOf(turns[..n], lbl) + if turns[n].lbl == lbl then [turns[n]] else []
  }

  /** A turn of different pods, which left the cursor where it stopped. */
  ghost predicate Proper(t: Turn) {
    Distinct(t.asked) && Reaches(t.asked, t.found, t.reached, t.next)
  }

  ghost predicate Chained(turns: seq<Turn>, cursor: Option<Pod>) {
    && (forall i | 0 <= i < |turns| :: Proper(turns[i]))
    && (forall i | 0 < i < |turns| :: turns[i].found == turns[i - 1].next)
    && (turns != [] ==> turns[|turns| - 1].next == cursor)
  }

  /** The turns the label has had since the first `base` of all: each began where the last one stopped,
      and the next one will. */
  ghost predicate CursorInv(w: World, lbl: Label, base: nat) {
    && base <= |w.log.turns| && TurnInv(w) && CursorsAgree(w, lbl)
    && Chained(TurnsOf(w.log.turns[base..], lbl), Cursor(w.disk.file, lbl))
  }

  /** What a label's cursor does not survive: a forget that clears the pod it is at, another volume, and a
      power loss that may bring back a state with another one. A sync that dies, or that meets a failure
      of the archive's, leaves it. */
  predicate CursorKept(w: World, s: Step, lbl: Label) {
    && (s.Sync? && s.sync.Begin? ==> w.disk.file.volume == None || w.disk.file.volume == Some(s.sync.dev))
    && (s.Outside? && s.outside.MarkBorn? ==> w.disk.file.volume == Some(w.arch.mounted))
    && (s.Outside? && s.outside.PowerLoss? ==>
          forall st | st in w.disk.pending :: Cursor(st, lbl) == Cursor(w.disk.file, lbl))
    && (s.Operator? && s.op.ForgetClear? && s.op.ok && w.op.Forget? ==> NotAt(w, lbl, w.op.dirs))
    && (s.Operator? && s.op.UnforgetClear? && w.op.Unforget? ==> NotAt(w, lbl, w.op.deleted))
  }

  predicate NotAt(w: World, lbl: Label, dirs: set<Pod>) {
    var c := Cursor(w.disk.file, lbl);
    c.Some? ==> c.value !in dirs
  }

  // ---- every step keeps it ---------------------------------------------------------------------------

  /** A step that ends no turn and leaves the saved cursor. */
  lemma Stays(w: World, w': World, lbl: Label, base: nat)
    requires CursorInv(w, lbl, base) && w'.log.turns == w.log.turns && TurnInv(w') && CursorsAgree(w', lbl)
    requires Cursor(w'.disk.file, lbl) == Cursor(w.disk.file, lbl)
    ensures CursorInv(w', lbl, base)
  {}

  /** The turn goes on by the first pod of what is left of the order. */
  predicate OnByOne(c: LabelRun, c': LabelRun)
    requires c.todo != []
  {
    && c'.asked == c.asked && c'.rec.cutOff == c.rec.cutOff && c'.notStarted == c.notStarted && c'.cutMid == c.cutMid
    && c'.reached == c.reached + 1 && c'.todo == c.todo[1..] && (c'.push.Some? ==> c'.push.value.pod == c.todo[0])
  }

  lemma PodTurns(w: World, w': World)
    requires TurnInv(w) && OnLabel(w) && Cur(w).todo != [] && OnLabel(w') && OnByOne(Cur(w), Cur(w'))
    ensures TurnInv(w')
  {
    var c := Cur(w);
    var order := Rotated(c.asked, c.rec.cutOff);
    assert c.todo[0] == order[c.reached] && c.todo[1..] == order[c.reached + 1..];
  }

  lemma NoTimeTurns(w: World)
    requires TurnInv(w) && AtPod(w)
    ensures TurnInv(NoTime(w))
  {
    assert Cur(w).todo[0] == Rotated(Cur(w).asked, Cur(w).rec.cutOff)[Cur(w).reached];
  }

  lemma PushEndTurns(w: World, c': LabelRun)
    requires TurnInv(w) && Pushing(w)
    requires var c := Cur(w);
             && c' == c.(rec := c'.rec, push := c'.push, complete := c'.complete, linked := c'.linked,
                cutMid := c'.cutMid)
             && c'.rec.cutOff == c.rec.cutOff && (c'.push.Some? ==> c'.push.value.pod == c.push.value.pod)
             && c'.cutMid in {c.cutMid, Some(c.push.value.pod)}
    ensures forall w' | OnLabel(w') && Cur(w') == c' :: TurnInv(w')
  {}

  lemma LabelBegins(w: World, lbl: Label, pods: seq<Pod>, forced: bool)
    requires SyncEnabled(w, LabelBegin(lbl, pods, forced))
    ensures TurnInv(BeginLabel(w, lbl, pods, forced))
  {
    var c := Cur(BeginLabel(w, lbl, pods, forced));
    assert Rotated(c.asked, c.rec.cutOff)[0..] == Rotated(c.asked, c.rec.cutOff);
  }

  lemma {:induction false} SettleCursor(st: SnapState, chs: seq<Charge>, okPods: set<Pod>, baselineOk: bool, lbl: Label)
    ensures Cursor(SettleAll(st, chs, okPods, baselineOk), lbl) == Cursor(st, lbl)
    decreases |chs|
  {
    if chs != [] {
      SettleCursor(st, chs[..|chs| - 1], okPods, baselineOk, lbl);
    }
  }

  function TurnDone(run: nat, c: LabelRun): Turn {
    Turn(run, c.lbl, c.asked, c.rec.cutOff, c.reached, NextCursor(c))
  }

  lemma TurnReaches(w: World)
    requires TurnInv(w) && OnLabel(w) && Cur(w).todo == []
    ensures Proper(TurnDone(Run(w).number, Cur(w)))
  {
    var c := Cur(w);
    if c.notStarted == None {
      assert Rotated(c.asked, c.rec.cutOff)[c.reached..] == [] ==> c.reached == |Rotated(c.asked, c.rec.cutOff)|;
    }
  }

  lemma LinkedOn(turns: seq<Turn>, cursor: Option<Pod>, t: Turn)
    requires Chained(turns, cursor) && (turns != [] ==> t.found == cursor)
    requires Proper(t)
    ensures Chained(turns + [t], t.next)
  {
    var all := turns + [t];
    forall i | 0 <= i < |all| ensures Proper(all[i]) {
      if i < |turns| {
        assert all[i] == turns[i];
      }
    }
    forall i | 0 < i < |all| ensures all[i].found == all[i - 1].next {
      assert all[i - 1] == turns[i - 1];
    }
  }

  lemma TurnsOfMore(turns: seq<Turn>, t: Turn, lbl: Label)
    ensures TurnsOf(turns + [t], lbl) == TurnsOf(turns, lbl) + if t.lbl == lbl then [t] else []
  {
    assert (turns + [t])[..|turns|] == turns;
  }

  lemma EndedCursors(w: World, lbl: Label)
    requires OnLabel(w) && CursorsAgree(w, lbl)
    ensures CursorsAgree(EndLabel(w), lbl)
    ensures Cursor(EndLabel(w).disk.file, lbl)
            == if Cur(w).lbl == lbl then NextCursor(Cur(w)) else Cursor(w.disk.file, lbl)
  {}

  /** A label's turn ends: its cursor is saved, and any other's is as it was. */
  lemma CursorSaved(w: World, lbl: Label, base: nat)
    requires CursorInv(w, lbl, base) && OnLabel(w) && !Pushing(w) && Cur(w).todo == []
    ensures CursorInv(EndLabel(w), lbl, base)
  {
    var t, since := TurnDone(Run(w).number, Cur(w)), w.log.turns[base..];
    TurnReaches(w);
    EndedCursors(w, lbl);
    TurnsOfMore(since, t, lbl);
    assert EndLabel(w).log.turns[base..] == since + [t];
    if t.lbl == lbl {
      LinkedOn(TurnsOf(since, lbl), Cursor(w.disk.file, lbl), t);
    } else {
      assert TurnsOf(since, lbl) + [] == TurnsOf(since, lbl);
    }
  }

  lemma PodStepCursor(w: World, s: SyncStep, lbl: Label, base: nat)
    requires CursorInv(w, lbl, base) && SyncEnabled(w, s) && (s.PodLeftOut? || s.PodHeld? || s.PodStart?)
    ensures CursorInv(SyncApply(w, s), lbl, base)
  {
    PodTurns(w, SyncApply(w, s));
    Stays(w, SyncApply(w, s), lbl, base);
  }

  lemma PushStepCursor(w: World, s: SyncStep, lbl: Label, base: nat)
    requires CursorInv(w, lbl, base) && SyncEnabled(w, s) && (s.Write? || s.JobDone? || s.PodOk? || s.PodCut?)
    ensures CursorInv(SyncApply(w, s), lbl, base)
  {
    PushEndTurns(w, Cur(SyncApply(w, s)));
    Stays(w, SyncApply(w, s), lbl, base);
  }

  lemma FailCursor(w: World, cls: PushFailure, lbl: Label, base: nat)
    requires CursorInv(w, lbl, base) && Pushing(w)
    ensures CursorInv(EndNotOk(w, Some(cls), Cur(w).cutMid), lbl, base)
  {
    var w' := EndNotOk(w, Some(cls), Cur(w).cutMid);
    if !ArchiveWide(cls) {
      PushEndTurns(w, Cur(w'));
    }
    Stays(w, w', lbl, base);
  }

  lemma SyncCursor(w: World, s: SyncStep, lbl: Label, base: nat)
    requires CursorInv(w, lbl, base) && SyncEnabled(w, s) && CursorKept(w, Sync(s), lbl)
    ensures CursorInv(SyncApply(w, s), lbl, base)
  {
    match s
    case Begin(dev, listed, staff) => Stays(w, BeginSync(w, dev, listed, staff), lbl, base);
    case Baseline(ok, wide) => Stays(w, EndBaseline(w, ok, wide), lbl, base);
    case LabelBegin(l, pods, forced) =>
      LabelBegins(w, l, pods, forced);
      Stays(w, BeginLabel(w, l, pods, forced), lbl, base);
    case PodNoTime =>
      NoTimeTurns(w);
      Stays(w, NoTime(w), lbl, base);
    case PodFail(cls) => FailCursor(w, cls, lbl, base);
    case LabelDone => CursorSaved(w, lbl, base);
    case Settle =>
      SettleCursor(Run(w).st, Run(w).charges, Run(w).okPods, Run(w).baselineOk, lbl);
      Stays(w, EndRun(w), lbl, base);
    case Dies(stray) => Stays(w, EndDead(w, stray), lbl, base);
    case _ => PushOrPodCursor(w, s, lbl, base);
  }

  lemma PushOrPodCursor(w: World, s: SyncStep, lbl: Label, base: nat)
    requires CursorInv(w, lbl, base) && SyncEnabled(w, s)
    requires s.PodLeftOut? || s.PodHeld? || s.PodStart? || s.Write? || s.JobDone? || s.PodOk? || s.PodCut?
    ensures CursorInv(SyncApply(w, s), lbl, base)
  {
    if s.PodLeftOut? || s.PodHeld? || s.PodStart? {
      PodStepCursor(w, s, lbl, base);
    } else {
      PushStepCursor(w, s, lbl, base);
    }
  }

  lemma OpCursor(w: World, s: OpStep, lbl: Label, base: nat)
    requires CursorInv(w, lbl, base) && Locks(w) && OpEnabled(w, s) && CursorKept(w, Operator(s), lbl)
    ensures CursorInv(OpApply(w, s), lbl, base)
  {
    Stays(w, OpApply(w, s), lbl, base);
  }

  lemma OutsideCursor(w: World, s: OutsideStep, lbl: Label, base: nat)
    requires CursorInv(w, lbl, base) && OutsideEnabled(w, s) && CursorKept(w, Outside(s), lbl)
    ensures CursorInv(OutsideApply(w, s), lbl, base)
  {
    Stays(w, OutsideApply(w, s), lbl, base);
  }

  lemma StrayCursor(w: World, s: StrayStep, lbl: Label, base: nat)
    requires CursorInv(w, lbl, base) && StrayEnabled(w, s)
    ensures CursorInv(StrayApply(w, s), lbl, base)
  {
    Stays(w, StrayApply(w, s), lbl, base);
  }

  lemma StepCursor(w: World, s: Step, lbl: Label, base: nat)
    requires CursorInv(w, lbl, base) && Locks(w) && Enabled(w, s) && CursorKept(w, s, lbl)
    ensures CursorInv(Apply(w, s), lbl, base)
  {
    match s
    case Sync(a) => SyncCursor(w, a, lbl, base);
    case Operator(a) => OpCursor(w, a, lbl, base);
    case Outside(a) => OutsideCursor(w, a, lbl, base);
    case Astray(a) => StrayCursor(w, a, lbl, base);
  }

  // ---- what a pod that is reached has had -------------------------------------------------------------

  /** Its push was started, or it was left out, or held back for its pull. */
  predicate IsGiven(had: set<Had>, run: nat, lbl: Label, pod: Pod) {
    Had(run, lbl, pod, Pushed) in had || Had(run, lbl, pod, LeftOut) in had || Had(run, lbl, pod, Held) in had
  }

  predicate AllGiven(had: set<Had>, run: nat, lbl: Label, pods: seq<Pod>) {
    forall i | 0 <= i < |pods| :: IsGiven(had, run, lbl, pods[i])
  }

  /** All that a turn has reached. */
  function ReachedOf(asked: seq<Pod>, found: Option<Pod>, reached: nat): seq<Pod> {
    var order := Rotated(asked, found);
    order[..Min(reached, |order|)]
  }

  ghost predicate GivenInv(w: World, base: nat) {
    && TurnInv(w) && base <= |w.log.turns|
    && (OnLabel(w) ==>
          var c := Cur(w);
          AllGiven(w.log.had, Run(w).number, c.lbl, ReachedOf(c.asked, c.rec.cutOff, c.reached)))
    && forall i | base <= i < |w.log.turns| ::
         var t := w.log.turns[i];
         AllGiven(w.log.had, t.run, t.lbl, ReachedOf(t.asked, t.found, t.reached))
  }

  /** A step that reaches no pod and ends no turn. */
  lemma NoneGiven(w: World, w': World, base: nat)
    requires GivenInv(w, base) && TurnInv(w') && w.log.had <= w'.log.had && w'.log.turns == w.log.turns
    requires OnLabel(w') ==> && OnLabel(w) && Run(w').number == Run(w).number && Cur(w').lbl == Cur(w).lbl
                             && Cur(w').asked == Cur(w).asked && Cur(w').rec.cutOff == Cur(w).rec.cutOff
                             && Cur(w').reached == Cur(w).reached
    ensures GivenInv(w', base)
  {}

  /** A step that gives the first pod of what is left of the order its turn. */
  lemma OneGiven(w: World, w': World, base: nat, what: Given)
    requires GivenInv(w, base) && AtPod(w) && OnLabel(w') && OnByOne(Cur(w), Cur(w'))
    requires Run(w').number == Run(w).number && Cur(w').lbl == Cur(w).lbl
    requires w'.log.turns == w.log.turns && w'.log.had == w.log.had + {HadNow(w, what)}
    ensures GivenInv(w', base)
  {
    PodTurns(w, w');
    var c := Cur(w);
    var order := Rotated(c.asked, c.rec.cutOff);
    assert c.todo[0] == order[c.reached];
    assert ReachedOf(c.asked, c.rec.cutOff, c.reached + 1) == ReachedOf(c.asked, c.rec.cutOff, c.reached) + [c.todo[0]];
  }

  lemma TurnGiven(w: World, base: nat)
    requires GivenInv(w, base) && OnLabel(w) && !Pushing(w) && Cur(w).todo == []
    ensures GivenInv(EndLabel(w), base)
  {}

  lemma LabelGiven(w: World, lbl: Label, pods: seq<Pod>, forced: bool, base: nat)
    requires GivenInv(w, base) && SyncEnabled(w, LabelBegin(lbl, pods, forced))
    ensures GivenInv(BeginLabel(w, lbl, pods, forced), base)
  {
    LabelBegins(w, lbl, pods, forced);
  }

  lemma PushStepGiven(w: World, s: SyncStep, base: nat)
    requires GivenInv(w, base) && SyncEnabled(w, s)
    requires s.Write? || s.JobDone? || s.PodOk? || s.PodCut? || s.PodFail?
    ensures GivenInv(SyncApply(w, s), base)
  {
    var w' := SyncApply(w, s);
    if OnLabel(w') {
      PushEndTurns(w, Cur(w'));
    }
    NoneGiven(w, w', base);
  }

  lemma PodStepGiven(w: World, s: SyncStep, base: nat)
    requires GivenInv(w, base) && SyncEnabled(w, s) && (s.PodLeftOut? || s.PodHeld? || s.PodStart? || s.PodNoTime?)
    ensures GivenInv(SyncApply(w, s), base)
  {
    match s
    case PodLeftOut => OneGiven(w, LeaveOut(w), base, LeftOut);
    case PodHeld(chain, hasLinks) => OneGiven(w, Hold(w), base, Held);
    case PodStart(chain, hasLinks) => OneGiven(w, StartPush(w, chain, hasLinks), base, Pushed);
    case PodNoTime =>
      NoTimeTurns(w);
      NoneGiven(w, NoTime(w), base);
  }

  lemma RunStepGiven(w: World, s: SyncStep, base: nat)
    requires GivenInv(w, base) && SyncEnabled(w, s)
    requires s.Begin? || s.Baseline? || s.LabelBegin? || s.LabelDone? || s.Settle? || s.Dies?
    ensures GivenInv(SyncApply(w, s), base)
  {
    match s
    case Begin(dev, listed, staff) => NoneGiven(w, BeginSync(w, dev, listed, staff), base);
    case Baseline(ok, wide) => NoneGiven(w, EndBaseline(w, ok, wide), base);
    case LabelBegin(lbl, pods, forced) => LabelGiven(w, lbl, pods, forced, base);
    case LabelDone => TurnGiven(w, base);
    case Settle => NoneGiven(w, EndRun(w), base);
    case Dies(stray) => NoneGiven(w, EndDead(w, stray), base);
  }

  lemma SyncGiven(w: World, s: SyncStep, base: nat)
    requires GivenInv(w, base) && SyncEnabled(w, s)
    ensures GivenInv(SyncApply(w, s), base)
  {
    if Turns(s) {
      RunStepGiven(w, s, base);
    } else if s.PodLeftOut? || s.PodHeld? || s.PodStart? || s.PodNoTime? {
      PodStepGiven(w, s, base);
    } else {
      PushStepGiven(w, s, base);
    }
  }

  lemma OpGiven(w: World, s: OpStep, base: nat)
    requires GivenInv(w, base) && OpEnabled(w, s)
    ensures GivenInv(OpApply(w, s), base)
  {
    NoneGiven(w, OpApply(w, s), base);
  }

  lemma OutsideGiven(w: World, s: OutsideStep, base: nat)
    requires GivenInv(w, base) && OutsideEnabled(w, s)
    ensures GivenInv(OutsideApply(w, s), base)
  {
    NoneGiven(w, OutsideApply(w, s), base);
  }

  lemma StrayGiven(w: World, s: StrayStep, base: nat)
    requires GivenInv(w, base) && StrayEnabled(w, s)
    ensures GivenInv(StrayApply(w, s), base)
  {
    NoneGiven(w, StrayApply(w, s), base);
  }

  lemma StepGiven(w: World, s: Step, base: nat)
    requires GivenInv(w, base) && Enabled(w, s)
    ensures GivenInv(Apply(w, s), base)
  {
    match s
    case Sync(a) => SyncGiven(w, a, base);
    case Operator(a) => OpGiven(w, a, base);
    case Outside(a) => OutsideGiven(w, a, base);
    case Astray(a) => StrayGiven(w, a, base);
  }

  lemma {:induction false} RunsGive(w: World, steps: seq<Step>, w': World, base: nat)
    requires GivenInv(w, base) && Runs(w, steps, w')
    ensures GivenInv(w', base)
    decreases |steps|
  {
    if steps != [] {
      StepGiven(w, steps[0], base);
      RunsGive(Apply(w, steps[0]), steps[1..], w', base);
    }
  }

  // ---- over every run ----------------------------------------------------------------------------------

  ghost predicate CursorsKept(w: World, steps: seq<Step>, lbl: Label)
    decreases |steps|
  {
    steps == [] || (Enabled(w, steps[0]) && CursorKept(w, steps[0], lbl)
        && CursorsKept(Apply(w, steps[0]), steps[1..], lbl))
  }

  lemma {:induction false} RunsCursor(w: World, steps: seq<Step>, w': World, lbl: Label, base: nat)
    requires CursorInv(w, lbl, base) && Locks(w) && Runs(w, steps, w') && CursorsKept(w, steps, lbl)
    ensures CursorInv(w', lbl, base)
    decreases |steps|
  {
    if steps != [] {
      StepCursor(w, steps[0], lbl, base);
      StepKeepsLocks(w, steps[0]);
      RunsCursor(Apply(w, steps[0]), steps[1..], w', lbl, base);
    }
  }

  /** The turns a label has had from one world to another. */
  function TurnsSince(w: World, w': World, lbl: Label): seq<Turn>
    requires |w.log.turns| <= |w'.log.turns|
  {
    TurnsOf(w'.log.turns[|w.log.turns|..], lbl)
  }

  lemma {:induction false} TurnsOfAre(turns: seq<Turn>, lbl: Label, t: Turn)
    requires t in TurnsOf(turns, lbl)
    ensures t in turns && t.lbl == lbl
  {
    var n := |turns| - 1;
    assert turns == turns[..n] + [turns[n]];
    if t in TurnsOf(turns[..n], lbl) {
      TurnsOfAre(turns[..n], lbl, t);
    }
  }

  lemma GetsIsGiven(w: World, base: nat, t: Turn, p: Pod)
    requires GivenInv(w, base) && t in w.log.turns[base..] && Gets(t.asked, t, p)
    ensures IsGiven(w.log.had, t.run, t.lbl, p)
  {
    var j :| 0 <= j < |w.log.turns[base..]| && w.log.turns[base..][j] == t;
    assert w.log.turns[base + j] == t;
    var reached := ReachedOf(t.asked, t.found, t.reached);
    var i :| 0 <= i < |reached| && reached[i] == p;
  }

  /** No pod starves: over every run of the protocol in which the label's cursor survives, in any
      `|pods|` turns of it that come to their end with these pods, each having the time to get to its
      first, every pod is reached: it is pushed in one, or left out, or held back for its pull. */
  lemma NoPodStarves(w: World, steps: seq<Step>, w': World, lbl: Label, pods: seq<Pod>, p: Pod)
    requires w.run == None && Locks(w) && Runs(w, steps, w') && CursorsKept(w, steps, lbl)
    requires |w.log.turns| <= |w'.log.turns| && |TurnsSince(w, w', lbl)| >= |pods|
    requires forall t | t in TurnsSince(w, w', lbl) :: t.asked == pods && t.reached >= 1
    requires p in pods
    ensures exists t ::
              && t in TurnsSince(w, w', lbl)[..|pods|] && Gets(pods, t, p) && IsGiven(w'.log.had, t.run, lbl, p)
  {
    assert w.log.turns[|w.log.turns|..] == [];
    RunsCursor(w, steps, w', lbl, |w.log.turns|);
    RunsGive(w, steps, w', |w.log.turns|);
    var turns := TurnsSince(w, w', lbl);
    var first := turns[..|pods|];
    forall i | 0 <= i < |first| ensures first[i] in turns {
      assert first[i] == turns[i] && Proper(turns[i]);
    }
    assert first[0] in turns;
    RingIsReached(pods, first, p);
    var i :| 0 <= i < |first| && Gets(pods, first[i], p);
    assert first[i] in first;
    TurnsOfAre(w'.log.turns[|w.log.turns|..], lbl, first[i]);
    GetsIsGiven(w', |w.log.turns|, first[i], p);
  }
}

/** "Sealed partial" is never an outage's doing: who is given up on a label, and on what evidence. */
module ArchivePartial {
  import opened Wrappers
  import opened ArchiveState
  import opened ArchiveWorld
  import opened ArchiveInvariant
  import opened ArchiveLocks

  type Hist = map<(Label, Pod), seq<Evidence>>

  type Mark = map<(Label, Pod), nat>

  // ---- what the charges stand on ---------------------------------------------------------------

  ghost predicate GotThrough(through: set<Passed>, run: nat, p: Pod) {
    exists l :: Passed(run, Some((l, p))) in through
  }

  lemma GotThroughStill(through: set<Passed>, more: set<Passed>, run: nat, p: Pod)
    requires GotThrough(through, run, p) && through <= more
    ensures GotThrough(more, run, p)
  {
    var l :| Passed(run, Some((l, p))) in through;
    assert Passed(run, Some((l, p))) in more;
  }

  /** One charge's evidence: in a run the archive did not fail in, a push of the pod failed on the label,
      or could not be made, in its own way; it could have sealed the label; and the baseline, or
      another pod, got through. */
  ghost predicate Stands(w: World, lbl: Label, p: Pod, e: Evidence) {
    && e.run < w.log.runs && e.run !in w.log.outages
    && Failure(e.run, lbl, p, e.cls, e.started) in w.log.failed
    && Chargeable(e.cls, e.started, LabelEnd(lbl, w.start)) && !ArchiveWide(e.cls)
    && (e.baselineOk ==> Passed(e.run, None) in w.log.through)
    && (forall q | q in e.okPods :: GotThrough(w.log.through, e.run, q))
    && (e.baselineOk || exists q | q in e.okPods :: q != p)
  }

  /** The failure came after every run in which the pod itself got through on the label. */
  ghost predicate Since(w: World, lbl: Label, p: Pod, e: Evidence) {
    forall t | t in w.log.through && t.who == Some((lbl, p)) :: t.run < e.run
  }

  ghost predicate Increasing(es: seq<Evidence>) {
    forall i, j | 0 <= i < j < |es| :: es[i].run < es[j].run
  }

  ghost predicate AllStand(w: World, h: Hist) {
    forall k | k in h :: Increasing(h[k]) && forall e | e in h[k] :: Stands(w, k.0, k.1, e)
  }

  predicate ChargedOnce(chs: seq<Charge>) {
    forall i, j | 0 <= i < j < |chs| :: (chs[i].lbl, chs[i].pod) != (chs[j].lbl, chs[j].pod)
  }

  predicate Done(c: LabelRun, p: Pod) {
    p !in c.todo && (c.push.Some? ==> p != c.push.value.pod)
  }

  /** What the run that is under way has charged: no pod of a label twice, none that got through. */
  ghost predicate ChargesKnown(w: World)
    requires Syncing(w)
  {
    var r := Run(w);
    && ChargedOnce(r.charges) && (forall ch | ch in r.charges :: ch.end == LabelEnd(ch.lbl, w.start))
    && (forall ch | ch in r.charges :: Failure(r.number, ch.lbl, ch.pod, ch.cls, ch.started) in w.log.failed)
    && (forall ch | ch in r.charges :: Passed(r.number, Some((ch.lbl, ch.pod))) !in w.log.through)
    && (!r.outage ==> forall ch | ch in r.charges ::
          ch.lbl in r.visited || (OnLabel(w) && ch.lbl == Cur(w).lbl && Done(Cur(w), ch.pod)))
    && (forall t | t in w.log.through && t.run == r.number && t.who.Some? ::
          r.outage || t.who.value.0 in r.visited
          || (OnLabel(w) && t.who.value.0 == Cur(w).lbl && Done(Cur(w), t.who.value.1)))
    && (OnLabel(w) ==> !r.outage && Cur(w).lbl !in r.visited && Distinct(Cur(w).todo)
                       && (Pushing(w) ==> Cur(w).push.value.pod !in Cur(w).todo))
  }

  /** What it knows of who got through is so. */
  ghost predicate RunKnows(w: World) {
    w.run.Some? ==>
      var r := Run(w);
      && r.number < w.log.runs
      && (forall t | t in w.log.through :: t.run <= r.number)
      && (forall k, e | k in w.log.hist && e in w.log.hist[k] :: e.run < r.number)
      && (r.number in w.log.outages ==> r.outage)
      && (r.baselineOk ==> Passed(r.number, None) in w.log.through)
      && (forall q | q in r.okPods :: GotThrough(w.log.through, r.number, q))
      && ChargesKnown(w)
  }

  ghost predicate LogInv(w: World) {
    && AllStand(w, w.log.hist) && RunKnows(w)
    && (forall n | n in w.log.outages :: n < w.log.runs)
    && (forall t | t in w.log.through :: t.run < w.log.runs)
  }

  // ---- how many there are ------------------------------------------------------------------------

  function MarkOf(mark: Mark, k: (Label, Pod)): nat {
    if k in mark then mark[k] else 0
  }

  /** The count of a pod's failures is backed by a charge each, from the mark on. */
  ghost predicate Backed(h: Hist, mark: Mark, lbl: Label, rec: LabelRecord) {
    forall p: Pod ::
      && FailsOf(rec, p) + MarkOf(mark, (lbl, p)) <= |HistOf(h, (lbl, p))|
      && (p in rec.givenUp ==> FailsOf(rec, p) >= GIVE_UP_AFTER)
  }

  ghost predicate AllBacked(h: Hist, mark: Mark, st: SnapState) {
    forall l | l in st.labels :: Backed(h, mark, l, st.labels[l])
  }

  ghost predicate MarksWithin(h: Hist, mark: Mark) {
    forall k :: MarkOf(mark, k) <= |HistOf(h, k)|
  }

  /** So it is in every state a power loss may bring back, but for the `lag`, and in what the run holds. */
  ghost predicate Counted(w: World, mark: Mark, lag: set<SnapState>) {
    && MarksWithin(w.log.hist, mark)
    && w.disk.file in w.disk.pending && w.disk.file !in lag
    && (forall s | s in w.disk.pending && s !in lag :: AllBacked(w.log.hist, mark, s))
    && (w.run.Some? ==> AllBacked(w.log.hist, mark, Run(w).st))
    && (OnLabel(w) ==> Backed(w.log.hist, mark, Cur(w).lbl, Cur(w).rec))
  }

  /** All charges count, whatever got through meanwhile. */
  ghost predicate CountInv(w: World) {
    LogInv(w) && Counted(w, map[], {})
  }

  /** The charges from the mark on came after the pod last got through; and they alone back the counts,
      but in the versions of the state from before the last push that did. */
  ghost predicate SinceInv(w: World) {
    && Counted(w, w.log.mark, w.log.lag)
    && (forall k, i | k in w.log.hist && MarkOf(w.log.mark, k) <= i < |w.log.hist[k]| ::
       Since(w, k.0, k.1, w.log.hist[k][i]))
  }

  /** The power brings back no version from before the last push that got through. */
  predicate SuccessKept(w: World, s: Step) {
    s.Outside? && s.outside.PowerLoss? ==> s.outside.st !in w.log.lag
  }

  // ---- one record more -----------------------------------------------------------------------------

  lemma BackedSame(h: Hist, mark: Mark, lbl: Label, rec: LabelRecord, rec': LabelRecord)
    requires Backed(h, mark, lbl, rec) && rec'.fails == rec.fails && rec'.givenUp == rec.givenUp
    ensures Backed(h, mark, lbl, rec')
  {}

  lemma BackedPut(h: Hist, mark: Mark, st: SnapState, lbl: Label, rec: LabelRecord)
    requires AllBacked(h, mark, st) && Backed(h, mark, lbl, rec)
    ensures AllBacked(h, mark, PutRec(st, lbl, rec))
  {}

  lemma BackedEmpty(h: Hist, mark: Mark, lbl: Label)
    requires MarksWithin(h, mark)
    ensures Backed(h, mark, lbl, EMPTY_RECORD)
  {}

  /** The counts in what is saved, and held, from one world to the next. */
  lemma CountedStep(w: World, w': World, mark: Mark, lag: set<SnapState>, lag': set<SnapState>)
    requires Counted(w, mark, lag) && w'.log.hist == w.log.hist
    requires w'.disk.file in w'.disk.pending && w'.disk.file !in lag'
    requires forall s | s in w'.disk.pending && s !in lag' ::
             (s in w.disk.pending && s !in lag) || AllBacked(w.log.hist, mark, s)
    requires w'.run.Some? ==> AllBacked(w.log.hist, mark, Run(w').st)
    requires OnLabel(w') ==> Backed(w.log.hist, mark, Cur(w').lbl, Cur(w').rec)
    ensures Counted(w', mark, lag')
  {}

  /** A step that saves the run's state, or none. */
  lemma CountedSaved(w: World, w': World, mark: Mark, lag: set<SnapState>, st: SnapState)
    requires Counted(w, mark, lag) && w'.log.hist == w.log.hist && AllBacked(w.log.hist, mark, st)
    requires w'.disk.file == st && (w'.disk.pending == {st} || w'.disk.pending == w.disk.pending + {st})
    requires w'.run.Some? ==> Run(w').st == st
    requires OnLabel(w') ==> Backed(w.log.hist, mark, Cur(w').lbl, Cur(w').rec)
    ensures Counted(w', mark, lag - {st}) && (w'.disk.pending == {st} ==> Counted(w', mark, {}))
  {
    CountedStep(w, w', mark, lag, lag - {st});
  }

  // ---- the counts, step by step -----------------------------------------------------------------------

  /** What a step makes of the counts, with all versions of the state, or all but the lag. */
  ghost predicate Counts(w: World, w': World, mark: Mark, lag: set<SnapState>) {
    (lag == {} ==> Counted(w', mark, {})) && (lag == w.log.lag ==> Counted(w', mark, w'.log.lag))
  }

  lemma MovesCount(w: World, w': World, mark: Mark, lag: set<SnapState>)
    requires Counted(w, mark, lag) && w'.log.hist == w.log.hist && w'.log.lag == w.log.lag
    requires w'.disk.file == w.disk.file && w'.disk.pending == w.disk.pending
    requires w'.run.Some? ==> w.run.Some? && Run(w').st == Run(w).st
    requires OnLabel(w') ==> OnLabel(w) && Cur(w').lbl == Cur(w).lbl
                             && Cur(w').rec.fails == Cur(w).rec.fails && Cur(w').rec.givenUp == Cur(w).rec.givenUp
    ensures Counts(w, w', mark, lag)
  {
    if OnLabel(w') {
      BackedSame(w.log.hist, mark, Cur(w).lbl, Cur(w).rec, Cur(w').rec);
    }
  }

  lemma SavesCount(w: World, w': World, mark: Mark, lag: set<SnapState>, st: SnapState)
    requires Counted(w, mark, lag) && w'.log.hist == w.log.hist && AllBacked(w.log.hist, mark, st)
    requires w'.disk.file == st && (w'.run.Some? ==> Run(w').st == st)
    requires (w'.disk.pending == {st} && w'.log.lag == {})
             || (w'.disk.pending == w.disk.pending + {st} && w'.log.lag == w.log.lag - {st})
    requires OnLabel(w') ==> Backed(w.log.hist, mark, Cur(w').lbl, Cur(w').rec)
    ensures Counts(w, w', mark, lag)
  {
    CountedSaved(w, w', mark, lag, st);
    assert lag == {} ==> lag - {st} == {};
  }

  lemma StartCounts(w: World, mark: Mark, lag: set<SnapState>, chain: bool, hasLinks: bool)
    requires Counted(w, mark, lag) && AtPod(w)
    ensures Counts(w, StartPush(w, chain, hasLinks), mark, lag)
  {
    var c, r := Cur(w), Run(w);
    var w' := StartPush(w, chain, hasLinks);
    BackedSame(w.log.hist, mark, c.lbl, c.rec, Cur(w').rec);
    BackedPut(w.log.hist, mark, r.st, c.lbl, Cur(w').rec);
    SavesCount(w, w', mark, lag, Run(w').st);
  }

  lemma NotOkCounts(w: World, mark: Mark, lag: set<SnapState>, failure: Option<PushFailure>, cutMid: Option<Pod>)
    requires Counted(w, mark, lag) && Pushing(w)
    ensures Counts(w, EndNotOk(w, failure, cutMid), mark, lag)
  {
    var c, r := Cur(w), Run(w);
    var w' := EndNotOk(w, failure, cutMid);
    var rec := NotePushNotOk(c.rec, c.push.value.pod);
    BackedSame(w.log.hist, mark, c.lbl, c.rec, rec);
    BackedPut(w.log.hist, mark, r.st, c.lbl, rec);
    SavesCount(w, w', mark, lag, Run(w').st);
  }

  lemma LabelDoneCounts(w: World, mark: Mark, lag: set<SnapState>)
    requires Counted(w, mark, lag) && OnLabel(w)
    ensures Counts(w, EndLabel(w), mark, lag)
  {
    var c, r := Cur(w), Run(w);
    var w' := EndLabel(w);
    var rec := Run(w').st.labels[c.lbl];
    BackedSame(w.log.hist, mark, c.lbl, c.rec, rec);
    BackedPut(w.log.hist, mark, r.st, c.lbl, rec);
    SavesCount(w, w', mark, lag, Run(w').st);
  }

  lemma BaselineCounts(w: World, mark: Mark, lag: set<SnapState>, ok: bool, wide: bool)
    requires Counted(w, mark, lag) && Syncing(w) && !OnLabel(w)
    ensures Counts(w, EndBaseline(w, ok, wide), mark, lag)
  {
    SavesCount(w, EndBaseline(w, ok, wide), mark, lag, Run(w).st);
  }

  lemma BeginCounts(w: World, mark: Mark, lag: set<SnapState>, dev: Volume, listed: set<Pod>, staff: set<Pod>)
    requires Counted(w, mark, lag)
    ensures Counts(w, BeginSync(w, dev, listed, staff), mark, lag)
  {
    var w' := BeginSync(w, dev, listed, staff);
    assert AllBacked(w.log.hist, mark, w.disk.file);
    assert AllBacked(w.log.hist, mark, Run(w').st);
  }

  lemma LabelBeginCounts(w: World, mark: Mark, lag: set<SnapState>, lbl: Label, pods: seq<Pod>, forced: bool)
    requires Counted(w, mark, lag) && Syncing(w)
    ensures Counts(w, BeginLabel(w, lbl, pods, forced), mark, lag)
  {
    var rec := RecordOf(Run(w).st, lbl);
    BackedEmpty(w.log.hist, mark, lbl);
    BackedSame(w.log.hist, mark, lbl, rec, rec.(lastTried := w.now));
  }

  lemma ClearCounts(w: World, mark: Mark, lag: set<SnapState>, dirs: set<Pod>, op: Op)
    requires Counted(w, mark, lag) && w.run == None
    ensures Counts(w, ClearPushes(w, dirs).(op := op), mark, lag)
  {
    var after := ForgetPushes(w.disk.file, dirs);
    assert AllBacked(w.log.hist, mark, w.disk.file);
    forall l | l in after.labels ensures Backed(w.log.hist, mark, l, after.labels[l]) {
      assert Backed(w.log.hist, mark, l, w.disk.file.labels[l]);
    }
    SavesCount(w, ClearPushes(w, dirs).(op := op), mark, lag, after);
  }

  /** The pod got through: its failures no longer count, and count again from none. */
  lemma OkCounts(w: World, mark: Mark, lag: set<SnapState>)
    requires Counted(w, mark, lag) && Pushing(w)
    ensures var w', k := EndOk(w), (Cur(w).lbl, Cur(w).push.value.pod);
            && (lag == {} ==> Counted(w', mark, {}))
            && Counted(w', mark[k := |HistOf(w.log.hist, k)|], w'.log.lag)
  {
    var c, r := Cur(w), Run(w);
    var w', k := EndOk(w), (c.lbl, c.push.value.pod);
    var rec := Cur(w').rec;
    assert Backed(w.log.hist, mark, c.lbl, rec);
    BackedPut(w.log.hist, mark, r.st, c.lbl, rec);
    CountedSaved(w, w', mark, lag, Run(w').st);
    assert lag == {} ==> lag - {Run(w').st} == {};
    var mark' := mark[k := |HistOf(w.log.hist, k)|];
    OkBacked(w.log.hist, mark, k, c.lbl, rec, r.st);
    assert forall s | s in w'.disk.pending && s !in w'.log.lag :: s == Run(w').st;
  }

  lemma OkBacked(h: Hist, mark: Mark, k: (Label, Pod), lbl: Label, rec: LabelRecord, st: SnapState)
    requires MarksWithin(h, mark) && AllBacked(h, mark, st) && Backed(h, mark, lbl, rec) && k.0 == lbl
    requires FailsOf(rec, k.1) == 0
    ensures var mark' := mark[k := |HistOf(h, k)|];
            MarksWithin(h, mark') && Backed(h, mark', lbl, rec) && AllBacked(h, mark', PutRec(st, lbl, rec))
  {
    var mark' := mark[k := |HistOf(h, k)|];
    forall l | l in st.labels && l != lbl ensures Backed(h, mark', l, st.labels[l]) {
      assert Backed(h, mark, l, st.labels[l]);
    }
  }

  // ---- charging at the end of a run ---------------------------------------------------------------------

  predicate ChargesKey(chs: seq<Charge>, k: (Label, Pod)) {
    exists i | 0 <= i < |chs| :: (chs[i].lbl, chs[i].pod) == k
  }

  function Entered(h: Hist, k: (Label, Pod), e: Evidence): Hist {
    h[k := HistOf(h, k) + [e]]
  }

  /** One charge that is made, entered with its evidence. */
  lemma ChargeStands(w: World, h: Hist, ch: Charge)
    requires LogInv(w) && Syncing(w) && !Run(w).outage && ch in Run(w).charges
    requires OtherOk(ch, Run(w).okPods, Run(w).baselineOk) && Chargeable(ch.cls, ch.started, ch.end)
    requires AllStand(w, h) && HistOf(h, (ch.lbl, ch.pod)) == HistOf(w.log.hist, (ch.lbl, ch.pod))
    ensures AllStand(w, Entered(h, (ch.lbl, ch.pod), EvidenceOf(Run(w), ch)))
  {
    var r, k := Run(w), (ch.lbl, ch.pod);
    var e := EvidenceOf(r, ch);
    assert Stands(w, ch.lbl, ch.pod, e);
    assert forall x | x in HistOf(w.log.hist, k) :: x.run < r.number && Stands(w, k.0, k.1, x);
  }

  lemma KeysGrow(chs: seq<Charge>)
    requires chs != []
    ensures var n := |chs| - 1;
            ChargesKey(chs, (chs[n].lbl, chs[n].pod)) && forall q :: ChargesKey(chs[..n], q) ==> ChargesKey(chs, q)
  {
    var n := |chs| - 1;
    forall q | ChargesKey(chs[..n], q) ensures ChargesKey(chs, q) {
      var i :| 0 <= i < n && (chs[..n][i].lbl, chs[..n][i].pod) == q;
      assert (chs[i].lbl, chs[i].pod) == q;
    }
  }

  /** What was entered for a key: nothing, or the evidence of this run's one charge. */
  predicate OneMore(h: Hist, h': Hist, k: (Label, Pod), r: SnapRun) {
    HistOf(h', k) == HistOf(h, k)
    || exists ch | ch in r.charges && (ch.lbl, ch.pod) == k :: HistOf(h', k) == HistOf(h, k) + [EvidenceOf(r, ch)]
  }

  /** The run's charges, entered with their evidence, each stand on it. */
  lemma {:induction false} SettleStands(w: World, chs: seq<Charge>)
    requires LogInv(w) && Syncing(w) && !Run(w).outage && ChargedOnce(chs)
    requires forall ch | ch in chs :: ch in Run(w).charges
    ensures var r := Run(w);
            var h := HistAfter(w.log.hist, chs, r);
            && AllStand(w, h)
            && (forall k :: ChargesKey(chs, k) || HistOf(h, k) == HistOf(w.log.hist, k))
            && (forall k :: OneMore(w.log.hist, h, k, r))
    decreases |chs|
  {
    if chs != [] {
      var r, n := Run(w), |chs| - 1;
      var ch := chs[n];
      assert ch in chs;
      SettleStands(w, chs[..n]);
      var h := HistAfter(w.log.hist, chs[..n], r);
      var k0 := (ch.lbl, ch.pod);
      if OtherOk(ch, r.okPods, r.baselineOk) && Chargeable(ch.cls, ch.started, ch.end) {
        assert !ChargesKey(chs[..n], k0);
        ChargeStands(w, h, ch);
        assert HistAfter(w.log.hist, chs, r) == Entered(h, k0, EvidenceOf(r, ch));
        forall k ensures OneMore(w.log.hist, Entered(h, k0, EvidenceOf(r, ch)), k, r) {
          assert OneMore(w.log.hist, h, k, r);
        }
      }
      KeysGrow(chs);
    }
  }

  lemma ChargeBacked(h: Hist, mark: Mark, st: SnapState, ch: Charge, okPods: set<Pod>, baselineOk: bool, e: Evidence)
    requires AllBacked(h, mark, st) && MarksWithin(h, mark) && OtherOk(ch, okPods, baselineOk)
    ensures var k := (ch.lbl, ch.pod);
            var h' := if Chargeable(ch.cls, ch.started, ch.end) then Entered(h, k, e) else h;
            MarksWithin(h', mark) && AllBacked(h', mark, SettleOne(st, ch, okPods, baselineOk))
  {
    var k := (ch.lbl, ch.pod);
    var h' := if Chargeable(ch.cls, ch.started, ch.end) then Entered(h, k, e) else h;
    var st' := SettleOne(st, ch, okPods, baselineOk);
    forall l | l in st'.labels ensures Backed(h', mark, l, st'.labels[l]) {
      assert l in st.labels ==> Backed(h, mark, l, st.labels[l]);
    }
  }

  /** Entered with their evidence, the charges leave every count backed. */
  lemma {:induction false} SettleBacked(h: Hist, mark: Mark, st: SnapState, chs: seq<Charge>, r: SnapRun)
    requires AllBacked(h, mark, st) && MarksWithin(h, mark)
    ensures var h' := HistAfter(h, chs, r);
            MarksWithin(h', mark) && AllBacked(h', mark, SettleAll(st, chs, r.okPods, r.baselineOk))
    decreases |chs|
  {
    if chs != [] {
      var n := |chs| - 1;
      SettleBacked(h, mark, st, chs[..n], r);
      if OtherOk(chs[n], r.okPods, r.baselineOk) {
        ChargeBacked(HistAfter(h, chs[..n], r), mark, SettleAll(st, chs[..n], r.okPods, r.baselineOk), chs[n],
                     r.okPods, r.baselineOk, EvidenceOf(r, chs[n]));
      }
    }
  }

  /** Other states stay backed, as charges are only added. */
  lemma {:induction false} BackedGrows(h: Hist, mark: Mark, st: SnapState, chs: seq<Charge>, r: SnapRun)
    requires AllBacked(h, mark, st)
    ensures AllBacked(HistAfter(h, chs, r), mark, st)
    decreases |chs|
  {
    if chs != [] {
      var n := |chs| - 1;
      BackedGrows(h, mark, st, chs[..n], r);
      var h1, h2 := HistAfter(h, chs[..n], r), HistAfter(h, chs, r);
      forall l | l in st.labels ensures Backed(h2, mark, l, st.labels[l]) {
        assert Backed(h1, mark, l, st.labels[l]);
      }
    }
  }

  lemma SettleCounts(w: World, mark: Mark, lag: set<SnapState>)
    requires Counted(w, mark, lag) && Syncing(w)
    ensures Counts(w, EndRun(w), mark, lag)
  {
    var r := Run(w);
    if r.outage {
      SavesCount(w, EndRun(w), mark, lag, r.st);
    } else {
      SettleBacked(w.log.hist, mark, r.st, r.charges, r);
      forall s | AllBacked(w.log.hist, mark, s) ensures AllBacked(EndRun(w).log.hist, mark, s) {
        BackedGrows(w.log.hist, mark, s, r.charges, r);
      }
      var st := EndRun(w).disk.file;
      assert lag == {} ==> lag - {st} == {};
      assert Counted(EndRun(w), mark, lag - {st});
    }
  }

  predicate CountsPlainly(s: SyncStep) {
    s.PodLeftOut? || s.PodHeld? || s.PodNoTime? || s.Write? || s.JobDone? || s.Dies?
  }

  lemma PlainCounts(w: World, s: SyncStep, mark: Mark, lag: set<SnapState>)
    requires Counted(w, mark, lag) && SyncEnabled(w, s) && CountsPlainly(s)
    ensures Counts(w, SyncApply(w, s), mark, lag)
  {
    MovesCount(w, SyncApply(w, s), mark, lag);
  }

  lemma SyncCounts(w: World, s: SyncStep, mark: Mark, lag: set<SnapState>)
    requires Counted(w, mark, lag) && SyncEnabled(w, s) && !s.PodOk?
    ensures Counts(w, SyncApply(w, s), mark, lag)
  {
    match s
    case Begin(dev, listed, staff) => BeginCounts(w, mark, lag, dev, listed, staff);
    case Baseline(ok, wide) => BaselineCounts(w, mark, lag, ok, wide);
    case LabelBegin(lbl, pods, forced) => LabelBeginCounts(w, mark, lag, lbl, pods, forced);
    case PodStart(chain, hasLinks) => StartCounts(w, mark, lag, chain, hasLinks);
    case PodCut =>
      NotOkCounts(w, mark, lag, None, if Cur(w).cutMid.Some? then Cur(w).cutMid else Some(Cur(w).push.value.pod));
    case PodFail(cls) => NotOkCounts(w, mark, lag, Some(cls), Cur(w).cutMid);
    case LabelDone => LabelDoneCounts(w, mark, lag);
    case Settle => SettleCounts(w, mark, lag);
    case _ => PlainCounts(w, s, mark, lag);
  }

  lemma OpCounts(w: World, s: OpStep, mark: Mark, lag: set<SnapState>)
    requires Counted(w, mark, lag) && Locks(w) && OpEnabled(w, s)
    ensures Counts(w, OpApply(w, s), mark, lag)
  {
    if s.ForgetClear? && s.ok {
      ClearCounts(w, mark, lag, w.op.dirs, w.op.(phase := Cleared));
    } else if s.UnforgetClear? {
      ClearCounts(w, mark, lag, w.op.deleted, w.op.(turn := Emptied));
    } else {
      MovesCount(w, OpApply(w, s), mark, lag);
    }
  }

  lemma OutsideCounts(w: World, s: OutsideStep, mark: Mark, lag: set<SnapState>)
    requires Counted(w, mark, lag) && Locks(w) && OutsideEnabled(w, s)
    requires s.PowerLoss? ==> s.st !in lag
    ensures Counts(w, OutsideApply(w, s), mark, lag)
  {
    if s.MarkBorn? {
      MarkCounts(w, mark, lag);
    } else if !s.PowerLoss? {
      MovesCount(w, OutsideApply(w, s), mark, lag);
    }
  }

  lemma MarkCounts(w: World, mark: Mark, lag: set<SnapState>)
    requires Counted(w, mark, lag) && Locks(w) && w.snapLock == Free
    ensures Counts(w, MarkBornEmpty(w), mark, lag)
  {
    if w.disk.file.volume == Some(w.arch.mounted) {
      MovesCount(w, MarkBornEmpty(w), mark, lag);
    } else {
      SavesCount(w, MarkBornEmpty(w), mark, lag, MarkBornEmpty(w).disk.file);
    }
  }

  lemma StrayCounts(w: World, s: StrayStep, mark: Mark, lag: set<SnapState>)
    requires Counted(w, mark, lag) && StrayEnabled(w, s)
    ensures Counts(w, StrayApply(w, s), mark, lag)
  {
    MovesCount(w, StrayApply(w, s), mark, lag);
  }

  // ---- what the run knows, step by step ----------------------------------------------------------------

  /** The history goes on: more got through, and no run that has charged met a failure of the archive's. */
  lemma StandsOn(w: World, w': World)
    requires AllStand(w, w.log.hist) && w'.log.hist == w.log.hist && w'.start == w.start
    requires w'.log.runs >= w.log.runs && w.log.through <= w'.log.through
    requires w.log.failed <= w'.log.failed
    requires forall k, e | k in w.log.hist && e in w.log.hist[k] :: e.run in w'.log.outages ==> e.run in w.log.outages
    ensures AllStand(w', w'.log.hist)
  {
    forall k, e | k in w'.log.hist && e in w'.log.hist[k] ensures Stands(w', k.0, k.1, e) {
      assert Stands(w, k.0, k.1, e);
      forall q | q in e.okPods ensures GotThrough(w'.log.through, e.run, q) {
        GotThroughStill(w.log.through, w'.log.through, e.run, q);
      }
    }
  }

  predicate SameLog(w: World, w': World) {
    && w'.start == w.start && w'.log.hist == w.log.hist && w'.log.runs == w.log.runs
    && w'.log.outages == w.log.outages && w'.log.through == w.log.through && w'.log.failed == w.log.failed
  }

  /** A step that moves the run on within its label, or ends it unsettled. */
  lemma LogMoves(w: World, w': World)
    requires LogInv(w) && SameLog(w, w')
    requires w'.run.Some? ==>
               && w.run.Some? && w'.run == Some(Run(w).(cur := Run(w').cur, st := Run(w').st))
               && (OnLabel(w') <==> OnLabel(w))
               && (OnLabel(w') ==>
                     && Cur(w').lbl == Cur(w).lbl && Distinct(Cur(w').todo)
                     && (forall p :: Done(Cur(w), p) ==> Done(Cur(w'), p))
                     && (Pushing(w') ==> Cur(w').push.value.pod !in Cur(w').todo))
    ensures LogInv(w')
  {
    StandsOn(w, w');
  }

  lemma OthersLog(w: World, w': World)
    requires LogInv(w) && SameLog(w, w') && (w'.run == w.run || w'.run == None)
    ensures LogInv(w')
  {
    StandsOn(w, w');
  }

  lemma BeginLog(w: World, dev: Volume, listed: set<Pod>, staff: set<Pod>)
    requires LogInv(w)
    ensures LogInv(BeginSync(w, dev, listed, staff))
  {
    var w' := BeginSync(w, dev, listed, staff);
    StandsOn(w, w');
    forall k, e | k in w.log.hist && e in w.log.hist[k] ensures e.run < w.log.runs {
      assert Stands(w, k.0, k.1, e);
    }
  }

  lemma BaselineLog(w: World, ok: bool, wide: bool)
    requires LogInv(w) && Syncing(w) && !OnLabel(w)
    ensures LogInv(EndBaseline(w, ok, wide))
  {
    var w' := EndBaseline(w, ok, wide);
    StandsOn(w, w');
    forall q | q in Run(w').okPods ensures GotThrough(w'.log.through, Run(w').number, q) {
      GotThroughStill(w.log.through, w'.log.through, Run(w).number, q);
    }
  }

  lemma LabelBeginLog(w: World, lbl: Label, pods: seq<Pod>, forced: bool)
    requires LogInv(w) && SyncEnabled(w, LabelBegin(lbl, pods, forced))
    ensures LogInv(BeginLabel(w, lbl, pods, forced))
  {
    var w' := BeginLabel(w, lbl, pods, forced);
    RotatedIsPermutation(Cur(w').asked, RecordOf(Run(w).st, lbl).cutOff);
    StandsOn(w, w');
  }

  lemma ChargedOnceMore(chs: seq<Charge>, charge: seq<Charge>)
    requires ChargedOnce(chs) && |charge| <= 1
    requires forall a, b | a in chs && b in charge :: (a.lbl, a.pod) != (b.lbl, b.pod)
    ensures ChargedOnce(chs + charge)
    ensures forall ch :: ch in chs + charge <==> ch in chs || ch in charge
  {}

  lemma LeftOutLog(w: World)
    requires LogInv(w) && AtPod(w)
    ensures LogInv(LeaveOut(w))
  {
    var r, c := Run(w), Cur(w);
    var ch := ChargeOf(w, c.todo[0], Other);
    assert !Done(c, c.todo[0]);
    ChargedOnceMore(r.charges, [ch]);
    StandsOn(w, LeaveOut(w));
  }

  lemma NotOkLog(w: World, failure: Option<PushFailure>, cutMid: Option<Pod>)
    requires LogInv(w) && Pushing(w)
    ensures LogInv(EndNotOk(w, failure, cutMid))
  {
    var r, c := Run(w), Cur(w);
    assert !Done(c, c.push.value.pod);
    ChargedOnceMore(r.charges, ChargesOf(w, failure));
    StandsOn(w, EndNotOk(w, failure, cutMid));
  }

  lemma OkLog(w: World)
    requires LogInv(w) && Pushing(w)
    ensures LogInv(EndOk(w))
  {
    var w' := EndOk(w);
    var r, c := Run(w), Cur(w);
    var passed := Passed(r.number, Some((c.lbl, c.push.value.pod)));
    assert passed in w'.log.through && !Done(c, c.push.value.pod);
    StandsOn(w, w');
    forall q | q in Run(w').okPods ensures GotThrough(w'.log.through, r.number, q) {
      if q != c.push.value.pod {
        GotThroughStill(w.log.through, w'.log.through, r.number, q);
      }
    }
  }

  lemma LabelDoneLog(w: World)
    requires LogInv(w) && OnLabel(w) && !Pushing(w) && Cur(w).todo == []
    ensures LogInv(EndLabel(w))
  {
    StandsOn(w, EndLabel(w));
  }

  lemma SettleLog(w: World)
    requires LogInv(w) && Syncing(w) && !OnLabel(w)
    ensures LogInv(EndRun(w))
  {
    var r, w' := Run(w), EndRun(w);
    if !r.outage {
      SettleStands(w, r.charges);
      forall k, e | k in w'.log.hist && e in w'.log.hist[k] ensures Stands(w', k.0, k.1, e) {
        assert Stands(w, k.0, k.1, e);
      }
    } else {
      StandsOn(w, w');
    }
  }

  predicate LogPlainly(s: SyncStep) {
    s.PodHeld? || s.PodNoTime? || s.PodStart? || s.Write? || s.JobDone? || s.Dies?
  }

  lemma PodLog(w: World, s: SyncStep)
    requires LogInv(w) && SyncEnabled(w, s) && (s.PodHeld? || s.PodNoTime? || s.PodStart?)
    ensures LogInv(SyncApply(w, s))
  {
    LogMoves(w, SyncApply(w, s));
  }

  lemma RsyncLog(w: World, s: SyncStep)
    requires LogInv(w) && SyncEnabled(w, s) && (s.Write? || s.JobDone? || s.Dies?)
    ensures LogInv(SyncApply(w, s))
  {
    LogMoves(w, SyncApply(w, s));
  }

  lemma PlainLog(w: World, s: SyncStep)
    requires LogInv(w) && SyncEnabled(w, s) && LogPlainly(s)
    ensures LogInv(SyncApply(w, s))
  {
    if s.PodHeld? || s.PodNoTime? || s.PodStart? {
      PodLog(w, s);
    } else {
      RsyncLog(w, s);
    }
  }

  lemma SyncLog(w: World, s: SyncStep)
    requires LogInv(w) && SyncEnabled(w, s)
    ensures LogInv(SyncApply(w, s))
  {
    match s
    case Begin(dev, listed, staff) => BeginLog(w, dev, listed, staff);
    case Baseline(ok, wide) => BaselineLog(w, ok, wide);
    case LabelBegin(lbl, pods, forced) => LabelBeginLog(w, lbl, pods, forced);
    case PodLeftOut => LeftOutLog(w);
    case PodOk => OkLog(w);
    case PodCut => NotOkLog(w, None, if Cur(w).cutMid.Some? then Cur(w).cutMid else Some(Cur(w).push.value.pod));
    case PodFail(cls) => NotOkLog(w, Some(cls), Cur(w).cutMid);
    case LabelDone => LabelDoneLog(w);
    case Settle => SettleLog(w);
    case _ => PlainLog(w, s);
  }

  lemma OtherLog(w: World, s: Step)
    requires LogInv(w) && Enabled(w, s) && !s.Sync?
    ensures LogInv(Apply(w, s))
  {
    match s
    case Operator(a) => OpLog(w, a);
    case Outside(a) => OutsideLog(w, a);
    case Astray(a) => StrayLog(w, a);
  }

  lemma OpLog(w: World, s: OpStep)
    requires LogInv(w) && OpEnabled(w, s)
    ensures LogInv(OpApply(w, s))
  {
    OthersLog(w, OpApply(w, s));
  }

  lemma OutsideLog(w: World, s: OutsideStep)
    requires LogInv(w) && OutsideEnabled(w, s)
    ensures LogInv(OutsideApply(w, s))
  {
    OthersLog(w, OutsideApply(w, s));
  }

  lemma StrayLog(w: World, s: StrayStep)
    requires LogInv(w) && StrayEnabled(w, s)
    ensures LogInv(StrayApply(w, s))
  {
    OthersLog(w, StrayApply(w, s));
  }

  // ---- over every run ---------------------------------------------------------------------------------------

  lemma StepCounts(w: World, s: Step)
    requires CountInv(w) && Locks(w) && Enabled(w, s)
    ensures CountInv(Apply(w, s))
  {
    match s
    case Sync(a) =>
      SyncLog(w, a);
      if a.PodOk? {
        OkCounts(w, map[], {});
      } else {
        SyncCounts(w, a, map[], {});
      }
    case Operator(a) =>
      OtherLog(w, s);
      OpCounts(w, a, map[], {});
    case Outside(a) =>
      OtherLog(w, s);
      OutsideCounts(w, a, map[], {});
    case Astray(a) =>
      OtherLog(w, s);
      StrayCounts(w, a, map[], {});
  }

  lemma {:induction false} RunsCount(w: World, steps: seq<Step>, w': World)
    requires CountInv(w) && Locks(w) && Runs(w, steps, w')
    ensures CountInv(w')
    decreases |steps|
  {
    if steps != [] {
      StepCounts(w, steps[0]);
      StepKeepsLocks(w, steps[0]);
      RunsCount(Apply(w, steps[0]), steps[1..], w');
    }
  }

  /** A pod given up on a label failed there in at least `GIVE_UP_AFTER` runs: each time in its own way
      and after the label's day and grace, in a run the archive did not fail in, and in which the
      baseline, or another pod, did get through. Over every run, whatever is killed or lost. */
  lemma PartialIsNeverAnOutage(w: World, steps: seq<Step>, w': World, lbl: Label, p: Pod)
    returns (evidence: seq<Evidence>)
    requires Init(w) && Runs(w, steps, w')
    requires lbl in w'.disk.file.labels && p in w'.disk.file.labels[lbl].givenUp
    ensures |evidence| >= GIVE_UP_AFTER && Increasing(evidence)
    ensures forall e | e in evidence :: Stands(w', lbl, p, e)
  {
    assert CountInv(w);
    RunsCount(w, steps, w');
    assert Backed(w'.log.hist, map[], lbl, w'.disk.file.labels[lbl]);
    evidence := HistOf(w'.log.hist, (lbl, p));
  }

  lemma OneCharge(w: World, steps: seq<Step>, w': World, lbl: Label, p: Pod) returns (e: Evidence)
    requires Init(w) && Runs(w, steps, w')
    requires lbl in w'.disk.file.labels && p in w'.disk.file.labels[lbl].givenUp
    ensures Stands(w', lbl, p, e)
  {
    var es := PartialIsNeverAnOutage(w, steps, w', lbl, p);
    e := es[0];
  }

  /** Hence the only pod of an archive without a baseline is never given up. */
  lemma LonePodIsNeverGivenUp(w: World, steps: seq<Step>, w': World, lbl: Label, p: Pod)
    requires Init(w) && Runs(w, steps, w')
    requires forall t | t in w'.log.through :: t.who.Some? && t.who.value.1 == p
    requires lbl in w'.disk.file.labels
    ensures p !in w'.disk.file.labels[lbl].givenUp
  {
    forall e ensures !Stands(w', lbl, p, e) {
      if q :| q in e.okPods && q != p {
        assert !GotThrough(w'.log.through, e.run, q);
      }
    }
    if p in w'.disk.file.labels[lbl].givenUp {
      var e := OneCharge(w, steps, w', lbl, p);
    }
  }

  // ---- since the pod last got through ----------------------------------------------------------------------

  ghost predicate MarkedSince(w: World) {
    forall k, i | k in w.log.hist && MarkOf(w.log.mark, k) <= i < |w.log.hist[k]| ::
        Since(w, k.0, k.1, w.log.hist[k][i])
  }

  lemma OkSince(w: World)
    requires MarkedSince(w) && Pushing(w)
    ensures MarkedSince(EndOk(w))
  {
    var w' := EndOk(w);
    forall k, i | k in w'.log.hist && MarkOf(w'.log.mark, k) <= i < |w'.log.hist[k]|
      ensures Since(w', k.0, k.1, w'.log.hist[k][i])
    {
      assert Since(w, k.0, k.1, w.log.hist[k][i]);
    }
  }

  lemma SettleSince(w: World)
    requires LogInv(w) && MarkedSince(w) && MarksWithin(w.log.hist, w.log.mark) && Syncing(w) && !OnLabel(w)
    ensures MarkedSince(EndRun(w))
  {
    var r, w' := Run(w), EndRun(w);
    if !r.outage {
      SettleStands(w, r.charges);
      forall k, i | k in w'.log.hist && MarkOf(w'.log.mark, k) <= i < |w'.log.hist[k]|
        ensures Since(w', k.0, k.1, w'.log.hist[k][i])
      {
        assert OneMore(w.log.hist, w'.log.hist, k, r);
        if i < |HistOf(w.log.hist, k)| {
          assert w'.log.hist[k][i] == w.log.hist[k][i];
          assert Since(w, k.0, k.1, w.log.hist[k][i]);
        }
      }
    }
  }

  /** Steps that change neither the charges nor what of the pods got through. */
  predicate SinceStays(w: World, w': World) {
    && w'.log.hist == w.log.hist && w'.log.mark == w.log.mark
    && forall t | t in w'.log.through && t !in w.log.through :: t.who == None
  }

  lemma StaysSince(w: World, w': World)
    requires MarkedSince(w) && SinceStays(w, w')
    ensures MarkedSince(w')
  {
    forall k, i | k in w'.log.hist && MarkOf(w'.log.mark, k) <= i < |w'.log.hist[k]|
      ensures Since(w', k.0, k.1, w'.log.hist[k][i])
    {
      assert Since(w, k.0, k.1, w.log.hist[k][i]);
    }
  }

  lemma PodSince(w: World, s: SyncStep)
    requires SyncEnabled(w, s) && LogPlainly(s)
    ensures SinceStays(w, SyncApply(w, s))
  {}

  lemma RunSince(w: World, s: SyncStep)
    requires SyncEnabled(w, s) && !LogPlainly(s) && !s.PodOk? && !s.Settle?
    ensures SinceStays(w, SyncApply(w, s))
  {}

  lemma OpSince(w: World, s: OpStep)
    requires OpEnabled(w, s)
    ensures SinceStays(w, OpApply(w, s))
  {}

  lemma OutsideSince(w: World, s: OutsideStep)
    requires OutsideEnabled(w, s)
    ensures SinceStays(w, OutsideApply(w, s))
  {}

  lemma StraySince(w: World, s: StrayStep)
    requires StrayEnabled(w, s)
    ensures SinceStays(w, StrayApply(w, s))
  {}

  lemma StepMarked(w: World, s: Step)
    requires LogInv(w) && MarkedSince(w) && MarksWithin(w.log.hist, w.log.mark) && Enabled(w, s)
    ensures MarkedSince(Apply(w, s))
  {
    match s
    case Sync(a) =>
      if a.PodOk? {
        OkSince(w);
      } else if a.Settle? {
        SettleSince(w);
      } else {
        if LogPlainly(a) { PodSince(w, a); } else { RunSince(w, a); }
        StaysSince(w, Apply(w, s));
      }
    case Operator(a) => OpSince(w, a); StaysSince(w, Apply(w, s));
    case Outside(a) => OutsideSince(w, a); StaysSince(w, Apply(w, s));
    case Astray(a) => StraySince(w, a); StaysSince(w, Apply(w, s));
  }

  lemma MarkStays(w: World, s: Step)
    requires Enabled(w, s) && s != Sync(PodOk)
    ensures Apply(w, s).log.mark == w.log.mark
  {
    match s
    case Sync(a) =>
      if LogPlainly(a) {
        PodSince(w, a);
      } else if !a.Settle? {
        RunSince(w, a);
      }
    case Operator(a) => OpSince(w, a);
    case Outside(a) => OutsideSince(w, a);
    case Astray(a) => StraySince(w, a);
  }

  lemma StepSince(w: World, s: Step)
    requires CountInv(w) && SinceInv(w) && Locks(w) && Enabled(w, s) && SuccessKept(w, s)
    ensures SinceInv(Apply(w, s))
  {
    StepMarked(w, s);
    if s != Sync(PodOk) {
      MarkStays(w, s);
    }
    match s
    case Sync(a) =>
      if a.PodOk? {
        OkCounts(w, w.log.mark, w.log.lag);
      } else {
        SyncCounts(w, a, w.log.mark, w.log.lag);
      }
    case Operator(a) => OpCounts(w, a, w.log.mark, w.log.lag);
    case Outside(a) => OutsideCounts(w, a, w.log.mark, w.log.lag);
    case Astray(a) => StrayCounts(w, a, w.log.mark, w.log.lag);
  }

  ghost predicate SuccessesKept(w: World, steps: seq<Step>)
    decreases |steps|
  {
    steps == [] || (Enabled(w, steps[0]) && SuccessKept(w, steps[0]) && SuccessesKept(Apply(w, steps[0]), steps[1..]))
  }

  lemma {:induction false} RunsSince(w: World, steps: seq<Step>, w': World)
    requires CountInv(w) && SinceInv(w) && Locks(w) && Runs(w, steps, w') && SuccessesKept(w, steps)
    ensures CountInv(w') && SinceInv(w')
    decreases |steps|
  {
    if steps != [] {
      StepCounts(w, steps[0]);
      StepSince(w, steps[0]);
      StepKeepsLocks(w, steps[0]);
      RunsSince(Apply(w, steps[0]), steps[1..], w');
    }
  }

  /** And all of that since the pod last got through on the label, where the power brings back no version
      of the state from before the last push that did. */
  lemma PartialSinceSuccess(w: World, steps: seq<Step>, w': World, lbl: Label, p: Pod) returns (evidence: seq<Evidence>)
    requires Init(w) && Runs(w, steps, w') && SuccessesKept(w, steps)
    requires lbl in w'.disk.file.labels && p in w'.disk.file.labels[lbl].givenUp
    ensures |evidence| >= GIVE_UP_AFTER && Increasing(evidence)
    ensures forall e | e in evidence :: Stands(w', lbl, p, e) && Since(w', lbl, p, e)
  {
    assert CountInv(w) && SinceInv(w);
    RunsSince(w, steps, w');
    var k := (lbl, p);
    assert Backed(w'.log.hist, w'.log.mark, lbl, w'.disk.file.labels[lbl]);
    evidence := HistOf(w'.log.hist, k)[MarkOf(w'.log.mark, k)..];
    forall e | e in evidence ensures Stands(w', lbl, p, e) && Since(w', lbl, p, e) {
      var i :| MarkOf(w'.log.mark, k) <= i < |w'.log.hist[k]| && w'.log.hist[k][i] == e;
    }
  }

  /** That is needed: brought back from before the pod's last success, a state gives it up though nothing
      has gone wrong since. */
  lemma LostSuccessStaysGivenUp(w: World, st: SnapState, fg: Forgotten, lbl: Label, p: Pod, run: nat)
    requires st in w.disk.pending && fg in w.disk.pendingForgotten
    requires lbl in st.labels && p in st.labels[lbl].givenUp
    requires Passed(run, Some((lbl, p))) in w.log.through && run + 1 == w.log.runs
    ensures OutsideEnabled(w, PowerLoss(st, fg))
    ensures var w' := LosePower(w, st, fg);
            p in w'.disk.file.labels[lbl].givenUp && forall e :: !(Stands(w', lbl, p, e) && Since(w', lbl, p, e))
  {
    var w' := LosePower(w, st, fg);
    assert Passed(run, Some((lbl, p))) in w'.log.through;
  }
}

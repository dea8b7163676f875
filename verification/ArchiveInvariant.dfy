/** What every step of the archive protocol keeps, and why. */
module ArchiveInvariant {
  import opened Wrappers
  import opened ArchiveState
  import opened ArchiveWorld

  // ---- the invariant, part by part --------------------------------------------------------

  predicate OpHoldsSnap(op: Op) {
    (op.Forget? && op.phase != Saved) || (op.Unforget? && op.turn != Asked)
  }

  predicate OpHoldsBig(op: Op) {
    (op.Forget? && op.phase != Saved && op.phase != HasSnap) || (op.Unforget? && op.turn != Asked)
  }

  ghost predicate Locks(w: World) {
    && (w.snapLock == BySync <==> w.run.Some?)
    && (w.snapLock == ByOp <==> OpHoldsSnap(w.op))
    && (w.bigLock == ByOp <==> OpHoldsBig(w.op))
    && (w.bigLock != BySync ==> w.bigAllowed == {})
  }

  predicate NamesMountedOrEarlier(st: SnapState, mounted: Volume) {
    if st.volume.Some? then st.volume.value <= mounted else st.labels == map[] && !st.bornEmpty
  }

  ghost predicate Volumes(w: World) {
    && w.arch.mounted <= w.arch.cloud
    && w.disk.file in w.disk.pending && w.disk.forgotten in w.disk.pendingForgotten
    && (forall s | s in w.disk.pending :: NamesMountedOrEarlier(s, w.arch.mounted))
    && (w.run.Some? ==> Run(w).st.volume == Some(w.arch.mounted))
    && (w.arch.made && w.arch.cloud == w.arch.mounted && w.disk.file.volume != Some(w.arch.mounted) ==>
       w.arch.remote == map[])
    && (w.strays.snap != {} ==> w.disk.file.volume == Some(w.arch.mounted))
  }

  predicate Recorded(s: SnapState, lbl: Label, p: Pod) {
    lbl in s.labels && p in s.labels[lbl].podsTried
  }

  /** Every file the volume holds was put there by a push this state has recorded; and so was all
      that an rsync left over may still write. */
  predicate Covers(w: World, s: SnapState) {
    && (forall f | f in w.arch.remote :: Recorded(s, f.lbl, f.pod))
    && (forall x | x in w.strays.snap :: Recorded(s, x.lbl, x.pod))
  }

  /** The archive has the file's bytes. */
  predicate OnArchive(w: World, f: Path)
    requires f in w.local
  {
    f in w.arch.remote && w.arch.remote[f].bytes == w.local[f].bytes
  }

  /** The archive has the file's bytes, exactly if no delete has removed it and no rsync left over has
      written others since they were last written. */
  predicate Settled(w: World, f: Path)
    requires f in w.local
  {
    OnArchive(w, f) <==> f !in w.log.removed && f !in w.log.stale
  }

  predicate IsOf(f: Path, lbl: Label, p: Pod) {
    f.lbl == lbl && f.pod == p
  }

  predicate TreeSettled(w: World, lbl: Label, p: Pod) {
    forall f | f in w.local && IsOf(f, lbl, p) && Storable(w.local[f]) :: Settled(w, f)
  }

  predicate FinalHolds(w: World, lbl: Label, p: Pod) {
    Over(lbl, w.start, w.now) && TreeSettled(w, lbl, p)
  }

  predicate Final(s: SnapState, lbl: Label, p: Pod) {
    lbl in s.labels && p in s.labels[lbl].podsFinal
  }

  /** What a state that describes the mounted volume says of it is so. */
  ghost predicate Sound(w: World, s: SnapState) {
    s.volume == Some(w.arch.mounted) ==>
      && (s.bornEmpty ==> Covers(w, s))
      && (forall l, p | Final(s, l, p) :: FinalHolds(w, l, p))
  }

  ghost predicate States(w: World) {
    && (forall s | s in w.disk.pending :: Sound(w, s))
    && (w.run.Some? ==> Sound(w, Run(w).st))
    && (OnLabel(w) ==> Sound(w, PutRec(Run(w).st, Cur(w).lbl, Cur(w).rec)))
  }

  /** No pod a run may push is marked deleted. */
  ghost predicate Allowed(w: World) {
    && (w.run.Some? ==> forall p | p in Run(w).allowed && p in w.disk.forgotten :: !w.disk.forgotten[p])
    && (OnLabel(w) ==> forall p | p in Cur(w).todo :: p in Run(w).allowed)
    && (Pushing(w) ==> Cur(w).push.value.pod in Run(w).allowed)
  }

  /** The push that runs was recorded durably before it began. */
  ghost predicate PushInv(w: World) {
    Pushing(w) ==>
      var r, c := Run(w), Cur(w);
      var p := c.push.value;
      && w.disk.pending == {r.st} && w.disk.file == r.st
      && c.lbl in r.st.labels && r.st.labels[c.lbl] == c.rec && p.pod in c.rec.podsTried
      && (forall fg | fg in w.disk.pendingForgotten && p.pod in fg :: !fg[p.pod])
      && p.jobs == JobsOf(p.how) && p.at <= |p.jobs|
      && (forall f | f in p.seen :: IsOf(f, c.lbl, p.pod))
  }

  /** A push that will show the pod's tree to be final: a check, or a seed into what was known to be
      bare, after the label's day and grace. */
  predicate Proves(w: World)
    requires Pushing(w)
  {
    var p := Cur(w).push.value;
    Cur(w).couldSeal && (p.how == Check || (p.how == Seed && Run(w).st.bornEmpty))
  }

  predicate Compares(j: Job) {
    j.compare != Quick
  }

  predicate InPass(w: World, j: Job, f: Path, lbl: Label, p: Pod) {
    f in w.local && IsOf(f, lbl, p) && Takes(j.pass, w.local[f])
  }

  ghost predicate PassesSettled(w: World, p: Push, lbl: Label) {
    forall j, f | 0 <= j < p.at && j < |p.jobs| && Compares(p.jobs[j]) && InPass(w, p.jobs[j], f, lbl, p.pod) ::
        Settled(w, f)
  }

  ghost predicate SeenSettled(w: World, p: Push) {
    p.at < |p.jobs| && Compares(p.jobs[p.at]) ==> forall f | f in p.seen && f in w.local :: Settled(w, f)
  }

  /** Into what was bare only this push has written. */
  predicate OnlySeeded(w: World, lbl: Label, p: Pod) {
    && (forall f | f in w.arch.remote && f in w.local && IsOf(f, lbl, p) :: OnArchive(w, f) && Settled(w, f))
    && (forall x | x in w.strays.snap :: x.lbl != lbl || x.pod != p)
  }

  /** And it is as far along as its rsync runs have gone. */
  ghost predicate ProofInv(w: World) {
    Pushing(w) && Proves(w) ==>
      var p, lbl := Cur(w).push.value, Cur(w).lbl;
      && PassesSettled(w, p, lbl) && SeenSettled(w, p)
      && (p.how == Seed ==> OnlySeeded(w, lbl, p.pod))
  }

  /** Where a label's turn is between pushes. */
  ghost predicate LabelInv(w: World) {
    && (OnLabel(w) ==> (Cur(w).couldSeal ==> Over(Cur(w).lbl, w.start, w.now)))
    && (OnLabel(w) && Cur(w).lbl in Run(w).st.labels ==>
          Run(w).st.labels[Cur(w).lbl].podsTried <= Cur(w).rec.podsTried)
  }

  /** Nothing is there, or still to be written, of a pod that any `forgotten.json` marks as deleted;
      nor of one whose delete is done. */
  ghost predicate MarksInv(w: World) {
    && (w.op.Forget? ==> w.op.dirs <= w.disk.forgotten.Keys)
    && (w.op.Forget? && (w.op.phase == Deleted || w.op.phase == Cleared) ==> HoldsNoSnap(w, w.op.dirs))
    && (w.op.Forget? && OpHoldsBig(w.op) ==> NoStrayOf(w, w.op.dirs))
    && (w.op.Unforget? ==> forall d | d in w.op.deleted :: d in w.disk.forgotten && w.disk.forgotten[d])
    && (forall fg, f | fg in w.disk.pendingForgotten && f in w.arch.remote && f.pod in fg :: !fg[f.pod])
    && (forall fg, x | fg in w.disk.pendingForgotten && x in w.strays.snap && x.pod in fg :: !fg[x.pod])
    && (forall x, f | x in w.strays.snap && f in x.read :: IsOf(f, x.lbl, x.pod))
  }

  ghost predicate Inv(w: World) {
    Locks(w) && Volumes(w) && States(w) && Allowed(w) && PushInv(w) && ProofInv(w) && LabelInv(w) && MarksInv(w)
  }

  // ---- what does not touch the archive -----------------------------------------------------

  /** `s'` claims nothing of the archive that `s` does not. */
  ghost predicate SaysNoMore(s': SnapState, s: SnapState) {
    && s'.volume == s.volume && s'.bornEmpty == s.bornEmpty
    && (forall l | l in s.labels :: l in s'.labels && s.labels[l].podsTried <= s'.labels[l].podsTried)
    && (forall l, p | Final(s', l, p) :: Final(s, l, p))
  }

  lemma SoundMono(w: World, s: SnapState, s': SnapState)
    requires Sound(w, s) && SaysNoMore(s', s)
    ensures Sound(w, s')
  {}

  /** The two trees, what is left over, and what is known of the archive's files are the same. */
  predicate SameGround(w: World, w': World) {
    && w'.start == w.start && w'.now >= w.now && w'.local == w.local
    && w'.arch.remote == w.arch.remote && w'.arch.mounted == w.arch.mounted
    && w'.log.removed == w.log.removed && w'.log.stale == w.log.stale
    && w'.strays.snap <= w.strays.snap
  }

  lemma SoundFrame(w: World, w': World, s: SnapState)
    requires Sound(w, s) && SameGround(w, w')
    ensures Sound(w', s)
  {}

  lemma ProofFrame(w: World, w': World)
    requires ProofInv(w) && SameGround(w, w')
    requires Pushing(w') ==> Pushing(w) && Cur(w').push == Cur(w).push && Cur(w').lbl == Cur(w).lbl
                             && Cur(w').couldSeal == Cur(w).couldSeal && Run(w').st.bornEmpty == Run(w).st.bornEmpty
    ensures ProofInv(w')
  {
    if Pushing(w') && Proves(w') {
      assert Proves(w);
      forall f | f in w.local ensures Settled(w', f) <==> Settled(w, f) {}
    }
  }

  lemma PutRecTwice(st: SnapState, lbl: Label, r1: LabelRecord, r2: LabelRecord)
    ensures PutRec(PutRec(st, lbl, r1), lbl, r2) == PutRec(st, lbl, r2)
    ensures lbl in st.labels && st.labels[lbl] == r2 ==> PutRec(st, lbl, r2) == st
  {}

  lemma {:induction false} SettleSaysNoMore(st: SnapState, chs: seq<Charge>, okPods: set<Pod>, baselineOk: bool)
    ensures SaysNoMore(SettleAll(st, chs, okPods, baselineOk), st)
    decreases |chs|
  {
    if chs != [] {
      SettleSaysNoMore(st, chs[..|chs| - 1], okPods, baselineOk);
    }
  }

  // ---- one file ------------------------------------------------------------------------------

  lemma TransferOne(compare: Compare, remote: Tree, f: Path, e: Entry, stamp: nat)
    ensures var r := Transfer(compare, remote, f, e, stamp);
            && r.Keys == remote.Keys + {f}
            && (forall g | g in remote && g != f :: r[g] == remote[g])
            && (compare == Content ==> r[f].bytes == e.bytes)
            && (f in remote ==> r[f] == remote[f] || r[f].bytes == e.bytes)
            && (f !in remote ==> r[f].bytes == e.bytes)
  {}

  /** Whatever is written, by whom ever: a file of which it is known whether it is on the archive stays
      one; and so it is of the file written, when its own bytes were. */
  lemma PutSettles(w: World, compare: Compare, f: Path, e: Entry, stamp: nat, g: Path)
    requires g in w.local
    ensures var w' := Put(w, compare, f, e, stamp);
            && w'.arch.remote.Keys == w.arch.remote.Keys + {f}
            && (Settled(w, g) ==> Settled(w', g))
            && (g == f && e.bytes == w.local[f].bytes && compare != Quick && (compare == Content || f !in w.arch.remote)
                ==> Settled(w', f) && OnArchive(w', f))
            && (f in w.local && e.bytes == w.local[f].bytes && OnArchive(w, g) ==> OnArchive(w', g))
            && (g != f ==> (OnArchive(w', g) <==> OnArchive(w, g)))
  {
    TransferOne(compare, w.arch.remote, f, e, stamp);
  }

  lemma GoneSettles(w: World, f: Path, g: Path)
    requires g in w.local && Settled(w, g)
    ensures Settled(Gone(w, f), g)
  {}

  lemma SoundPut(w: World, compare: Compare, f: Path, e: Entry, stamp: nat, s: SnapState)
    requires Sound(w, s) && (s.volume == Some(w.arch.mounted) && s.bornEmpty ==> Recorded(s, f.lbl, f.pod))
    ensures Sound(Put(w, compare, f, e, stamp), s)
  {
    var w' := Put(w, compare, f, e, stamp);
    TransferOne(compare, w.arch.remote, f, e, stamp);
    forall g | g in w.local ensures Settled(w, g) ==> Settled(w', g) {
      PutSettles(w, compare, f, e, stamp, g);
    }
    forall l, p | FinalHolds(w, l, p) ensures FinalHolds(w', l, p) {}
  }

  lemma SoundGone(w: World, f: Path, s: SnapState)
    requires Sound(w, s)
    ensures Sound(Gone(w, f), s)
  {
    forall g | g in w.local ensures Settled(w, g) ==> Settled(Gone(w, f), g) {
      if Settled(w, g) {
        GoneSettles(w, f, g);
      }
    }
    forall l, p | FinalHolds(w, l, p) ensures FinalHolds(Gone(w, f), l, p) {}
  }

  /** A step that leaves the archive and the label's turn alone. */
  lemma StatesFrame(w: World, w': World)
    requires States(w) && SameGround(w, w') && w'.disk.pending <= w.disk.pending
    requires w'.run.Some? ==> w.run.Some? && Run(w').st == Run(w).st
    requires OnLabel(w') ==> OnLabel(w) && Cur(w').lbl == Cur(w).lbl && Cur(w').rec == Cur(w).rec
    ensures States(w')
  {
    forall s | Sound(w, s) ensures Sound(w', s) {
      SoundFrame(w, w', s);
    }
  }

  // ---- the sync's steps ----------------------------------------------------------------------

  /** A check that ends, or a seed that ends on a volume known to have been bare, after the
      label's day and grace: of each storable file of the pod it is known whether the archive has it. */
  lemma CompletedIsSettled(w: World)
    requires PushInv(w) && ProofInv(w) && Pushing(w) && Proves(w) && Cur(w).push.value.at == |Cur(w).push.value.jobs|
    ensures TreeSettled(w, Cur(w).lbl, Cur(w).push.value.pod)
  {
    var c := Cur(w);
    var p := c.push.value;
    forall f | f in w.local && IsOf(f, c.lbl, p.pod) && Storable(w.local[f]) ensures Settled(w, f) {
      var j := if Takes(Files, w.local[f]) then 0 else if p.how == Check then 2 else 1;
      assert Compares(p.jobs[j]) && InPass(w, p.jobs[j], f, c.lbl, p.pod);
    }
  }

  /** A step of the run that touches no file and writes none of the history that the invariant is about. */
  predicate SameFiles(w: World, w': World) {
    w' == w.(run := w'.run, log := w.log.(failed := w'.log.failed, had := w'.log.had))
  }

  lemma PassOverKeeps(w: World, w': World)
    requires Inv(w) && AtPod(w) && Syncing(w') && OnLabel(w') && !Pushing(w')
    requires SameFiles(w, w')
             && Run(w') == Run(w').(number := Run(w).number, st := Run(w).st, allowed := Run(w).allowed)
    requires Cur(w').lbl == Cur(w).lbl && Cur(w').couldSeal == Cur(w).couldSeal
    requires Cur(w').rec == Cur(w).rec || Cur(w').rec == NotePushNotOk(Cur(w).rec, Cur(w).todo[0])
    requires Cur(w').todo == [] || Cur(w').todo == Cur(w).todo[1..]
    ensures Inv(w')
  {
    PassOverStates(w, w');
  }

  lemma PassOverStates(w: World, w': World)
    requires States(w) && OnLabel(w) && OnLabel(w')
    requires SameFiles(w, w') && Run(w').st == Run(w).st && Cur(w').lbl == Cur(w).lbl
    requires Cur(w').rec == Cur(w).rec || exists p :: Cur(w').rec == NotePushNotOk(Cur(w).rec, p)
    ensures States(w')
  {
    var before, after := PutRec(Run(w).st, Cur(w).lbl, Cur(w).rec), PutRec(Run(w').st, Cur(w').lbl, Cur(w').rec);
    assert SaysNoMore(after, before);
    SoundMono(w, before, after);
    forall s | Sound(w, s) ensures Sound(w', s) {
      SoundFrame(w, w', s);
    }
  }

  /** The push that starts is recorded first, and the record saved durably: no power loss can bring
      back a state that does not know of it. */
  lemma StartStates(w: World, chain: bool, hasLinks: bool)
    requires States(w) && AtPod(w)
    ensures States(StartPush(w, chain, hasLinks))
  {
    var c, r := Cur(w), Run(w);
    var w' := StartPush(w, chain, hasLinks);
    var before, after := PutRec(r.st, c.lbl, c.rec), Run(w').st;
    PutRecTwice(r.st, c.lbl, Cur(w').rec, Cur(w').rec);
    assert SaysNoMore(after, before);
    SoundMono(w, before, after);
    SoundFrame(w, w', after);
  }

  lemma StartPushInv(w: World, chain: bool, hasLinks: bool)
    requires Allowed(w) && AtPod(w)
    ensures PushInv(StartPush(w, chain, hasLinks))
  {
    assert Cur(w).todo[0] in Cur(w).todo;
  }

  lemma StartProof(w: World, chain: bool, hasLinks: bool)
    requires States(w) && AtPod(w) && Run(w).st.volume == Some(w.arch.mounted)
    ensures ProofInv(StartPush(w, chain, hasLinks))
  {
    var c, r := Cur(w), Run(w);
    var w' := StartPush(w, chain, hasLinks);
    var p := Cur(w').push.value;
    assert p.at == 0 && p.seen == {};
    if Proves(w') && p.how == Seed {
      assert p.pod !in c.rec.podsTried;
      SeedsBare(w, c.lbl, p.pod, PutRec(r.st, c.lbl, c.rec), w');
    }
  }

  lemma SeedsBare(w: World, lbl: Label, p: Pod, s: SnapState, w': World)
    requires Sound(w, s) && s.volume == Some(w.arch.mounted) && s.bornEmpty && !Recorded(s, lbl, p)
    requires w'.arch == w.arch && w'.strays == w.strays
    ensures OnlySeeded(w', lbl, p)
  {
    assert Covers(w, s);
  }

  lemma StartRest(w: World, chain: bool, hasLinks: bool)
    requires Locks(w) && Volumes(w) && Allowed(w) && LabelInv(w) && MarksInv(w) && AtPod(w)
    ensures var w' := StartPush(w, chain, hasLinks);
            Locks(w') && Volumes(w') && Allowed(w') && LabelInv(w') && MarksInv(w')
  {
    assert Cur(w).todo[0] in Cur(w).todo;
  }

  lemma StartKeeps(w: World, chain: bool, hasLinks: bool)
    requires Inv(w) && AtPod(w)
    ensures Inv(StartPush(w, chain, hasLinks))
  {
    StartStates(w, chain, hasLinks);
    StartPushInv(w, chain, hasLinks);
    StartProof(w, chain, hasLinks);
    StartRest(w, chain, hasLinks);
  }

  lemma WriteStates(w: World, f: Path, stamp: nat)
    requires PushInv(w) && States(w) && Pushing(w) && Carries(w, f)
    ensures States(WriteFile(w, f, stamp))
  {
    var c, r := Cur(w), Run(w);
    var p := c.push.value;
    PutRecTwice(r.st, c.lbl, c.rec, c.rec);
    var w1 := WithCur(w, c.(push := Some(p.(seen := p.seen + {f}))));
    SoundFrame(w, w1, r.st);
    SoundPut(w1, p.jobs[p.at].compare, f, w.local[f], stamp, r.st);
  }

  lemma WriteProof(w: World, f: Path, stamp: nat)
    requires PushInv(w) && ProofInv(w) && Pushing(w) && Carries(w, f)
    ensures ProofInv(WriteFile(w, f, stamp))
  {
    var c := Cur(w);
    var p := c.push.value;
    var w1 := WithCur(w, c.(push := Some(p.(seen := p.seen + {f}))));
    var w' := WriteFile(w, f, stamp);
    if Proves(w) {
      forall g | g in w.local
        ensures Settled(w, g) ==> Settled(w', g)
        ensures OnArchive(w, g) ==> OnArchive(w', g)
        ensures g == f && Compares(p.jobs[p.at]) ==> Settled(w', g)
        ensures g != f && OnArchive(w', g) ==> OnArchive(w, g)
      {
        assert Settled(w1, g) <==> Settled(w, g);
        PutSettles(w1, p.jobs[p.at].compare, f, w.local[f], stamp, g);
        if g == f && p.jobs[p.at].compare == NewOnly && f in w.arch.remote {
          assert OnlySeeded(w, c.lbl, p.pod);
        }
      }
      WriteProofParts(w, f, stamp);
    }
  }

  lemma WriteProofParts(w: World, f: Path, stamp: nat)
    requires PushInv(w) && ProofInv(w) && Pushing(w) && Carries(w, f) && Proves(w)
    requires var w' := WriteFile(w, f, stamp);
             && (forall g | g in w.local ::
                   (Settled(w, g) ==> Settled(w', g)) && (OnArchive(w, g) ==> OnArchive(w', g)))
             && (Compares(Cur(w).push.value.jobs[Cur(w).push.value.at]) ==> Settled(w', f))
    ensures ProofInv(WriteFile(w, f, stamp))
  {
    var c := Cur(w);
    var p := c.push.value;
    var w' := WriteFile(w, f, stamp);
    TransferOne(p.jobs[p.at].compare, w.arch.remote, f, w.local[f], stamp);
    assert p.how == Seed ==> Compares(p.jobs[p.at]) && (f !in w.arch.remote ==> OnArchive(w', f));
  }

  lemma WriteRest(w: World, f: Path, stamp: nat)
    requires Locks(w) && Volumes(w) && Allowed(w) && PushInv(w) && LabelInv(w) && MarksInv(w) && Pushing(w)
             && Carries(w, f)
    ensures var w' := WriteFile(w, f, stamp);
            Locks(w') && Volumes(w') && Allowed(w') && PushInv(w') && LabelInv(w') && MarksInv(w')
  {
    var p := Cur(w).push.value;
    TransferOne(p.jobs[p.at].compare, w.arch.remote, f, w.local[f], stamp);
  }

  lemma WriteKeeps(w: World, f: Path, stamp: nat)
    requires Inv(w) && Pushing(w) && Carries(w, f)
    ensures Inv(WriteFile(w, f, stamp))
  {
    WriteStates(w, f, stamp);
    WriteProof(w, f, stamp);
    WriteRest(w, f, stamp);
  }

  lemma JobDoneProof(w: World)
    requires ProofInv(w) && Pushing(w) && JobEnds(w)
    ensures ProofInv(NextJob(w))
  {
    var w' := NextJob(w);
    var p, lbl := Cur(w).push.value, Cur(w).lbl;
    if Proves(w') {
      assert Proves(w);
      forall f | f in w.local ensures Settled(w', f) <==> Settled(w, f) {}
      forall j, f | 0 <= j < p.at + 1 && Compares(p.jobs[j]) && InPass(w', p.jobs[j], f, lbl, p.pod)
          ensures Settled(w', f) {
        assert InPass(w, p.jobs[j], f, lbl, p.pod);
        if j == p.at {
          assert Carries(w, f);
        }
      }
    }
  }

  lemma JobDoneKeeps(w: World)
    requires Inv(w) && Pushing(w) && JobEnds(w)
    ensures Inv(NextJob(w))
  {
    StatesFrame(w, NextJob(w));
    JobDoneProof(w);
  }

  lemma OkStates(w: World)
    requires PushInv(w) && ProofInv(w) && LabelInv(w) && States(w) && Pushing(w)
    requires Cur(w).push.value.at == |Cur(w).push.value.jobs|
    ensures States(EndOk(w))
  {
    var c, r := Cur(w), Run(w);
    var p := c.push.value;
    var w' := EndOk(w);
    var after := Run(w').st;
    PutRecTwice(r.st, c.lbl, Cur(w').rec, Cur(w').rec);
    SoundFrame(w, w', r.st);
    if Proves(w) {
      CompletedIsSettled(w);
      forall f | f in w.local && Settled(w, f) ensures Settled(w', f) {}
      assert FinalHolds(w', c.lbl, p.pod);
    }
    OkSound(w', r.st, c.lbl, p.pod, after);
  }

  /** A state that claims one more tree, which is so. */
  lemma OkSound(w: World, s: SnapState, lbl: Label, p: Pod, s': SnapState)
    requires Sound(w, s) && s'.volume == s.volume && s'.bornEmpty == s.bornEmpty
    requires forall l | l in s.labels :: l in s'.labels && s.labels[l].podsTried <= s'.labels[l].podsTried
    requires forall l, q | Final(s', l, q) :: Final(s, l, q) || (l == lbl && q == p && FinalHolds(w, lbl, p))
    ensures Sound(w, s')
  {}

  lemma OkRest(w: World)
    requires Locks(w) && Volumes(w) && Allowed(w) && PushInv(w) && LabelInv(w) && MarksInv(w) && Pushing(w)
    ensures var w' := EndOk(w);
            Locks(w') && Volumes(w') && Allowed(w') && PushInv(w') && ProofInv(w') && LabelInv(w') && MarksInv(w')
  {}

  lemma OkKeeps(w: World)
    requires Inv(w) && Pushing(w) && Cur(w).push.value.at == |Cur(w).push.value.jobs|
    ensures Inv(EndOk(w))
  {
    OkStates(w);
    OkRest(w);
  }

  lemma NotOkStates(w: World, failure: Option<PushFailure>, cutMid: Option<Pod>)
    requires PushInv(w) && States(w) && Pushing(w)
    ensures States(EndNotOk(w, failure, cutMid))
  {
    var c, r := Cur(w), Run(w);
    var w' := EndNotOk(w, failure, cutMid);
    var after := Run(w').st;
    PutRecTwice(r.st, c.lbl, after.labels[c.lbl], after.labels[c.lbl]);
    assert SaysNoMore(after, r.st);
    SoundMono(w, r.st, after);
    SoundFrame(w, w', after);
    SoundFrame(w, w', r.st);
  }

  lemma NotOkRest(w: World, failure: Option<PushFailure>, cutMid: Option<Pod>)
    requires Locks(w) && Volumes(w) && Allowed(w) && LabelInv(w) && MarksInv(w) && Pushing(w)
    ensures var w' := EndNotOk(w, failure, cutMid);
            Locks(w') && Volumes(w') && Allowed(w') && PushInv(w') && ProofInv(w') && LabelInv(w') && MarksInv(w')
  {}

  lemma NotOkKeeps(w: World, failure: Option<PushFailure>, cutMid: Option<Pod>)
    requires Inv(w) && Pushing(w)
    ensures Inv(EndNotOk(w, failure, cutMid))
  {
    NotOkStates(w, failure, cutMid);
    NotOkRest(w, failure, cutMid);
  }

  /** The run saves a state that claims no more than what it had. */
  lemma SavedStates(w: World, w': World, s: SnapState, s': SnapState)
    requires States(w) && Sound(w, s) && SaysNoMore(s', s) && SameGround(w, w')
    requires w'.disk.pending <= w.disk.pending + {s'}
    requires w'.run.Some? ==> Run(w').st == s' && !OnLabel(w')
    ensures States(w')
  {
    SoundMono(w, s, s');
    forall x | Sound(w, x) ensures Sound(w', x) {
      SoundFrame(w, w', x);
    }
  }

  lemma LabelDoneKeeps(w: World)
    requires Inv(w) && OnLabel(w) && !Pushing(w)
    ensures Inv(EndLabel(w))
  {
    var c, r := Cur(w), Run(w);
    var s := PutRec(r.st, c.lbl, c.rec);
    assert SaysNoMore(Run(EndLabel(w)).st, s);
    SavedStates(w, EndLabel(w), s, Run(EndLabel(w)).st);
  }

  lemma SettleKeeps(w: World)
    requires Inv(w) && Syncing(w) && !OnLabel(w)
    ensures Inv(EndRun(w))
  {
    var r := Run(w);
    SettleSaysNoMore(r.st, r.charges, r.okPods, r.baselineOk);
    SavedStates(w, EndRun(w), r.st, EndRun(w).disk.file);
  }

  lemma BeginStates(w: World, listed: set<Pod>, staff: set<Pod>)
    requires Volumes(w) && States(w)
    ensures States(BeginSync(w, w.arch.mounted, listed, staff))
  {
    var w' := BeginSync(w, w.arch.mounted, listed, staff);
    forall s | Sound(w, s) ensures Sound(w', s) {
      SoundFrame(w, w', s);
    }
    assert Sound(w, w.disk.file);
    if w.disk.file.volume == Some(w.arch.mounted) {
      assert SaysNoMore(Run(w').st, w.disk.file);
      SoundMono(w, w.disk.file, Run(w').st);
    }
  }

  lemma BeginKeeps(w: World, listed: set<Pod>, staff: set<Pod>)
    requires Inv(w) && w.snapLock == Free
    ensures Inv(BeginSync(w, w.arch.mounted, listed, staff))
  {
    BeginStates(w, listed, staff);
  }

  lemma BaselineKeeps(w: World, ok: bool, wide: bool)
    requires Inv(w) && Syncing(w) && !OnLabel(w)
    ensures Inv(EndBaseline(w, ok, wide))
  {
    assert SaysNoMore(Run(w).st, Run(w).st);
    SavedStates(w, EndBaseline(w, ok, wide), Run(w).st, Run(w).st);
  }

  lemma LabelBeginKeeps(w: World, lbl: Label, pods: seq<Pod>, forced: bool)
    requires Inv(w) && SyncEnabled(w, LabelBegin(lbl, pods, forced))
    ensures Inv(BeginLabel(w, lbl, pods, forced))
  {
    var r := Run(w);
    var w' := BeginLabel(w, lbl, pods, forced);
    RotatedIsPermutation(Filter(pods, if forced then {} else RecordOf(r.st, lbl).givenUp), RecordOf(r.st, lbl).cutOff);
    LabelBeginStates(w, lbl, pods, forced);
  }

  lemma LabelBeginStates(w: World, lbl: Label, pods: seq<Pod>, forced: bool)
    requires States(w) && Syncing(w) && !OnLabel(w)
    ensures States(BeginLabel(w, lbl, pods, forced))
  {
    var r := Run(w);
    var w' := BeginLabel(w, lbl, pods, forced);
    var after := PutRec(r.st, lbl, Cur(w').rec);
    assert SaysNoMore(after, r.st);
    SoundMono(w, r.st, after);
    forall s | Sound(w, s) ensures Sound(w', s) {
      SoundFrame(w, w', s);
    }
  }

  /** A sync that is killed mid-push leaves an rsync; what that may write is recorded in the one state
      a power loss can bring back. */
  lemma DeadStates(w: World, stray: bool)
    requires PushInv(w) && States(w) && Syncing(w)
    ensures States(EndDead(w, stray))
  {
    var w' := EndDead(w, stray);
    forall s | s in w.disk.pending ensures Sound(w', s) {
      assert Sound(w, s);
      forall f | f in w.local ensures Settled(w', f) <==> Settled(w, f) {}
      forall l, p | FinalHolds(w, l, p) ensures FinalHolds(w', l, p) {}
    }
  }

  lemma DeadRest(w: World, stray: bool)
    requires Locks(w) && Volumes(w) && Allowed(w) && PushInv(w) && MarksInv(w) && Syncing(w)
    ensures var w' := EndDead(w, stray);
            Locks(w') && Volumes(w') && Allowed(w') && PushInv(w') && ProofInv(w') && LabelInv(w') && MarksInv(w')
  {}

  lemma DeadKeeps(w: World, stray: bool)
    requires Inv(w) && Syncing(w)
    ensures Inv(EndDead(w, stray))
  {
    DeadStates(w, stray);
    DeadRest(w, stray);
  }

  // ---- forget, unforget ------------------------------------------------------------------------

  /** A step that only moves the forgets, the locks and the clock. */
  lemma AsideStates(w: World, w': World)
    requires States(w) && SameGround(w, w') && w'.run == w.run && w'.disk.pending <= w.disk.pending
    ensures States(w')
  {
    StatesFrame(w, w');
  }

  lemma ForgetSaveKeeps(w: World, dirs: set<Pod>)
    requires Inv(w) && w.op == Idle
    ensures Inv(BeginForget(w, dirs))
  {
    AsideStates(w, BeginForget(w, dirs));
    ProofFrame(w, BeginForget(w, dirs));
  }

  lemma OpMovesKeeps(w: World, op: Op, snapLock: Owner, bigLock: Owner)
    requires Inv(w) && w.op != Idle && op != Idle
    requires snapLock == w.snapLock || (w.snapLock == Free && snapLock == ByOp)
    requires bigLock == w.bigLock || (w.bigLock == Free && bigLock == ByOp)
    requires snapLock == ByOp <==> OpHoldsSnap(op)
    requires bigLock == ByOp <==> OpHoldsBig(op)
    requires w.op.Forget? ==> op.Forget? && op.dirs == w.op.dirs
                              && (op.phase == Deleted || op.phase == Cleared ==> HoldsNoSnap(w, op.dirs))
                              && (OpHoldsBig(op) ==> NoStrayOf(w, op.dirs))
    requires w.op.Unforget? ==> op.Unforget? && op.deleted == w.op.deleted
    ensures Inv(w.(op := op, snapLock := snapLock, bigLock := bigLock))
  {
    var w' := w.(op := op, snapLock := snapLock, bigLock := bigLock);
    AsideStates(w, w');
    ProofFrame(w, w');
  }

  lemma GoneStates(w: World, f: Path)
    requires States(w)
    ensures States(Gone(w, f))
  {
    forall s | Sound(w, s) ensures Sound(Gone(w, f), s) {
      SoundGone(w, f, s);
    }
  }

  lemma GoneProof(w: World, f: Path)
    requires ProofInv(w)
    ensures ProofInv(Gone(w, f))
  {
    var w' := Gone(w, f);
    forall g | g in w.local ensures Settled(w, g) ==> Settled(w', g) {
      if Settled(w, g) {
        GoneSettles(w, f, g);
      }
    }
    assert Pushing(w) && Proves(w') ==> Proves(w);
  }

  /** A file may be removed at any moment, by a delete that runs or by one left over. */
  lemma GoneKeeps(w: World, f: Path)
    requires Inv(w)
    ensures Inv(Gone(w, f))
  {
    GoneStates(w, f);
    GoneProof(w, f);
  }

  lemma BigKeeps(w: World, big: map<BigPath, string>)
    requires Inv(w)
    ensures Inv(w.(arch := w.arch.(big := big)))
  {
    AsideStates(w, w.(arch := w.arch.(big := big)));
    ProofFrame(w, w.(arch := w.arch.(big := big)));
  }

  /** Clearing a deleted pod's pushes: nothing of it is on the archive, nor still to be written. */
  lemma ClearKeeps(w: World, dirs: set<Pod>)
    requires Inv(w) && w.run == None && HoldsNoSnap(w, dirs) && NoStrayOf(w, dirs)
    ensures Inv(ClearPushes(w, dirs))
  {
    var w' := ClearPushes(w, dirs);
    var after := ForgetPushes(w.disk.file, dirs);
    assert Sound(w, w.disk.file);
    assert forall l, p | Final(after, l, p) :: Final(w.disk.file, l, p);
    assert Sound(w, after);
    forall s | Sound(w, s) ensures Sound(w', s) {
      SoundFrame(w, w', s);
    }
  }

  lemma ReportKeeps(w: World)
    requires Inv(w) && OpEnabled(w, ForgetReport)
    ensures Inv(Report(w))
  {
    AsideStates(w, Report(w));
    ProofFrame(w, Report(w));
    assert MarkDeleted(w.disk.forgotten, w.op.dirs).Keys == w.disk.forgotten.Keys;
  }

  lemma AskKeeps(w: World, dirs: set<Pod>)
    requires Inv(w) && w.op == Idle
    ensures Inv(BeginUnforget(w, dirs))
  {
    AsideStates(w, BeginUnforget(w, dirs));
    ProofFrame(w, BeginUnforget(w, dirs));
  }

  lemma TakenBackKeeps(w: World)
    requires Inv(w) && OpEnabled(w, UnforgetSave)
    ensures Inv(TakeBack(w))
  {
    AsideStates(w, TakeBack(w));
    ProofFrame(w, TakeBack(w));
  }

  lemma OpEndsKeeps(w: World)
    requires Inv(w) && w.op != Idle
    ensures Inv(OpEnds(w))
  {
    AsideStates(w, OpEnds(w));
    ProofFrame(w, OpEnds(w));
  }

  lemma OpDeadKeeps(w: World, stray: bool)
    requires Inv(w) && w.op != Idle
    ensures Inv(OpDead(w, stray))
  {
    AsideStates(w, OpDead(w, stray));
    ProofFrame(w, OpDead(w, stray));
  }

  // ---- time, the pulls, the big sync, `up`, the power -------------------------------------------

  lemma TickKeeps(w: World, t: nat)
    requires Inv(w) && t >= w.now
    ensures Inv(w.(now := t))
  {
    AsideStates(w, w.(now := t));
    ProofFrame(w, w.(now := t));
  }

  predicate PulledOrPruned(w: World, local: Tree, f: Path) {
    (f in local && local == w.local[f := local[f]] && !Over(f.lbl, w.start, w.now)) || local == w.local - {f}
  }

  lemma LocalStates(w: World, local: Tree, f: Path)
    requires States(w) && PulledOrPruned(w, local, f)
    ensures States(w.(local := local))
  {
    var w' := w.(local := local);
    forall l, p | FinalHolds(w, l, p) ensures FinalHolds(w', l, p) {
      forall g | g in w'.local && IsOf(g, l, p) && Storable(w'.local[g]) ensures Settled(w', g) {
        assert Settled(w, g);
      }
    }
  }

  lemma LocalProof(w: World, local: Tree, f: Path)
    requires ProofInv(w) && LabelInv(w) && PushInv(w) && PulledOrPruned(w, local, f)
    ensures ProofInv(w.(local := local))
  {
    var w' := w.(local := local);
    if Pushing(w') && Proves(w') {
      assert Proves(w);
      forall g | g in local && IsOf(g, Cur(w).lbl, Cur(w).push.value.pod)
        ensures g in w.local && local[g] == w.local[g] && (Settled(w', g) <==> Settled(w, g))
      {}
    }
  }

  lemma LocalKeeps(w: World, local: Tree, f: Path)
    requires Inv(w) && PulledOrPruned(w, local, f)
    ensures Inv(w.(local := local))
  {
    LocalStates(w, local, f);
    LocalProof(w, local, f);
  }

  lemma BigLockKeeps(w: World, owner: Owner, allowed: set<Pod>, big: set<Pod>)
    requires Inv(w) && w.bigLock != ByOp && owner != ByOp && (owner == Free ==> allowed == {})
    ensures Inv(w.(bigLock := owner, bigAllowed := allowed, strays := w.strays.(big := big)))
  {
    var w' := w.(bigLock := owner, bigAllowed := allowed, strays := w.strays.(big := big));
    AsideStates(w, w');
    ProofFrame(w, w');
  }

  lemma DeletesKeeps(w: World, deletes: set<Pod>)
    requires Inv(w)
    ensures Inv(w.(strays := w.strays.(deletes := deletes)))
  {
    AsideStates(w, w.(strays := w.strays.(deletes := deletes)));
    ProofFrame(w, w.(strays := w.strays.(deletes := deletes)));
  }

  lemma CreateKeeps(w: World, cloud: Volume, made: bool)
    requires Inv(w) && ((cloud > w.arch.cloud && made) || (cloud == w.arch.cloud && !made))
    ensures Inv(w.(arch := w.arch.(cloud := cloud, made := made)))
  {
    AsideStates(w, w.(arch := w.arch.(cloud := cloud, made := made)));
    ProofFrame(w, w.(arch := w.arch.(cloud := cloud, made := made)));
  }

  lemma SetUpKeeps(w: World)
    requires Inv(w) && ((w.run == None && w.strays.snap == {}) || w.arch.cloud == w.arch.mounted)
    ensures Inv(OutsideApply(w, SetUp))
  {
    if w.arch.cloud == w.arch.mounted {
      assert OutsideApply(w, SetUp) == w;
    } else {
      NewVolume(w);
    }
  }

  lemma NewVolume(w: World)
    requires Inv(w) && w.run == None && w.strays.snap == {} && w.arch.cloud != w.arch.mounted
    ensures Inv(w.(arch := w.arch.(mounted := w.arch.cloud, remote := map[])))
  {
    var w' := w.(arch := w.arch.(mounted := w.arch.cloud, remote := map[]));
    forall s | s in w.disk.pending ensures s.volume != Some(w'.arch.mounted) {
      assert NamesMountedOrEarlier(s, w.arch.mounted);
    }
  }

  lemma MarkKeeps(w: World)
    requires Inv(w) && OutsideEnabled(w, MarkBorn)
    ensures Inv(MarkBornEmpty(w))
  {
    var w' := MarkBornEmpty(w);
    if w.disk.file.volume == Some(w.arch.mounted) {
      AsideStates(w, w');
    } else {
      assert w.arch.remote == map[] && w.run == None && w.strays.snap == {};
      assert Sound(w', w'.disk.file);
    }
  }

  lemma PowerLossKeeps(w: World, st: SnapState, fg: Forgotten)
    requires Inv(w) && st in w.disk.pending && fg in w.disk.pendingForgotten
    ensures Inv(LosePower(w, st, fg))
  {
    StatesFrame(w, LosePower(w, st, fg));
  }

  // ---- what outlived its command ------------------------------------------------------------------

  lemma ReadsKeeps(w: World, x: Stray, f: Path)
    requires Inv(w) && StrayEnabled(w, Reads(x, f))
    ensures Inv(Reading(w, x, f))
  {
    var w' := Reading(w, x, f);
    var x' := x.(read := x.read[f := w.local[f]]);
    forall s | Sound(w, s) ensures Sound(w', s) {
      forall g | g in w.local ensures Settled(w', g) <==> Settled(w, g) {}
      forall l, p | FinalHolds(w, l, p) ensures FinalHolds(w', l, p) {}
    }
    ReadsProof(w, x, f);
  }

  lemma ReadsProof(w: World, x: Stray, f: Path)
    requires ProofInv(w) && x in w.strays.snap && f in w.local
    ensures ProofInv(Reading(w, x, f))
  {
    var w' := Reading(w, x, f);
    if Pushing(w') && Proves(w') {
      assert Proves(w);
      forall g | g in w.local ensures Settled(w', g) <==> Settled(w, g) {}
    }
  }

  lemma StrayWritesStates(w: World, x: Stray, f: Path, stamp: nat)
    requires States(w) && MarksInv(w) && StrayEnabled(w, Writes(x, f, stamp))
    ensures States(StrayApply(w, Writes(x, f, stamp)))
  {
    forall s | Sound(w, s) ensures Sound(Put(w, x.job.compare, f, x.read[f], stamp), s) {
      assert s.volume == Some(w.arch.mounted) && s.bornEmpty ==> Recorded(s, x.lbl, x.pod);
      SoundPut(w, x.job.compare, f, x.read[f], stamp, s);
    }
  }

  lemma StrayWritesProof(w: World, x: Stray, f: Path, stamp: nat)
    requires ProofInv(w) && MarksInv(w) && StrayEnabled(w, Writes(x, f, stamp))
    ensures ProofInv(StrayApply(w, Writes(x, f, stamp)))
  {
    var w' := Put(w, x.job.compare, f, x.read[f], stamp);
    if Pushing(w') && Proves(w') {
      assert Proves(w);
      forall g | g in w.local
        ensures Settled(w, g) ==> Settled(w', g)
        ensures g != f ==> (OnArchive(w', g) <==> OnArchive(w, g)) && (g in w'.arch.remote <==> g in w.arch.remote)
      {
        PutSettles(w, x.job.compare, f, x.read[f], stamp, g);
      }
    }
  }

  lemma StrayWritesKeeps(w: World, x: Stray, f: Path, stamp: nat)
    requires Inv(w) && StrayEnabled(w, Writes(x, f, stamp))
    ensures Inv(StrayApply(w, Writes(x, f, stamp)))
  {
    StrayWritesStates(w, x, f, stamp);
    StrayWritesProof(w, x, f, stamp);
    TransferOne(x.job.compare, w.arch.remote, f, x.read[f], stamp);
  }

  lemma EndsKeeps(w: World, x: Stray)
    requires Inv(w)
    ensures Inv(StrayApply(w, Ends(x)))
  {
    AsideStates(w, StrayApply(w, Ends(x)));
    ProofFrame(w, StrayApply(w, Ends(x)));
  }

  lemma StrayKeeps(w: World, s: StrayStep)
    requires Inv(w) && StrayEnabled(w, s)
    ensures Inv(StrayApply(w, s))
  {
    match s
    case Reads(x, f) => ReadsKeeps(w, x, f);
    case Writes(x, f, stamp) => StrayWritesKeeps(w, x, f, stamp);
    case Ends(x) => EndsKeeps(w, x);
    case WritesBig(b, bytes) => BigKeeps(w, w.arch.big[b := bytes]);
    case EndsBig(p) => BigStraysKeeps(w, w.strays.big - {p});
    case Removes(f) => GoneKeeps(w, f);
    case RemovesBig(b) => BigKeeps(w, w.arch.big - {b});
    case EndsDelete(p) => DeletesKeeps(w, w.strays.deletes - {p});
  }

  lemma BigStraysKeeps(w: World, big: set<Pod>)
    requires Inv(w)
    ensures Inv(w.(strays := w.strays.(big := big)))
  {
    AsideStates(w, w.(strays := w.strays.(big := big)));
    ProofFrame(w, w.(strays := w.strays.(big := big)));
  }

  // ---- every step -----------------------------------------------------------------------------

  predicate OfOnePush(s: SyncStep) {
    s.PodStart? || s.Write? || s.JobDone? || s.PodOk? || s.PodCut? || s.PodFail?
  }

  lemma PushStepsKeep(w: World, s: SyncStep)
    requires Inv(w) && SyncEnabled(w, s) && OfOnePush(s)
    ensures Inv(SyncApply(w, s))
  {
    match s
    case PodStart(chain, hasLinks) => StartKeeps(w, chain, hasLinks);
    case Write(f, stamp) => WriteKeeps(w, f, stamp);
    case JobDone => JobDoneKeeps(w);
    case PodOk => OkKeeps(w);
    case PodCut => NotOkKeeps(w, None, if Cur(w).cutMid.Some? then Cur(w).cutMid else Some(Cur(w).push.value.pod));
    case PodFail(cls) => NotOkKeeps(w, Some(cls), Cur(w).cutMid);
  }

  /** A pod of the label is left where it is. */
  predicate PassesOver(s: SyncStep) {
    s.PodLeftOut? || s.PodHeld? || s.PodNoTime?
  }

  lemma PassesKeep(w: World, s: SyncStep)
    requires Inv(w) && SyncEnabled(w, s) && PassesOver(s)
    ensures Inv(SyncApply(w, s))
  {
    match s
    case PodLeftOut => PassOverKeeps(w, LeaveOut(w));
    case PodHeld(chain, hasLinks) => PassOverKeeps(w, Hold(w));
    case PodNoTime => PassOverKeeps(w, NoTime(w));
  }

  /** A step of the run, or of a label's turn. */
  predicate Turns(s: SyncStep) {
    s.Begin? || s.Baseline? || s.LabelBegin? || s.LabelDone? || s.Settle? || s.Dies?
  }

  lemma TurnsKeep(w: World, s: SyncStep)
    requires Inv(w) && SyncEnabled(w, s) && (s.Begin? ==> s.dev == w.arch.mounted) && Turns(s)
    ensures Inv(SyncApply(w, s))
  {
    match s
    case Begin(dev, listed, staff) => BeginKeeps(w, listed, staff);
    case Baseline(ok, wide) => BaselineKeeps(w, ok, wide);
    case LabelBegin(lbl, pods, forced) => LabelBeginKeeps(w, lbl, pods, forced);
    case LabelDone => LabelDoneKeeps(w);
    case Settle => SettleKeeps(w);
    case Dies(stray) => DeadKeeps(w, stray);
  }

  lemma SyncKeeps(w: World, s: SyncStep)
    requires Inv(w) && SyncEnabled(w, s) && (s.Begin? ==> s.dev == w.arch.mounted)
    ensures Inv(SyncApply(w, s))
  {
    if Turns(s) {
      TurnsKeep(w, s);
    } else if PassesOver(s) {
      PassesKeep(w, s);
    } else {
      PushStepsKeep(w, s);
    }
  }

  lemma ForgetKeeps(w: World, s: OpStep)
    requires Inv(w) && OpEnabled(w, s) && w.op.Forget? && !s.OpDies? && (s.ForgetLockBig? ==> NoStrayOf(w, w.op.dirs))
    ensures Inv(OpApply(w, s))
  {
    match s
    case ForgetNothing => OpEndsKeeps(w);
    case ForgetLockSnap => OpMovesKeeps(w, w.op.(phase := HasSnap), ByOp, w.bigLock);
    case ForgetLockBig => OpMovesKeeps(w, w.op.(phase := HasBoth), w.snapLock, ByOp);
    case ForgetRemove(f) => GoneKeeps(w, f);
    case ForgetRemoveBig(b) => BigKeeps(w, w.arch.big - {b});
    case ForgetRemoved => OpMovesKeeps(w, w.op.(phase := Deleted), w.snapLock, w.bigLock);
    case ForgetClear(ok) =>
      if ok { ClearKeeps(w, w.op.dirs); }
      OpMovesKeeps(if ok then ClearPushes(w, w.op.dirs) else w, w.op.(phase := Cleared), w.snapLock, w.bigLock);
    case ForgetReport => ReportKeeps(w);
  }

  lemma UnforgetKeeps(w: World, s: OpStep)
    requires Inv(w) && OpEnabled(w, s) && w.op.Unforget? && !s.OpDies?
    ensures Inv(OpApply(w, s))
  {
    match s
    case UnforgetLock => OpMovesKeeps(w, w.op.(turn := Locked), ByOp, ByOp);
    case UnforgetClear =>
      ClearKeeps(w, w.op.deleted);
      OpMovesKeeps(ClearPushes(w, w.op.deleted), w.op.(turn := Emptied), w.snapLock, w.bigLock);
    case UnforgetSave => TakenBackKeeps(w);
  }

  lemma OpKeeps(w: World, s: OpStep)
    requires Inv(w) && OpEnabled(w, s) && (s.ForgetLockBig? ==> NoStrayOf(w, w.op.dirs))
    ensures Inv(OpApply(w, s))
  {
    if s.OpDies? {
      OpDeadKeeps(w, s.stray);
    } else if w.op.Forget? {
      ForgetKeeps(w, s);
    } else if w.op.Unforget? {
      UnforgetKeeps(w, s);
    } else if s.ForgetSave? {
      ForgetSaveKeeps(w, s.dirs);
    } else {
      AskKeeps(w, s.dirs);
    }
  }

  lemma OutsideKeeps(w: World, s: OutsideStep)
    requires Inv(w) && OutsideEnabled(w, s) && Fresh(w, Outside(s))
    ensures Inv(OutsideApply(w, s))
  {
    match s
    case Tick(t) => TickKeeps(w, t);
    case Pull(f, e, began) =>
      PulledIsOpen(f.lbl, w.start, began, w.now);
      LocalKeeps(w, w.local[f := e], f);
    case Prune(f) => LocalKeeps(w, w.local - {f}, f);
    case BigBegin(listed, staff, ever) =>
      BigLockKeeps(w, BySync, PushSet(listed, staff, ever, w.disk.forgotten), w.strays.big);
    case BigWrite(b, bytes) => BigKeeps(w, w.arch.big[b := bytes]);
    case BigEnds => BigLockKeeps(w, Free, {}, w.strays.big);
    case BigDies(p) => BigLockKeeps(w, Free, {}, w.strays.big + {p});
    case CreateVolume(v) => CreateKeeps(w, v, true);
    case SetUp => SetUpKeeps(w);
    case MarkBorn => MarkKeeps(w);
    case UpDies => CreateKeeps(w, w.arch.cloud, false);
    case PowerLoss(st, fg) => PowerLossKeeps(w, st, fg);
  }

  lemma StepKeeps(w: World, s: Step)
    requires Inv(w) && Enabled(w, s) && Fresh(w, s)
    ensures Inv(Apply(w, s))
  {
    match s
    case Sync(a) => SyncKeeps(w, a);
    case Operator(a) => OpKeeps(w, a);
    case Outside(a) => OutsideKeeps(w, a);
    case Astray(a) => StrayKeeps(w, a);
  }
}

/** Every step keeps the locks and their owners together. */
module ArchiveLocks {
  import opened Wrappers
  import opened ArchiveState
  import opened ArchiveWorld
  import opened ArchiveInvariant

  predicate IsPodStep(s: SyncStep) {
    s.PodLeftOut? || s.PodHeld? || s.PodNoTime? || s.PodStart? || s.Write? || s.JobDone? || s.PodOk?
  }

  lemma PodStepKeepsLocks(w: World, s: SyncStep)
    requires Locks(w) && SyncEnabled(w, s) && IsPodStep(s)
    ensures Locks(SyncApply(w, s))
  {}

  lemma PushEndKeepsLocks(w: World, failure: Option<PushFailure>, cutMid: Option<Pod>)
    requires Locks(w) && Pushing(w)
    ensures Locks(EndNotOk(w, failure, cutMid))
  {}

  lemma RunEndKeepsLocks(w: World, stray: bool)
    requires Locks(w) && Syncing(w)
    ensures Locks(EndRun(w)) && Locks(EndDead(w, stray))
  {}

  lemma LabelStepKeepsLocks(w: World, s: SyncStep)
    requires Locks(w) && SyncEnabled(w, s) && (s.Begin? || s.Baseline? || s.LabelBegin? || s.LabelDone?)
    ensures Locks(SyncApply(w, s))
  {}

  lemma SyncKeepsLocks(w: World, s: SyncStep)
    requires Locks(w) && SyncEnabled(w, s)
    ensures Locks(SyncApply(w, s))
  {
    match s
    case Settle => RunEndKeepsLocks(w, false);
    case Dies(stray) => RunEndKeepsLocks(w, stray);
    case PodCut =>
      PushEndKeepsLocks(w, None, if Cur(w).cutMid.Some? then Cur(w).cutMid else Some(Cur(w).push.value.pod));
    case PodFail(cls) => PushEndKeepsLocks(w, Some(cls), Cur(w).cutMid);
    case _ =>
      if IsPodStep(s) {
        PodStepKeepsLocks(w, s);
      } else {
        LabelStepKeepsLocks(w, s);
      }
  }

  lemma OpKeepsLocks(w: World, s: OpStep)
    requires Locks(w) && OpEnabled(w, s)
    ensures Locks(OpApply(w, s))
  {}

  lemma OutsideKeepsLocks(w: World, s: OutsideStep)
    requires Locks(w) && OutsideEnabled(w, s)
    ensures Locks(OutsideApply(w, s))
  {}

  lemma StrayKeepsLocks(w: World, s: StrayStep)
    requires Locks(w) && StrayEnabled(w, s)
    ensures Locks(StrayApply(w, s))
  {}

  lemma StepKeepsLocks(w: World, s: Step)
    requires Locks(w) && Enabled(w, s)
    ensures Locks(Apply(w, s))
  {
    match s
    case Sync(a) => SyncKeepsLocks(w, a);
    case Operator(a) => OpKeepsLocks(w, a);
    case Outside(a) => OutsideKeepsLocks(w, a);
    case Astray(a) => StrayKeepsLocks(w, a);
  }
}

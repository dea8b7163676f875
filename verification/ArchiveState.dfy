/** The archive's sync state and the pure rules over it: which push a pod gets, what a push
    records before and after it runs, when a label is final, and when a stuck pod is settled.
    (crates/core/src/archive/state.rs and sync.rs) */
module ArchiveState {
  import opened Wrappers

  type Pod = string
  type Volume = nat

  /** A `wNdM` snapshot label, or a custom one (`pods pull --label mylabel`). */
  datatype Label = Dated(week: nat, day: nat) | Custom(name: string)

  const GRACE_SECS: nat := 7200
  const GIVE_UP_AFTER: nat := 3
  const DAY_SECS: nat := 86400

  /** What the archive holds of one label. */
  datatype LabelRecord = LabelRecord(
    okStarted: nat,
    okFinished: nat,
    linked: bool,
    podsOk: set<Pod>,
    podsTried: set<Pod>,
    podsLinked: set<Pod>,
    podsFinal: set<Pod>,
    podsSeeding: set<Pod>,
    lastTried: nat,
    fails: map<Pod, nat>,
    givenUp: set<Pod>,
    cutOff: Option<Pod>)

  const EMPTY_RECORD := LabelRecord(0, 0, false, {}, {}, {}, {}, {}, 0, map[], {}, None)

  /** `sync-snap.json`: the fields the push protocol reads. */
  datatype SnapState = SnapState(
    labels: map<Label, LabelRecord>,
    volume: Option<Volume>,
    allowedEver: set<Pod>,
    bornEmpty: bool)

  const EMPTY_STATE := SnapState(map[], None, {}, false)

  /** `forgotten.json`: the forgotten pod dirs, each with whether its archived copy was deleted. */
  type Forgotten = map<Pod, bool>

  datatype PodPush = Seed | Update | Check

  datatype PushFailure =
    | Unreachable | HostKey | AuthDenied | NoSpace | NotMounted | ArchiveIo | Refused | Stalled
    | Timeout | InTheWay | Other

  predicate ArchiveWide(f: PushFailure) {
    f.NoSpace? || f.NotMounted? || f.ArchiveIo? || f.HostKey? || f.AuthDenied? || f.Unreachable? || f.Refused?
        || f.Stalled?
  }

  predicate CountsTowardGiveUp(f: PushFailure) {
    f.Other? || f.InTheWay? || f.Timeout?
  }

  /** When the label's UTC day ends; never for a custom label (or a day before the epoch). */
  function LabelEnd(lbl: Label, start: int): Option<nat> {
    match lbl
    case Custom(_) => None
    case Dated(w, d) =>
      if d < 1 then None
      else
        var end := (start + 7 * w + d) * DAY_SECS;
        if end < 0 then None else Some(end)
  }

  /** A push that started this late may seal the label: its local tree no longer changes. */
  predicate Over(lbl: Label, start: int, now: nat) {
    var end := LabelEnd(lbl, start);
    end.Some? && now >= end.value + GRACE_SECS
  }

  // ---- the clock of the pulls ----------------------------------------------------------------------

  /** The label that a pull without `--label` goes into, begun at this time: the start date is `w0d1`. */
  function LabelAt(start: int, began: nat): Label {
    var days := began / 86_400 - start;
    var diff := if days > 0 then days else 0;
    Dated(diff / 7, diff % 7 + 1)
  }

  /** A pull that began then may write into the label now: it may run up to two hours past the midnight
      that ends its day. Into a custom label it may at any time. */
  predicate PullsInto(lbl: Label, start: int, began: nat, now: nat) {
    && began <= now < (began / 86_400 + 1) * 86_400 + 2 * 3_600
    && (lbl.Custom? || lbl == LabelAt(start, began))
  }

  /** Every time of the day a label stands for, and no other from the start date on, is the label's. */
  lemma LabelIsOfItsDay(week: nat, day: nat, start: int, t: nat)
    requires 1 <= day <= 7 && t / 86_400 >= start
    ensures LabelAt(start, t) == Dated(week, day) <==> t / 86_400 == start + 7 * week + day - 1
  {
    var diff := t / 86_400 - start;
    assert diff == 7 * (diff / 7) + diff % 7;
  }

  /** A label ends when its own day does: after every time of it, and within a day of each. */
  lemma LabelEndsWithItsDay(start: int, t: nat)
    ensures var end := LabelEnd(LabelAt(start, t), start);
            end.Some? && t < end.value && (t / 86_400 >= start ==> end.value <= t + 86_400 && end.value % 86_400 == 0)
  {
    var days := t / 86_400 - start;
    var diff := if days > 0 then days else 0;
    assert 7 * (diff / 7) + diff % 7 == diff;
    assert LabelEnd(LabelAt(start, t), start) == Some((start + diff + 1) * DAY_SECS);
  }

  /** Into a label that is past its day and grace nothing is pulled. */
  lemma PulledIsOpen(lbl: Label, start: int, began: nat, now: nat)
    requires PullsInto(lbl, start, began, now)
    ensures !Over(lbl, start, now)
  {
    if lbl.Dated? {
      LabelEndsWithItsDay(start, began);
      var days := began / 86_400 - start;
      var diff := if days > 0 then days else 0;
      assert 7 * (diff / 7) + diff % 7 == diff;
      assert LabelEnd(lbl, start) == Some((start + diff + 1) * DAY_SECS);
      assert now < (began / 86_400 + 1) * 86_400 + 7_200 <= (start + diff + 1) * DAY_SECS + GRACE_SECS;
    }
  }

  /** And from two hours past the midnight that ends its day on, it may be sealed; a custom one never. */
  lemma OverExactly(lbl: Label, start: int, t: nat, now: nat)
    requires lbl.Dated? ==> lbl == LabelAt(start, t) && t / 86_400 >= start
    ensures Over(lbl, start, now) <==> lbl.Dated? && now >= (t / 86_400 + 1) * 86_400 + 2 * 3_600
  {
    if lbl.Dated? {
      var diff := t / 86_400 - start;
      assert 7 * (diff / 7) + diff % 7 == diff;
      assert LabelEnd(lbl, start) == Some((start + diff + 1) * DAY_SECS);
    }
  }

  function RecordOf(st: SnapState, lbl: Label): LabelRecord {
    if lbl in st.labels then st.labels[lbl] else EMPTY_RECORD
  }

  predicate Sealed(lbl: Label, st: SnapState, start: int, localPods: set<Pod>) {
    lbl in st.labels &&
    var end := LabelEnd(lbl, start);
    var rec := st.labels[lbl];
    && end.Some?
    && rec.okFinished > 0
    && rec.okStarted >= end.value + GRACE_SECS
    && rec.linked
    && forall p | p in localPods :: (p in rec.podsOk && p in rec.podsFinal) || p in rec.givenUp
  }

  function PodPushOf(rec: LabelRecord, pod: Pod, chain: bool, hasLinks: bool, couldSeal: bool, forced: bool): PodPush {
    if forced || pod in rec.podsSeeding then Check
    else if pod !in rec.podsTried then Seed
    else
      var relink := chain && hasLinks && pod !in rec.podsLinked;
      var verify := couldSeal && pod !in rec.podsFinal;
      if relink || verify then Check else Update
  }

  predicate HoldsForPull(how: PodPush, couldSeal: bool) {
    how == Seed && !couldSeal
  }

  function NotePushStart(rec: LabelRecord, pod: Pod, how: PodPush): LabelRecord {
    rec.(podsTried := rec.podsTried + {pod},
         podsSeeding := if how == Seed then rec.podsSeeding + {pod} else rec.podsSeeding)
  }

  function NotePushOk(rec: LabelRecord, pod: Pod, how: PodPush, chain: bool, hasLinks: bool, couldSeal: bool,
                      bornEmpty: bool): LabelRecord {
    var byContent := how != Update;
    var comparedAll := how == Check || (how == Seed && bornEmpty);
    rec.(podsOk := rec.podsOk + {pod},
         fails := rec.fails - {pod},
         givenUp := rec.givenUp - {pod},
         podsLinked := if chain && (byContent || !hasLinks) then rec.podsLinked + {pod} else rec.podsLinked,
         podsSeeding := if byContent then rec.podsSeeding - {pod} else rec.podsSeeding,
         podsFinal := if comparedAll && couldSeal then rec.podsFinal + {pod} else rec.podsFinal)
  }

  function NotePushNotOk(rec: LabelRecord, pod: Pod): LabelRecord {
    rec.(podsOk := rec.podsOk - {pod})
  }

  function FailsOf(rec: LabelRecord, pod: Pod): nat {
    if pod in rec.fails then rec.fails[pod] else 0
  }

  /** A failure that is charged: the pod's own kind, of a push that could have sealed the label. */
  predicate Chargeable(cls: PushFailure, started: nat, end: Option<nat>) {
    end.Some? && CountsTowardGiveUp(cls) && started >= end.value + GRACE_SECS
  }

  function NotePushFailed(rec: LabelRecord, pod: Pod, cls: PushFailure, started: nat, end: Option<nat>): LabelRecord {
    var r := NotePushNotOk(rec, pod);
    if !Chargeable(cls, started, end) then r
    else
      var n := FailsOf(rec, pod) + 1;
      r.(fails := r.fails[pod := n],
         givenUp := if n >= GIVE_UP_AFTER then r.givenUp + {pod} else r.givenUp)
  }

  /** This state if it describes `volume`, else a fresh one for it that keeps the cohort. */
  function ForVolume(st: SnapState, volume: Volume): SnapState {
    if st.volume.Some? && st.volume.value != volume then
      SnapState(map[], Some(volume), st.allowedEver, false)
    else
      st.(volume := Some(volume))
  }

  function Without(r: LabelRecord, dirs: set<Pod>): LabelRecord {
    r.(podsTried := r.podsTried - dirs,
       podsOk := r.podsOk - dirs,
       givenUp := r.givenUp - dirs,
       podsLinked := r.podsLinked - dirs,
       podsFinal := r.podsFinal - dirs,
       podsSeeding := r.podsSeeding - dirs,
       fails := r.fails - dirs,
       cutOff := if r.cutOff.Some? && r.cutOff.value in dirs then None else r.cutOff)
  }

  /** `dirs`' archived copies were deleted: they are out of every label's record. */
  function ForgetPushes(st: SnapState, dirs: set<Pod>): SnapState {
    st.(labels := map l | l in st.labels :: Without(st.labels[l], dirs))
  }

  /** Who may be pushed: the list and everyone ever on it, less the staff and the forgotten. */
  function PushSet(listed: set<Pod>, staff: set<Pod>, ever: set<Pod>, forgotten: Forgotten): set<Pod> {
    listed + ever - staff - forgotten.Keys
  }

  /** `pods` in push order: the one the budget last ran out on first, then the rest in order. */
  function Rotated(pods: seq<Pod>, cutOff: Option<Pod>): seq<Pod> {
    if cutOff.Some? && cutOff.value in pods then
      var i := IndexOf(pods, cutOff.value);
      pods[i..] + pods[..i]
    else pods
  }

  /** What a label's turn made of the cursor: all of the order was reached, or the first that was
      not is where the next run starts. */
  ghost predicate Reaches(pods: seq<Pod>, cutOff: Option<Pod>, reached: nat, next: Option<Pod>) {
    var order := Rotated(pods, cutOff);
    && reached <= |order|
    && (reached < |order| ==> next == Some(order[reached]))
    && (reached == |order| && next.Some? ==> next.value in order)
  }

  function IndexOf(pods: seq<Pod>, p: Pod): (i: nat)
    requires p in pods
    ensures i < |pods| && pods[i] == p
    ensures forall j | 0 <= j < i :: pods[j] != p
  {
    if pods[0] == p then 0 else 1 + IndexOf(pods[1..], p)
  }

  predicate Distinct(pods: seq<Pod>) {
    forall i, j | 0 <= i < j < |pods| :: pods[i] != pods[j]
  }

  function Filter(pods: seq<Pod>, out: set<Pod>): (r: seq<Pod>)
    ensures forall p :: p in r <==> p in pods && p !in out
    ensures Distinct(pods) ==> Distinct(r)
  {
    if pods == [] then []
    else
      var rest := Filter(pods[1..], out);
      assert forall p :: p in pods <==> p == pods[0] || p in pods[1..];
      if pods[0] in out then rest else [pods[0]] + rest
  }

  lemma SplitPermutes(a: seq<Pod>, b: seq<Pod>)
    ensures multiset(b + a) == multiset(a + b)
    ensures forall p :: p in b + a <==> p in a + b
    ensures Distinct(a + b) ==> Distinct(b + a)
  {
    if Distinct(a + b) {
      forall i, j | 0 <= i < j < |b + a| ensures (b + a)[i] != (b + a)[j] {
        var i', j' := if i < |b| then |a| + i else i - |b|, if j < |b| then |a| + j else j - |b|;
        assert (a + b)[i'] == (b + a)[i] && (a + b)[j'] == (b + a)[j];
      }
    }
  }

  /** `Rotated` only reorders: the same pods, and the cut-off pod first. */
  lemma RotatedIsPermutation(pods: seq<Pod>, cutOff: Option<Pod>)
    ensures multiset(Rotated(pods, cutOff)) == multiset(pods)
    ensures cutOff.Some? && cutOff.value in pods ==> Rotated(pods, cutOff)[0] == cutOff.value
    ensures forall p :: p in Rotated(pods, cutOff) <==> p in pods
    ensures Distinct(pods) ==> Distinct(Rotated(pods, cutOff))
  {
    if cutOff.Some? && cutOff.value in pods {
      var i := IndexOf(pods, cutOff.value);
      SplitPermutes(pods[..i], pods[i..]);
      assert pods == pods[..i] + pods[i..];
    }
  }

  /** A label's turn, in one run, that came to its end: over the pods `asked`, from the cursor it found,
      `reached` of them; and the cursor it left. */
  datatype Turn = Turn(run: nat, lbl: Label, asked: seq<Pod>, found: Option<Pod>, reached: nat, next: Option<Pod>)
}

/** The archive protocol as a state machine: the control box's backup tree, the archive's two
    volumes, the state files both as they read now and as a power loss may leave them, and the
    processes (a snap sync, a big sync, forget/unforget, `archive up`) that step between them.
    Everything an `archive sync` decides is decided here by the rules of `ArchiveState`; what the
    outside decides (which label, how long rsync runs, what fails, when anything dies) is a free
    choice carried by the step. */
module ArchiveWorld {
  import opened Wrappers
  import opened ArchiveState

  /** A file of a pod's tree on the control box, and what the push's passes take of it. */
  datatype Entry = Entry(bytes: string, mtime: nat, underCap: bool, inGit: bool, barred: bool)

  datatype Path = Path(lbl: Label, pod: Pod, name: string)

  datatype BigPath = BigPath(pod: Pod, name: string)

  type Tree = map<Path, Entry>

  datatype Pass = Files | Git

  datatype Compare = Quick | NewOnly | Content

  datatype Job = Job(pass: Pass, compare: Compare)

  /** Whether a pass carries the file: `barred` files (secrets, unstorable links) never go. */
  predicate Takes(pass: Pass, e: Entry) {
    !e.barred && if pass == Files then e.underCap else e.inGit
  }

  predicate Storable(e: Entry) {
    Takes(Files, e) || Takes(Git, e)
  }

  /** The rsync runs of one pod's push, in order. */
  function JobsOf(how: PodPush): seq<Job> {
    match how
    case Seed => [Job(Files, NewOnly), Job(Git, NewOnly)]
    case Update => [Job(Files, Quick), Job(Git, Quick)]
    case Check => [Job(Files, Content), Job(Files, Quick), Job(Git, Content), Job(Git, Quick)]
  }

  /** What one rsync run does with one file of the source tree. `stamp` is the mtime a file gets
      from a run that does not set it. */
  function Transfer(compare: Compare, remote: Tree, f: Path, e: Entry, stamp: nat): Tree {
    match compare
    case NewOnly => if f in remote then remote else remote[f := e]
    case Quick =>
      if f in remote && |remote[f].bytes| == |e.bytes| && remote[f].mtime == e.mtime then remote else remote[f := e]
    case Content =>
      if f in remote && remote[f].bytes == e.bytes then remote else remote[f := e.(mtime := stamp)]
  }

  /** One pod's push under way: the rsync run it is at, and the files that run has gone past. */
  datatype Push = Push(pod: Pod, how: PodPush, chain: bool, hasLinks: bool, jobs: seq<Job>, at: nat, seen: set<Path>)

  datatype Charge = Charge(lbl: Label, pod: Pod, cls: PushFailure, started: nat, end: Option<nat>)

  /** One label's turn in a run: over the pods `asked`, of which `reached` have had theirs. */
  datatype LabelRun = LabelRun(
    lbl: Label, started: nat, couldSeal: bool, forced: bool,
    rec: LabelRecord, asked: seq<Pod>, reached: nat, todo: seq<Pod>, push: Option<Push>,
    complete: bool, linked: bool, notStarted: Option<Pod>, cutMid: Option<Pod>)

  /** A snap sync that holds its tier's lock. */
  datatype SnapRun = SnapRun(
    number: nat, allowed: set<Pod>, st: SnapState, visited: set<Label>, cur: Option<LabelRun>,
    okPods: set<Pod>, charges: seq<Charge>, baselineOk: bool, outage: bool)

  /** An rsync that outlived the sync that started it: what it carries, whether its label was past its
      day and grace when it began, and what it has read and not yet written. */
  datatype Stray = Stray(run: nat, lbl: Label, pod: Pod, job: Job, late: bool, read: Tree)

  /** What outlived its command: rsyncs of the snap tier, pods of the big one, and the archive's own
      removing of pods. */
  datatype Strays = Strays(snap: set<Stray>, big: set<Pod>, deletes: set<Pod>)

  datatype Owner = Free | BySync | ByOp

  datatype ForgetPhase = Saved | HasSnap | HasBoth | Deleted | Cleared

  datatype UnforgetPhase = Asked | Locked | Emptied

  /** The one forget or unforget in flight. */
  datatype Op = Idle | Forget(dirs: set<Pod>, phase: ForgetPhase)
      | Unforget(listed: set<Pod>, deleted: set<Pod>, turn: UnforgetPhase)

  /** A push that went through in a run: a pod's of a label, or the baseline's (`None`). */
  datatype Passed = Passed(run: nat, who: Option<(Label, Pod)>)

  /** A push that failed in a run, in a way that is not the archive's own; or that could not be made. */
  datatype Failure = Failure(run: nat, lbl: Label, pod: Pod, cls: PushFailure, started: nat)

  /** What a pod's turn on a label came to. */
  datatype Given = Pushed | LeftOut | Held

  datatype Had = Had(run: nat, lbl: Label, pod: Pod, what: Given)

  /** Why one charge was made: the run, who got through in it, how the push failed and when it began. */
  datatype Evidence = Evidence(run: nat, okPods: set<Pod>, baselineOk: bool, cls: PushFailure, started: nat)

  /** The archive: the snap volume mounted on its host and what it holds, and what its big one
      holds; the snap volume the cloud lists (another one until `up` mounts it), and whether an `up`
      that created it has yet to come to marking its state. */
  datatype Archive = Archive(mounted: Volume, remote: Tree, big: map<BigPath, string>, cloud: Volume, made: bool)

  /** The state files, as they read now and as a power loss may leave them: any version renamed
      into place since the directory was last synced. */
  datatype Disk = Disk(file: SnapState, forgotten: Forgotten, pending: set<SnapState>, pendingForgotten: set<Forgotten>)

  /** History, which decides no step: how many runs there were; whose deletion was reported and not
      taken back; which files were last removed by a delete, or last written with other bytes than the
      control box has; which pushes went through, which failed, and which runs met a failure of the
      archive's; why each charge was made, and how many were when the pod last went through; which
      versions of the state are older than the last push that did; the turns the labels had, and what
      each pod had in them. */
  datatype History = History(
    runs: nat,
    reported: set<Pod>,
    removed: set<Path>,
    stale: set<Path>,
    through: set<Passed>,
    failed: set<Failure>,
    outages: set<nat>,
    hist: map<(Label, Pod), seq<Evidence>>,
    mark: map<(Label, Pod), nat>,
    lag: set<SnapState>,
    turns: seq<Turn>,
    had: set<Had>)

  datatype World = World(
    start: int,
    now: nat,
    local: Tree,
    arch: Archive,
    disk: Disk,
    snapLock: Owner,
    bigLock: Owner,
    run: Option<SnapRun>,
    bigAllowed: set<Pod>,
    op: Op,
    strays: Strays,
    log: History)

  /** A step of the snap sync. */
  datatype SyncStep =
    | Begin(dev: Volume, listed: set<Pod>, staff: set<Pod>)
    | Baseline(ok: bool, wide: bool)
    | LabelBegin(lbl: Label, pods: seq<Pod>, forced: bool)
    | PodLeftOut
    | PodHeld(chain: bool, hasLinks: bool)
    | PodNoTime
    | PodStart(chain: bool, hasLinks: bool)
    | Write(f: Path, stamp: nat)
    | JobDone
    | PodOk
    | PodCut
    | PodFail(cls: PushFailure)
    | LabelDone
    | Settle
    | Dies(stray: bool)

  /** A step of `archive forget --delete-archived` or `archive unforget`. */
  datatype OpStep =
    | ForgetSave(dirs: set<Pod>)
    | ForgetNothing
    | ForgetLockSnap
    | ForgetLockBig
    | ForgetRemove(f: Path)
    | ForgetRemoveBig(b: BigPath)
    | ForgetRemoved
    | ForgetClear(ok: bool)
    | ForgetReport
    | UnforgetAsk(dirs: set<Pod>)
    | UnforgetLock
    | UnforgetClear
    | UnforgetSave
    | OpDies(stray: bool)

  /** A step of what outlived its command. */
  datatype StrayStep =
    | Reads(x: Stray, f: Path)
    | Writes(x: Stray, f: Path, stamp: nat)
    | Ends(x: Stray)
    | WritesBig(b: BigPath, bytes: string)
    | EndsBig(p: Pod)
    | Removes(f: Path)
    | RemovesBig(b: BigPath)
    | EndsDelete(p: Pod)

  /** Time, the pulls, the big sync, `archive up` and the power. */
  datatype OutsideStep =
    | Tick(t: nat)
    | Pull(f: Path, e: Entry, began: nat)
    | Prune(f: Path)
    | BigBegin(listed: set<Pod>, staff: set<Pod>, ever: set<Pod>)
    | BigWrite(b: BigPath, bytes: string)
    | BigEnds
    | BigDies(p: Pod)
    | CreateVolume(v: Volume)
    | SetUp
    | MarkBorn
    | UpDies
    | PowerLoss(st: SnapState, fg: Forgotten)

  datatype Step = Sync(sync: SyncStep) | Operator(op: OpStep) | Outside(outside: OutsideStep)
      | Astray(astray: StrayStep)

  // ---- saving -----------------------------------------------------------------------------

  /** `state::save`: renamed into place; a power loss may still bring an older version back. */
  function Save(w: World, st: SnapState): World {
    w.(disk := w.disk.(file := st, pending := w.disk.pending + {st}), log := w.log.(lag := w.log.lag - {st}))
  }

  /** `state::save_durable`: the directory is synced too, and with it every earlier rename in it. */
  function SaveDurable(w: World, st: SnapState): World {
    w.(disk := Disk(st, w.disk.forgotten, {st}, {w.disk.forgotten}), log := w.log.(lag := {}))
  }

  function SaveForgotten(w: World, fg: Forgotten): World {
    w.(disk := w.disk.(forgotten := fg, pendingForgotten := w.disk.pendingForgotten + {fg}))
  }

  // ---- the snap sync ----------------------------------------------------------------------

  predicate Syncing(w: World) {
    w.run.Some?
  }

  predicate OnLabel(w: World) {
    w.run.Some? && w.run.value.cur.Some?
  }

  predicate Pushing(w: World) {
    OnLabel(w) && Cur(w).push.Some?
  }

  predicate AtPod(w: World) {
    OnLabel(w) && !Pushing(w) && Cur(w).todo != []
  }

  function Run(w: World): SnapRun
    requires Syncing(w)
  {
    w.run.value
  }

  function Cur(w: World): LabelRun
    requires OnLabel(w)
  {
    w.run.value.cur.value
  }

  function WithRun(w: World, r: SnapRun): World {
    w.(run := Some(r))
  }

  function WithCur(w: World, c: LabelRun): World
    requires Syncing(w)
  {
    WithRun(w, Run(w).(cur := Some(c)))
  }

  function PutRec(st: SnapState, lbl: Label, rec: LabelRecord): SnapState {
    st.(labels := st.labels[lbl := rec])
  }

  function BeginSync(w: World, dev: Volume, listed: set<Pod>, staff: set<Pod>): World {
    var st0 := ForVolume(w.disk.file, dev);
    var st := st0.(allowedEver := st0.allowedEver + PushSet(listed, staff, {}, w.disk.forgotten));
    var allowed := PushSet(listed, staff, st.allowedEver, w.disk.forgotten);
    w.(snapLock := BySync, log := w.log.(runs := w.log.runs + 1),
       run := Some(SnapRun(w.log.runs, allowed, st, {}, None, {}, [], false, false)))
  }

  /** The baseline's push went through, or failed (of the archive's own kind: the run stops). */
  function EndBaseline(w: World, ok: bool, wide: bool): World
    requires Syncing(w)
  {
    var r := Run(w);
    Save(WithRun(w, r.(baselineOk := r.baselineOk || ok, outage := r.outage || wide)), r.st).(
      log := w.log.(lag := w.log.lag - {r.st},
                    through := if ok then w.log.through + {Passed(r.number, None)} else w.log.through,
                    outages := if wide then w.log.outages + {r.number} else w.log.outages))
  }

  function BeginLabel(w: World, lbl: Label, pods: seq<Pod>, forced: bool): World
    requires Syncing(w)
  {
    var rec := RecordOf(Run(w).st, lbl).(lastTried := w.now);
    var asked := Filter(pods, if forced then {} else rec.givenUp);
    WithCur(w, LabelRun(lbl, w.now, Over(lbl, w.start, w.now), forced, rec, asked, 0, Rotated(asked, rec.cutOff), None,
                        true, true, None, None))
  }

  function HowOf(c: LabelRun, chain: bool, hasLinks: bool): PodPush
    requires c.todo != []
  {
    PodPushOf(c.rec, c.todo[0], chain, hasLinks, c.couldSeal, c.forced)
  }

  /** The charge that a failure of the pod's own on this label is held back as. */
  function ChargeOf(w: World, pod: Pod, cls: PushFailure): Charge
    requires OnLabel(w)
  {
    Charge(Cur(w).lbl, pod, cls, Cur(w).started, LabelEnd(Cur(w).lbl, w.start))
  }

  /** For the history: what the first pod of the order had. */
  function HadNow(w: World, what: Given): Had
    requires OnLabel(w) && Cur(w).todo != []
  {
    Had(Run(w).number, Cur(w).lbl, Cur(w).todo[0], what)
  }

  function LeaveOut(w: World): World
    requires OnLabel(w) && Cur(w).todo != []
  {
    var c, r := Cur(w), Run(w);
    WithRun(w, r.(charges := r.charges + [ChargeOf(w, c.todo[0], Other)],
                  cur := Some(c.(rec := NotePushNotOk(c.rec, c.todo[0]), reached := c.reached + 1,
                                 todo := c.todo[1..], complete := false)))).(
      log := w.log.(failed := w.log.failed + {Failure(r.number, c.lbl, c.todo[0], Other, c.started)},
                    had := w.log.had + {HadNow(w, LeftOut)}))
  }

  /** The first push of an open label waits for the pull that is running. */
  function Hold(w: World): World
    requires OnLabel(w) && Cur(w).todo != []
  {
    WithCur(w, Cur(w).(reached := Cur(w).reached + 1, todo := Cur(w).todo[1..], complete := false)).(
      log := w.log.(had := w.log.had + {HadNow(w, Held)}))
  }

  /** The label's budget is used up: the first pod it left no time to start is where it goes on. */
  function NoTime(w: World): World
    requires OnLabel(w) && Cur(w).todo != []
  {
    WithCur(w, Cur(w).(notStarted := Some(Cur(w).todo[0]), todo := [], complete := false))
  }

  function StartPush(w: World, chain: bool, hasLinks: bool): World
    requires OnLabel(w) && Cur(w).todo != []
  {
    var c, r := Cur(w), Run(w);
    var pod := c.todo[0];
    var how := HowOf(c, chain, hasLinks);
    var rec := NotePushStart(c.rec, pod, how);
    var st := PutRec(r.st, c.lbl, rec);
    var push := Push(pod, how, chain, hasLinks, JobsOf(how), 0, {});
    SaveDurable(WithRun(w,
        r.(st := st, cur := Some(c.(rec := rec, reached := c.reached + 1, todo := c.todo[1..],
            push := Some(push))))), st).(
      log := w.log.(lag := {}, had := w.log.had + {HadNow(w, Pushed)}))
  }

  predicate Carries(w: World, f: Path)
    requires Pushing(w)
  {
    var p := Cur(w).push.value;
    p.at < |p.jobs| && f in w.local && f.lbl == Cur(w).lbl && f.pod == p.pod && Takes(p.jobs[p.at].pass, w.local[f])
  }

  /** rsync has gone past every file of its pass; in a tree that still changes, past those it listed. */
  predicate JobEnds(w: World)
    requires Pushing(w)
  {
    Cur(w).push.value.at < |Cur(w).push.value.jobs|
    && (Cur(w).couldSeal ==> forall f | f in w.local && Carries(w, f) :: f in Cur(w).push.value.seen)
  }

  /** One file of an rsync run is done: what is on the archive then, and what that says of it. */
  function Put(w: World, compare: Compare, f: Path, e: Entry, stamp: nat): World {
    var remote := Transfer(compare, w.arch.remote, f, e, stamp);
    var same := f in w.local && f in remote && remote[f].bytes == w.local[f].bytes;
    w.(arch := w.arch.(remote := remote),
       log := if same then w.log.(removed := w.log.removed - {f}, stale := w.log.stale - {f})
              else if remote == w.arch.remote then w.log
              else w.log.(removed := w.log.removed - {f}, stale := w.log.stale + {f}))
  }

  function Gone(w: World, f: Path): World {
    w.(arch := w.arch.(remote := w.arch.remote - {f}),
       log := if f in w.arch.remote then w.log.(removed := w.log.removed + {f}, stale := w.log.stale - {f}) else w.log)
  }

  function WriteFile(w: World, f: Path, stamp: nat): World
    requires Pushing(w) && Carries(w, f)
  {
    var c := Cur(w);
    var p := c.push.value;
    Put(WithCur(w, c.(push := Some(p.(seen := p.seen + {f})))), p.jobs[p.at].compare, f, w.local[f], stamp)
  }

  function NextJob(w: World): World
    requires Pushing(w)
  {
    var c := Cur(w);
    var p := c.push.value;
    WithCur(w, c.(push := Some(p.(at := p.at + 1, seen := {}))))
  }

  /** The push went through: recorded, and saved. */
  function EndOk(w: World): World
    requires Pushing(w)
  {
    var c, r := Cur(w), Run(w);
    var p := c.push.value;
    var k := (c.lbl, p.pod);
    var rec := NotePushOk(c.rec, p.pod, p.how, p.chain, p.hasLinks, c.couldSeal, r.st.bornEmpty);
    var st := PutRec(r.st, c.lbl, rec);
    var c' := c.(rec := rec, push := None, linked := c.linked && p.pod in rec.podsLinked);
    Save(WithRun(w, r.(st := st, okPods := r.okPods + {p.pod}, cur := Some(c'))), st).(
      log := w.log.(through := w.log.through + {Passed(r.number, Some(k))},
                    mark := w.log.mark[k := |HistOf(w.log.hist, k)|],
                    lag := w.disk.pending - {st}))
  }

  predicate IsOutage(failure: Option<PushFailure>) {
    failure.Some? && ArchiveWide(failure.value)
  }

  /** What the end of a push that did not go through is charged with: its failure, if it was the pod's. */
  function ChargesOf(w: World, failure: Option<PushFailure>): seq<Charge>
    requires Pushing(w)
  {
    if failure.None? || IsOutage(failure) then [] else [ChargeOf(w, Cur(w).push.value.pod, failure.value)]
  }

  function FailuresOf(w: World, failure: Option<PushFailure>): set<Failure>
    requires Pushing(w)
  {
    if failure.None? || IsOutage(failure) then {}
    else {Failure(Run(w).number, Cur(w).lbl, Cur(w).push.value.pod, failure.value, Cur(w).started)}
  }

  /** The push was cut off, or failed: the pod is not through, and that is saved. */
  function EndNotOk(w: World, failure: Option<PushFailure>, cutMid: Option<Pod>): World
    requires Pushing(w)
  {
    var c, r, wide := Cur(w), Run(w), IsOutage(failure);
    var rec := NotePushNotOk(c.rec, c.push.value.pod);
    var st := PutRec(r.st, c.lbl, rec);
    var c' := c.(rec := rec, push := None, complete := false, cutMid := cutMid);
    Save(WithRun(w, r.(st := st, charges := r.charges + ChargesOf(w, failure), outage := r.outage || wide,
                       cur := if wide then None else Some(c'))), st).(
      log := w.log.(lag := w.log.lag - {st}, failed := w.log.failed + FailuresOf(w, failure),
                    outages := if wide then w.log.outages + {r.number} else w.log.outages))
  }

  function NextCursor(c: LabelRun): Option<Pod> {
    if c.notStarted.Some? then c.notStarted else c.cutMid
  }

  function EndLabel(w: World): World
    requires OnLabel(w)
  {
    var c, r := Cur(w), Run(w);
    var rec0 := c.rec.(cutOff := NextCursor(c));
    var rec := if c.complete
               then rec0.(okStarted := c.started, okFinished := if w.now == 0 then 1 else w.now,
                          linked := c.linked && c.lbl.Dated?)
               else rec0;
    var st := PutRec(r.st, c.lbl, rec);
    Save(WithRun(w, r.(st := st, visited := r.visited + {c.lbl}, cur := None)), st).(
      log := w.log.(lag := w.log.lag - {st},
                    turns := w.log.turns + [Turn(r.number, c.lbl, c.asked, c.rec.cutOff, c.reached, NextCursor(c))]))
  }

  /** Another pod's push, or the baseline's, went through in the run that made the charge. */
  predicate OtherOk(ch: Charge, okPods: set<Pod>, baselineOk: bool) {
    baselineOk || exists p | p in okPods :: p != ch.pod
  }

  function SettleOne(st: SnapState, ch: Charge, okPods: set<Pod>, baselineOk: bool): SnapState {
    if !OtherOk(ch, okPods, baselineOk) then st
    else PutRec(st, ch.lbl, NotePushFailed(RecordOf(st, ch.lbl), ch.pod, ch.cls, ch.started, ch.end))
  }

  function SettleAll(st: SnapState, chs: seq<Charge>, okPods: set<Pod>, baselineOk: bool): SnapState
    decreases |chs|
  {
    if chs == [] then st
    else
      var n := |chs| - 1;
      SettleOne(SettleAll(st, chs[..n], okPods, baselineOk), chs[n], okPods, baselineOk)
  }

  function HistOf(hist: map<(Label, Pod), seq<Evidence>>, k: (Label, Pod)): seq<Evidence> {
    if k in hist then hist[k] else []
  }

  function EvidenceOf(r: SnapRun, ch: Charge): Evidence {
    Evidence(r.number, r.okPods, r.baselineOk, ch.cls, ch.started)
  }

  function HistAfter(hist: map<(Label, Pod), seq<Evidence>>, chs: seq<Charge>, r: SnapRun)
    : map<(Label, Pod), seq<Evidence>>
    decreases |chs|
  {
    if chs == [] then hist
    else
      var n := |chs| - 1;
      var ch := chs[n];
      var h := HistAfter(hist, chs[..n], r);
      if OtherOk(ch, r.okPods, r.baselineOk) && Chargeable(ch.cls, ch.started, ch.end)
      then h[(ch.lbl, ch.pod) := HistOf(h, (ch.lbl, ch.pod)) + [EvidenceOf(r, ch)]]
      else h
  }

  /** The run ends: the charges held back count, unless the archive itself failed in it. */
  function EndRun(w: World): World
    requires Syncing(w)
  {
    var r := Run(w);
    var st := if r.outage then r.st else SettleAll(r.st, r.charges, r.okPods, r.baselineOk);
    var h := if r.outage then w.log.hist else HistAfter(w.log.hist, r.charges, r);
    Save(w, st).(run := None, snapLock := Free, log := w.log.(lag := w.log.lag - {st}, hist := h))
  }

  /** The sync is killed: its lock is free, and its rsync may go on. */
  function EndDead(w: World, stray: bool): World
    requires Syncing(w)
  {
    var left := if stray && Pushing(w) && Cur(w).push.value.at < |Cur(w).push.value.jobs| then
                  var c, p := Cur(w), Cur(w).push.value;
                  {Stray(Run(w).number, c.lbl, p.pod, p.jobs[p.at], c.couldSeal, map[])}
                else {};
    w.(run := None, snapLock := Free, strays := w.strays.(snap := w.strays.snap + left))
  }

  // ---- forget, unforget ---------------------------------------------------------------------

  function Forgetting(fg: Forgotten, dirs: set<Pod>): Forgotten {
    map d | d in fg.Keys + dirs :: if d in fg then fg[d] else false
  }

  function MarkDeleted(fg: Forgotten, dirs: set<Pod>): Forgotten {
    map d | d in fg.Keys :: fg[d] || d in dirs
  }

  function Released(o: Owner): Owner {
    if o == ByOp then Free else o
  }

  function OpEnds(w: World): World {
    w.(op := Idle, snapLock := Released(w.snapLock), bigLock := Released(w.bigLock))
  }

  predicate HoldsNoSnap(w: World, dirs: set<Pod>) {
    forall f | f in w.arch.remote :: f.pod !in dirs
  }

  predicate HoldsNoBig(w: World, dirs: set<Pod>) {
    forall b | b in w.arch.big :: b.pod !in dirs
  }

  function BeginForget(w: World, dirs: set<Pod>): World {
    var fg := if dirs <= w.disk.forgotten.Keys then w.disk.forgotten else Forgetting(w.disk.forgotten, dirs);
    SaveForgotten(w, fg).(op := Forget(dirs, Saved))
  }

  function ClearPushes(w: World, dirs: set<Pod>): World {
    Save(w, ForgetPushes(w.disk.file, dirs))
  }

  function BeginUnforget(w: World, dirs: set<Pod>): World {
    var listed := dirs * w.disk.forgotten.Keys;
    if listed == {} then w
    else w.(op := Unforget(listed, (set d | d in listed && w.disk.forgotten[d]), Asked))
  }

  function MarkBornEmpty(w: World): World {
    if w.disk.file.volume == Some(w.arch.mounted) then w.(arch := w.arch.(made := false))
    else SaveDurable(w, SnapState(map[], Some(w.arch.mounted), w.disk.file.allowedEver, true))
         .(arch := w.arch.(made := false))
  }

  function LosePower(w: World, st: SnapState, fg: Forgotten): World {
    w.(disk := Disk(st, fg, {st}, {fg}), arch := w.arch.(made := false), log := w.log.(lag := {}),
       run := None, op := Idle, snapLock := Free, bigLock := Free, bigAllowed := {},
       strays := Strays({}, {}, w.strays.deletes))
  }

  /** The command is killed, its locks are free; what it had the archive remove goes on. */
  function OpDead(w: World, stray: bool): World {
    var left := if stray && w.op.Forget? && w.op.phase == HasBoth then w.op.dirs else {};
    OpEnds(w).(strays := w.strays.(deletes := w.strays.deletes + left))
  }

  function Report(w: World): World
    requires w.op.Forget?
  {
    OpEnds(SaveForgotten(w, MarkDeleted(w.disk.forgotten, w.op.dirs)))
    .(log := w.log.(reported := w.log.reported + w.op.dirs))
  }

  function TakeBack(w: World): World
    requires w.op.Unforget?
  {
    OpEnds(SaveForgotten(w, w.disk.forgotten - w.op.listed)).(log := w.log.(reported := w.log.reported - w.op.listed))
  }

  // ---- the steps ------------------------------------------------------------------------------

  predicate SyncEnabled(w: World, s: SyncStep) {
    match s
    case Begin(dev, listed, staff) => w.snapLock == Free
    case Baseline(ok, wide) => Syncing(w) && !OnLabel(w) && Run(w).visited == {} && !Run(w).outage && (ok ==> !wide)
    case LabelBegin(lbl, pods, forced) =>
      Syncing(w) && !OnLabel(w) && !Run(w).outage && lbl !in Run(w).visited && Distinct(pods)
          && (forall p | p in pods :: p in Run(w).allowed)
    case PodLeftOut => AtPod(w)
    case PodHeld(chain, hasLinks) => AtPod(w) && HoldsForPull(HowOf(Cur(w), chain, hasLinks), Cur(w).couldSeal)
    case PodNoTime => AtPod(w)
    case PodStart(chain, hasLinks) => AtPod(w)
    case Write(f, stamp) => Pushing(w) && Carries(w, f)
    case JobDone => Pushing(w) && JobEnds(w)
    case PodOk => Pushing(w) && Cur(w).push.value.at == |Cur(w).push.value.jobs|
    case PodCut => Pushing(w)
    case PodFail(cls) => Pushing(w)
    case LabelDone => OnLabel(w) && !Pushing(w) && Cur(w).todo == []
    case Settle => Syncing(w) && !OnLabel(w)
    case Dies(stray) => Syncing(w)
  }

  function SyncApply(w: World, s: SyncStep): World
    requires SyncEnabled(w, s)
  {
    match s
    case Begin(dev, listed, staff) => BeginSync(w, dev, listed, staff)
    case Baseline(ok, wide) => EndBaseline(w, ok, wide)
    case LabelBegin(lbl, pods, forced) => BeginLabel(w, lbl, pods, forced)
    case PodLeftOut => LeaveOut(w)
    case PodHeld(chain, hasLinks) => Hold(w)
    case PodNoTime => NoTime(w)
    case PodStart(chain, hasLinks) => StartPush(w, chain, hasLinks)
    case Write(f, stamp) => WriteFile(w, f, stamp)
    case JobDone => NextJob(w)
    case PodOk => EndOk(w)
    case PodCut =>
      EndNotOk(w, None, if Cur(w).cutMid.Some? then Cur(w).cutMid else Some(Cur(w).push.value.pod))
    case PodFail(cls) => EndNotOk(w, Some(cls), Cur(w).cutMid)
    case LabelDone => EndLabel(w)
    case Settle => EndRun(w)
    case Dies(stray) => EndDead(w, stray)
  }

  predicate OpEnabled(w: World, s: OpStep) {
    match s
    case ForgetSave(dirs) => w.op == Idle
    case ForgetNothing => w.op.Forget? && w.op.phase == Saved && HoldsNoSnap(w, w.op.dirs) && HoldsNoBig(w, w.op.dirs)
    case ForgetLockSnap => w.op.Forget? && w.op.phase == Saved && w.snapLock == Free
    case ForgetLockBig => w.op.Forget? && w.op.phase == HasSnap && w.bigLock == Free
    case ForgetRemove(f) => w.op.Forget? && w.op.phase == HasBoth && f in w.arch.remote && f.pod in w.op.dirs
    case ForgetRemoveBig(b) => w.op.Forget? && w.op.phase == HasBoth && b in w.arch.big && b.pod in w.op.dirs
    case ForgetRemoved => w.op.Forget? && w.op.phase == HasBoth && HoldsNoSnap(w, w.op.dirs) && HoldsNoBig(w, w.op.dirs)
    case ForgetClear(ok) => w.op.Forget? && w.op.phase == Deleted
    case ForgetReport => w.op.Forget? && w.op.phase == Cleared
    case UnforgetAsk(dirs) => w.op == Idle
    case UnforgetLock => w.op.Unforget? && w.op.turn == Asked && w.op.deleted != {} && w.snapLock == Free
        && w.bigLock == Free
    case UnforgetClear => w.op.Unforget? && w.op.turn == Locked
    case UnforgetSave => w.op.Unforget? && (w.op.turn == Emptied || (w.op.turn == Asked && w.op.deleted == {}))
    case OpDies(stray) => w.op != Idle
  }

  function OpApply(w: World, s: OpStep): World
    requires OpEnabled(w, s)
  {
    match s
    case ForgetSave(dirs) => BeginForget(w, dirs)
    case ForgetNothing => OpEnds(w)
    case ForgetLockSnap => w.(snapLock := ByOp, op := w.op.(phase := HasSnap))
    case ForgetLockBig => w.(bigLock := ByOp, op := w.op.(phase := HasBoth))
    case ForgetRemove(f) => Gone(w, f)
    case ForgetRemoveBig(b) => w.(arch := w.arch.(big := w.arch.big - {b}))
    case ForgetRemoved => w.(op := w.op.(phase := Deleted))
    case ForgetClear(ok) => (if ok then ClearPushes(w, w.op.dirs) else w).(op := w.op.(phase := Cleared))
    case ForgetReport => Report(w)
    case UnforgetAsk(dirs) => BeginUnforget(w, dirs)
    case UnforgetLock => w.(snapLock := ByOp, bigLock := ByOp, op := w.op.(turn := Locked))
    case UnforgetClear => ClearPushes(w, w.op.deleted).(op := w.op.(turn := Emptied))
    case UnforgetSave => TakeBack(w)
    case OpDies(stray) => OpDead(w, stray)
  }

  predicate OutsideEnabled(w: World, s: OutsideStep) {
    match s
    case Tick(t) => t >= w.now
    case Pull(f, e, began) => PullsInto(f.lbl, w.start, began, w.now)
    case Prune(f) => true
    case BigBegin(listed, staff, ever) => w.bigLock == Free
    case BigWrite(b, bytes) => w.bigLock == BySync && b.pod in w.bigAllowed
    case BigEnds => w.bigLock == BySync
    case BigDies(p) => w.bigLock == BySync && p in w.bigAllowed
    case CreateVolume(v) => v > w.arch.cloud
    case SetUp => true
    case MarkBorn => w.arch.made && w.arch.cloud == w.arch.mounted && w.snapLock == Free
    case UpDies => true
    case PowerLoss(st, fg) => st in w.disk.pending && fg in w.disk.pendingForgotten
  }

  function OutsideApply(w: World, s: OutsideStep): World
    requires OutsideEnabled(w, s)
  {
    match s
    case Tick(t) => w.(now := t)
    case Pull(f, e, began) => w.(local := w.local[f := e])
    case Prune(f) => w.(local := w.local - {f})
    case BigBegin(listed, staff, ever) =>
        w.(bigLock := BySync, bigAllowed := PushSet(listed, staff, ever, w.disk.forgotten))
    case BigWrite(b, bytes) => w.(arch := w.arch.(big := w.arch.big[b := bytes]))
    case BigEnds => w.(bigLock := Free, bigAllowed := {})
    case BigDies(p) => w.(bigLock := Free, bigAllowed := {}, strays := w.strays.(big := w.strays.big + {p}))
    case CreateVolume(v) => w.(arch := w.arch.(cloud := v, made := true))
    case SetUp =>
      w.(arch := w.arch.(mounted := w.arch.cloud,
                         remote := if w.arch.cloud == w.arch.mounted then w.arch.remote else map[]))
    case MarkBorn => MarkBornEmpty(w)
    case UpDies => w.(arch := w.arch.(made := false))
    case PowerLoss(st, fg) => LosePower(w, st, fg)
  }

  function Reading(w: World, x: Stray, f: Path): World
    requires f in w.local
  {
    w.(strays := w.strays.(snap := w.strays.snap - {x} + {x.(read := x.read[f := w.local[f]])}))
  }

  predicate StrayEnabled(w: World, s: StrayStep) {
    match s
    case Reads(x, f) =>
      x in w.strays.snap && f in w.local && f.lbl == x.lbl && f.pod == x.pod && Takes(x.job.pass, w.local[f])
    case Writes(x, f, stamp) => x in w.strays.snap && f in x.read
    case Ends(x) => true
    case WritesBig(b, bytes) => b.pod in w.strays.big
    case EndsBig(p) => true
    case Removes(f) => f.pod in w.strays.deletes
    case RemovesBig(b) => b.pod in w.strays.deletes
    case EndsDelete(p) => true
  }

  function StrayApply(w: World, s: StrayStep): World
    requires StrayEnabled(w, s)
  {
    match s
    case Reads(x, f) => Reading(w, x, f)
    case Writes(x, f, stamp) => Put(w, x.job.compare, f, x.read[f], stamp)
    case Ends(x) => w.(strays := w.strays.(snap := w.strays.snap - {x}))
    case WritesBig(b, bytes) => w.(arch := w.arch.(big := w.arch.big[b := bytes]))
    case EndsBig(p) => w.(strays := w.strays.(big := w.strays.big - {p}))
    case Removes(f) => Gone(w, f)
    case RemovesBig(b) => w.(arch := w.arch.(big := w.arch.big - {b}))
    case EndsDelete(p) => w.(strays := w.strays.(deletes := w.strays.deletes - {p}))
  }

  predicate Enabled(w: World, s: Step) {
    match s
    case Sync(a) => SyncEnabled(w, a)
    case Operator(a) => OpEnabled(w, a)
    case Outside(a) => OutsideEnabled(w, a)
    case Astray(a) => StrayEnabled(w, a)
  }

  function Apply(w: World, s: Step): World
    requires Enabled(w, s)
  {
    match s
    case Sync(a) => SyncApply(w, a)
    case Operator(a) => OpApply(w, a)
    case Outside(a) => OutsideApply(w, a)
    case Astray(a) => StrayApply(w, a)
  }

  /** Nothing has run yet: no state files, and nothing known of what the volumes hold. */
  predicate Init(w: World) {
    && w.disk.file == EMPTY_STATE && w.disk.pending == {w.disk.file}
    && w.disk.forgotten == map[] && w.disk.pendingForgotten == {w.disk.forgotten}
    && w.snapLock == Free && w.bigLock == Free && w.run == None && w.bigAllowed == {} && w.op == Idle
    && w.arch.cloud == w.arch.mounted && !w.arch.made
    && w.strays == Strays({}, {}, {})
    && w.log.reported == {} && w.log.removed == {} && w.log.stale == {} && w.log.through == {} && w.log.failed == {}
    && w.log.outages == {} && w.log.hist == map[] && w.log.mark == map[] && w.log.lag == {}
    && w.log.turns == [] && w.log.had == {}
  }

  /** What the archive's promises rest on: a sync's `archive.json` names the volume that is mounted;
      `up` mounts another one when no push is under way, nor an rsync left over; and none is left over
      of the pods when their delete has taken its locks. */
  predicate Fresh(w: World, s: Step) {
    && (s.Sync? && s.sync.Begin? ==> s.sync.dev == w.arch.mounted)
    && (s.Outside? && s.outside.SetUp? ==> (w.run == None && w.strays.snap == {}) || w.arch.cloud == w.arch.mounted)
    && (s.Operator? && s.op.ForgetLockBig? && w.op.Forget? ==> NoStrayOf(w, w.op.dirs))
  }

  predicate NoStrayOf(w: World, dirs: set<Pod>) {
    forall x | x in w.strays.snap :: x.pod !in dirs
  }

  ghost predicate Runs(w: World, steps: seq<Step>, w': World)
    decreases |steps|
  {
    if steps == [] then w == w'
    else Enabled(w, steps[0]) && Runs(Apply(w, steps[0]), steps[1..], w')
  }

  lemma {:induction false} RunsAppend(w: World, steps: seq<Step>, w': World, s: Step)
    requires Runs(w, steps, w') && Enabled(w', s)
    ensures Runs(w, steps + [s], Apply(w', s))
    decreases |steps|
  {
    if steps == [] {
      assert [s][1..] == [];
      assert Runs(Apply(w', s), [], Apply(w', s));
      assert steps + [s] == [s];
    } else {
      RunsAppend(Apply(w, steps[0]), steps[1..], w', s);
      assert (steps + [s])[1..] == steps[1..] + [s];
    }
  }
}

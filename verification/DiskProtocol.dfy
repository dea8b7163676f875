/** Any number of runs that admit copies, write them, end or die, at the same time: free space never
    goes under the floor, as long as each is at the notes under their lock. Where no lock is to be
    had a run goes on without one, and two such runs can break the floor. */
module DiskProtocol {
  import opened Wrappers
  import opened DiskLedger
  import opened DiskNotes

  /** A live copy's share of one device: what its run noted, and how much of it is written. */
  datatype Grant = Grant(note: Reservation, written: nat)

  /** A run at the notes: the notes as it loaded and pruned them, the copies it has judged, and what
      it has read for the one it is at. */
  datatype Admission = Admission(
    pid: nat, token: U64, floor: U64, held: seq<Reservation>, copies: seq<Copy>, parts: seq<(Option<Fs>, Size)>)

  /** One admission's name: its process and its token. */
  type Who = (nat, U64)

  /** The box: what is free on each device (as the filesystem says), the notes, the live copies
      (whatever the notes say), and who holds the notes' lock. Without a lock: the runs that judge,
      and the notes that those letting go have loaded and are to save. */
  datatype World = World(
    free: map<Dev, U64>, floor: U64, file: File, live: seq<Grant>, judging: Option<Admission>,
    loose: map<Who, Admission>, letting: map<Who, seq<Reservation>>)

  datatype Step =
    | Lock(pid: nat, token: U64, floor: U64, now: nat, alive: set<nat>)
    | Read(dev: Dev, size: Size)
    | ReadFails(size: Size)
    | JudgeCopy(name: string)
    | Note(now: nat, order: seq<Dev>)
    | Leave
    | Write(i: nat, n: nat)
    | Ends(pid: nat, token: U64)
    | LetGo(pid: nat, token: U64)
    | Frees(dev: Dev, n: nat)
    | LooseLoad(who: Who, floor: U64, now: nat, alive: set<nat>)
    | LooseRead(who: Who, dev: Dev, size: Size)
    | LooseReadFails(who: Who, size: Size)
    | LooseJudge(who: Who, name: string)
    | LooseNote(who: Who, now: nat, order: seq<Dev>)
    | LooseLeave(who: Who)
    | LooseLetGo(who: Who)
    | LooseSave(who: Who)

  function Others(a: Admission): map<Dev, U64> {
    ByDev(a.held)
  }

  /** Its ledger. */
  ghost function LedgerOf(a: Admission): Held {
    HeldBy(a.floor, Others(a), a.copies)
  }

  predicate IsOf(r: Reservation, pid: nat, token: U64) {
    r.pid == pid && r.token == token
  }

  predicate NoneLiveOf(live: seq<Grant>, pid: nat, token: U64) {
    forall g | g in live :: !IsOf(g.note, pid, token)
  }

  function Without(live: seq<Grant>, pid: nat, token: U64): seq<Grant> {
    if live == [] then []
    else
      var n := |live| - 1;
      Without(live[..n], pid, token) + if IsOf(live[n].note, pid, token) then [] else [live[n]]
  }

  function Granted(notes: seq<Reservation>): seq<Grant> {
    seq(|notes|, i requires 0 <= i < |notes| => Grant(notes[i], 0))
  }

  function NotesIn(live: seq<Grant>): seq<Reservation> {
    seq(|live|, i requires 0 <= i < |live| => live[i].note)
  }

  /** What live copies may still write on a device. */
  function Outstanding(live: seq<Grant>, dev: Dev): int {
    if live == [] then 0
    else
      var n := |live| - 1;
      Outstanding(live[..n], dev) + if live[n].note.dev == dev then live[n].note.bytes - live[n].written else 0
  }

  ghost predicate Enabled(w: World, s: Step) {
    match s
    case Lock(pid, token, floor, now, alive) =>
      w.judging == None && Load(w.file).Some? && floor >= w.floor && NoneLiveOf(w.live, pid, token)
    case Read(dev, size) => w.judging.Some? && dev in w.free
    case ReadFails(size) => w.judging.Some?
    case JudgeCopy(name) => w.judging.Some?
    case Note(now, order) => w.judging.Some? && order != [] && Ordered(order, TakenOf(LedgerOf(w.judging.value)))
    case Leave => w.judging.Some?
    case Write(i, n) =>
      i < |w.live| && var g := w.live[i];
        g.written + n <= g.note.bytes && g.note.dev in w.free && n <= w.free[g.note.dev]
    case Ends(pid, token) => true
    case LetGo(pid, token) => w.judging == None && Load(w.file).Some? && NoneLiveOf(w.live, pid, token)
    case Frees(dev, n) => dev in w.free && w.free[dev] + n < U64_MAX
    case LooseLoad(who, floor, now, alive) =>
      who !in w.loose && Load(w.file).Some? && floor >= w.floor && NoneLiveOf(w.live, who.0, who.1)
    case LooseRead(who, dev, size) => who in w.loose && dev in w.free
    case LooseReadFails(who, size) => who in w.loose
    case LooseJudge(who, name) => who in w.loose
    case LooseNote(who, now, order) => who in w.loose && order != [] && Ordered(order, TakenOf(LedgerOf(w.loose[who])))
    case LooseLeave(who) => who in w.loose
    case LooseLetGo(who) => who !in w.letting && Load(w.file).Some? && NoneLiveOf(w.live, who.0, who.1)
    case LooseSave(who) => who in w.letting
  }

  /** A run that comes to the notes: it takes them as they are now, pruned. */
  function Loaded(w: World, pid: nat, token: U64, floor: U64, now: nat, alive: set<nat>): Admission
    requires Load(w.file).Some?
  {
    Admission(pid, token, floor, Prune(Load(w.file).value, now, alive), [], [])
  }

  function HasRead(a: Admission, reading: Option<Fs>, size: Size): Admission {
    a.(parts := a.parts + [(reading, size)])
  }

  function HasJudged(a: Admission, name: string): Admission {
    a.(copies := a.copies + [Copy(name, a.parts)], parts := [])
  }

  /** It saves the notes it loaded, with its own, and starts its copies. */
  ghost function NotedBy(w: World, a: Admission, now: nat, order: seq<Dev>): World
    requires forall d | d in order :: d in TakenOf(LedgerOf(a))
  {
    var notes := NotesOf(a.pid, a.token, TakenOf(LedgerOf(a)), now, order);
    w.(file := Written(a.held + notes), live := w.live + Granted(notes))
  }

  ghost function NoteIt(w: World, now: nat, order: seq<Dev>): World
    requires w.judging.Some? && forall d | d in order :: d in TakenOf(LedgerOf(w.judging.value))
  {
    NotedBy(w, w.judging.value, now, order).(judging := None)
  }

  function WriteOn(w: World, i: nat, n: nat): World
    requires i < |w.live| && w.live[i].note.dev in w.free && n <= w.free[w.live[i].note.dev]
  {
    var g := w.live[i];
    w.(free := w.free[g.note.dev := w.free[g.note.dev] - n], live := w.live[i := g.(written := g.written + n)])
  }

  ghost function Apply(w: World, s: Step): World
    requires Enabled(w, s)
  {
    match s
    case Lock(pid, token, floor, now, alive) =>
      w.(judging := Some(Loaded(w, pid, token, floor, now, alive)))
    case Read(dev, size) => w.(judging := Some(HasRead(w.judging.value, Some(Fs(dev, w.free[dev])), size)))
    case ReadFails(size) => w.(judging := Some(HasRead(w.judging.value, None, size)))
    case JudgeCopy(name) => w.(judging := Some(HasJudged(w.judging.value, name)))
    case Note(now, order) => NoteIt(w, now, order)
    case Leave => w.(judging := None)
    case Write(i, n) => WriteOn(w, i, n)
    case Ends(pid, token) => w.(live := Without(w.live, pid, token))
    case LetGo(pid, token) => w.(file := Written(Release(Load(w.file).value, pid, token)))
    case Frees(dev, n) => w.(free := w.free[dev := w.free[dev] + n])
    case LooseLoad(who, floor, now, alive) => w.(loose := w.loose[who := Loaded(w, who.0, who.1, floor, now, alive)])
    case LooseRead(who, dev, size) =>
      w.(loose := w.loose[who := HasRead(w.loose[who], Some(Fs(dev, w.free[dev])), size)])
    case LooseReadFails(who, size) => w.(loose := w.loose[who := HasRead(w.loose[who], None, size)])
    case LooseJudge(who, name) => w.(loose := w.loose[who := HasJudged(w.loose[who], name)])
    case LooseNote(who, now, order) => NotedBy(w, w.loose[who], now, order).(loose := w.loose - {who})
    case LooseLeave(who) => w.(loose := w.loose - {who})
    case LooseLetGo(who) => w.(letting := w.letting[who := Release(Load(w.file).value, who.0, who.1)])
    case LooseSave(who) => w.(file := Written(w.letting[who]), letting := w.letting - {who})
  }

  /** Only what no live copy holds is pruned: its run is seen as alive, its note is under 26 hours old. */
  predicate PrunesTheDead(w: World, s: Step) {
    s.Lock? || s.LooseLoad? ==> forall g | g in w.live :: g.note.pid in s.alive && s.now < g.note.at + 26 * 3_600
  }

  /** Who comes to the notes, to admit or to let go, gets their lock. */
  predicate Flocked(s: Step) {
    !s.LooseLoad? && !s.LooseLetGo?
  }

  predicate NobodyLoose(w: World) {
    w.loose == map[] && w.letting == map[]
  }

  // ---- the invariant ---------------------------------------------------------------------------

  /** What is free and not spoken for. */
  function Spare(w: World, dev: Dev): int
    requires dev in w.free
  {
    w.free[dev] - Outstanding(w.live, dev)
  }

  predicate NoneLiveOn(live: seq<Grant>, dev: Dev) {
    forall g | g in live :: g.note.dev != dev
  }

  /** Every live copy is noted. */
  predicate Noted(live: seq<Grant>, held: seq<Reservation>) {
    multiset(NotesIn(live)) <= multiset(held)
  }

  /** A reading, less what the notes hold there, is no more than what is spare there now: since it
      was taken, live copies wrote only what was held for them. */
  ghost predicate ReadingHolds(w: World, held: seq<Reservation>, fs: Fs) {
    fs.dev in w.free && fs.free < U64_MAX && fs.free - SumOn(held, fs.dev) <= Spare(w, fs.dev)
  }

  ghost predicate ReadingsHold(w: World, held: seq<Reservation>, parts: seq<(Option<Fs>, Size)>) {
    forall p | p in parts && p.0.Some? :: ReadingHolds(w, held, p.0.value)
  }

  ghost predicate JudgingInv(w: World) {
    w.judging.Some? ==>
      var a := w.judging.value;
      && Noted(w.live, a.held) && a.floor >= w.floor
      && NoneLiveOf(w.live, a.pid, a.token)
      && ReadingsHold(w, a.held, a.parts)
      && (forall c | c in a.copies :: ReadingsHold(w, a.held, c.parts))
  }

  ghost predicate Inv(w: World) {
    && (forall d | d in w.free :: w.free[d] < U64_MAX)
    && (forall g | g in w.live :: g.written <= g.note.bytes && g.note.dev in w.free)
    && (Load(w.file).Some? ==> Noted(w.live, Load(w.file).value)) && (Load(w.file) == None ==> w.judging == None)
    && JudgingInv(w) && NobodyLoose(w)
    && (forall d | d in w.free :: Spare(w, d) >= w.floor || NoneLiveOn(w.live, d))
  }

  predicate Init(w: World) {
    && (forall d | d in w.free :: w.free[d] < U64_MAX)
    && w.live == [] && w.judging == None && NobodyLoose(w)
  }

  // ---- sums over the live copies ------------------------------------------------------------------

  lemma {:induction false} OutstandingWithin(live: seq<Grant>, dev: Dev)
    requires forall g | g in live :: g.written <= g.note.bytes
    ensures 0 <= Outstanding(live, dev) <= SumOn(NotesIn(live), dev)
    ensures NoneLiveOn(live, dev) ==> Outstanding(live, dev) == 0
  {
    if live != [] {
      var n := |live| - 1;
      assert live[n] in live;
      OutstandingWithin(live[..n], dev);
      assert NotesIn(live)[..n] == NotesIn(live[..n]);
    }
  }

  lemma {:induction false} OutstandingSplit(a: seq<Grant>, b: seq<Grant>, dev: Dev)
    ensures Outstanding(a + b, dev) == Outstanding(a, dev) + Outstanding(b, dev)
  {
    if b == [] {
      assert a + b == a;
    } else {
      var n := |b| - 1;
      assert (a + b)[..|a| + n] == a + b[..n];
      OutstandingSplit(a, b[..n], dev);
    }
  }

  lemma OutstandingWritten(live: seq<Grant>, i: nat, n: nat, dev: Dev)
    requires i < |live|
    ensures var live' := live[i := live[i].(written := live[i].written + n)];
            Outstanding(live', dev) == Outstanding(live, dev) - if live[i].note.dev == dev then n else 0
  {
    var g := live[i].(written := live[i].written + n);
    var live' := live[i := g];
    assert live == live[..i] + ([live[i]] + live[i + 1..]);
    assert live' == live[..i] + ([g] + live[i + 1..]);
    OutstandingSplit(live[..i], [live[i]] + live[i + 1..], dev);
    OutstandingSplit(live[..i], [g] + live[i + 1..], dev);
    OutstandingSplit([live[i]], live[i + 1..], dev);
    OutstandingSplit([g], live[i + 1..], dev);
    assert [live[i]][..0] == [] && [g][..0] == [];
  }

  lemma {:induction false} OutstandingNew(notes: seq<Reservation>, dev: Dev)
    ensures Outstanding(Granted(notes), dev) == SumOn(notes, dev)
  {
    if notes != [] {
      var n := |notes| - 1;
      assert Granted(notes)[..n] == Granted(notes[..n]);
      OutstandingNew(notes[..n], dev);
    }
  }

  lemma {:induction false} WithoutLess(live: seq<Grant>, pid: nat, token: U64, dev: Dev)
    requires forall g | g in live :: g.written <= g.note.bytes
    ensures Outstanding(Without(live, pid, token), dev) <= Outstanding(live, dev)
  {
    if live != [] {
      var n := |live| - 1;
      assert live[n] in live;
      WithoutLess(live[..n], pid, token, dev);
      if IsOf(live[n].note, pid, token) {
        assert Without(live, pid, token) == Without(live[..n], pid, token);
      }
    }
  }

  lemma {:induction false} WithoutIn(live: seq<Grant>, pid: nat, token: U64, g: Grant)
    ensures g in Without(live, pid, token) <==> g in live && !IsOf(g.note, pid, token)
  {
    if live != [] {
      var n := |live| - 1;
      assert live == live[..n] + [live[n]];
      WithoutIn(live[..n], pid, token, g);
    }
  }

  lemma {:induction false} WithoutNoted(live: seq<Grant>, pid: nat, token: U64, held: seq<Reservation>)
    requires Noted(live, held)
    ensures Noted(Without(live, pid, token), held)
  {
    if live != [] {
      var n := |live| - 1;
      var r := live[n].note;
      assert NotesIn(live) == NotesIn(live[..n]) + [r];
      if IsOf(r, pid, token) {
        assert Without(live, pid, token) == Without(live[..n], pid, token);
        WithoutNoted(live[..n], pid, token, held);
      } else {
        var rest := Without(live[..n], pid, token);
        assert NotesIn(rest + [live[n]]) == NotesIn(rest) + [r];
        assert r in multiset(NotesIn(live));
        assert r in multiset(held);
        var i :| 0 <= i < |held| && held[i] == r;
        var others := held[..i] + held[i + 1..];
        assert held == held[..i] + ([r] + held[i + 1..]);
        assert multiset(held) == multiset(others) + multiset{r};
        LessOne(multiset(NotesIn(live[..n])), multiset(others), r);
        WithoutNoted(live[..n], pid, token, others);
      }
    }
  }

  lemma InNotes(live: seq<Grant>, r: Reservation)
    requires r in NotesIn(live)
    ensures exists g :: g in live && g.note == r
  {
    var i :| 0 <= i < |live| && NotesIn(live)[i] == r;
    assert live[i] in live;
  }

  /** What the live copies may still write is at most what is held for them. */
  lemma HeldCovers(w: World, held: seq<Reservation>, dev: Dev)
    requires Noted(w.live, held) && forall g | g in w.live :: g.written <= g.note.bytes
    ensures 0 <= Outstanding(w.live, dev) <= SumOn(held, dev)
  {
    OutstandingWithin(w.live, dev);
    SumOfPart(NotesIn(w.live), held, dev);
  }

  // ---- every step keeps it -----------------------------------------------------------------------

  /** Nothing that was spare above the floor is taken from it. */
  predicate SpareKept(w: World, w': World) {
    w'.free.Keys == w.free.Keys && w'.floor == w.floor && forall d | d in w.free :: Spare(w, d) >= w.floor ==>
        Spare(w', d) >= w.floor
  }

  lemma PruneKeepsNoted(live: seq<Grant>, held: seq<Reservation>, now: nat, alive: set<nat>)
    requires Noted(live, held) && forall g | g in live :: Stands(g.note, now, alive)
    ensures Noted(live, Prune(held, now, alive))
  {
    forall r ensures multiset(NotesIn(live))[r] <= multiset(Prune(held, now, alive))[r] {
      PruneCounts(held, now, alive, r);
      if r in NotesIn(live) {
        InNotes(live, r);
      }
    }
  }

  lemma ReleaseKeepsNoted(live: seq<Grant>, held: seq<Reservation>, pid: nat, token: U64)
    requires Noted(live, held) && NoneLiveOf(live, pid, token)
    ensures Noted(live, Release(held, pid, token))
  {
    forall r ensures multiset(NotesIn(live))[r] <= multiset(Release(held, pid, token))[r] {
      ReleaseCounts(held, pid, token, r);
      if r in NotesIn(live) {
        InNotes(live, r);
      }
    }
  }

  lemma ReadKeeps(w: World, dev: Dev, size: Size)
    requires Inv(w) && Enabled(w, Read(dev, size))
    ensures Inv(Apply(w, Read(dev, size)))
  {
    HeldCovers(w, w.judging.value.held, dev);
  }

  lemma JudgeKeeps(w: World, name: string)
    requires Inv(w) && w.judging.Some?
    ensures Inv(Apply(w, JudgeCopy(name)))
  {}

  /** What a ledger holds a reading by is the reading of some part of some copy. */
  lemma {:induction false} HeldWasRead(floor: U64, others: map<Dev, U64>, copies: seq<Copy>, d: Dev)
    returns (c: Copy, p: (Option<Fs>, Size))
    requires d in HeldBy(floor, others, copies)
    ensures c in copies && p in c.parts && p.0 == Some(HeldBy(floor, others, copies)[d].0)
  {
    var n := |copies| - 1;
    var held := HeldBy(floor, others, copies[..n]);
    if d in held {
      c, p := HeldWasRead(floor, others, copies[..n], d);
    } else {
      c := copies[n];
      var q :| q in PartsOf(c) && q.fs == ReadingOf(PartsOf(c), d);
      var i :| 0 <= i < |c.parts| && PartsOf(c)[i] == q;
      p := c.parts[i];
    }
  }

  /** On every device the run is about to hold on, what is spare bears it. */
  lemma RoomFor(w: World, d: Dev)
    requires Inv(w) && w.judging.Some? && d in LedgerOf(w.judging.value)
    ensures d in w.free && Spare(w, d) >= w.floor + LedgerOf(w.judging.value)[d].1
  {
    var a := w.judging.value;
    ByDevSums(a.held, d);
    var c, p := HeldWasRead(a.floor, Others(a), a.copies, d);
    assert ReadingHolds(w, a.held, p.0.value);
    RunFits(a.floor, Others(a), a.copies);
  }

  lemma NoteKeepsNoted(live: seq<Grant>, held: seq<Reservation>, notes: seq<Reservation>)
    requires Noted(live, held)
    ensures Noted(live + Granted(notes), held + notes)
  {
    assert NotesIn(live + Granted(notes)) == NotesIn(live) + notes;
  }

  /** What is noted is taken from what is spare, and leaves the floor. */
  lemma NoteSpares(w: World, now: nat, order: seq<Dev>, d: Dev)
    requires Inv(w) && Enabled(w, Note(now, order)) && d in w.free
    ensures var w' := NoteIt(w, now, order);
            (Spare(w, d) >= w.floor ==> Spare(w', d) >= w.floor) && (Spare(w', d) >= w.floor || NoneLiveOn(w'.live, d))
  {
    var a := w.judging.value;
    var taken := TakenOf(LedgerOf(a));
    var notes := NotesOf(a.pid, a.token, taken, now, order);
    NotesSum(a.pid, a.token, taken, now, order, d);
    OutstandingSplit(w.live, Granted(notes), d);
    OutstandingNew(notes, d);
    if d in taken {
      RoomFor(w, d);
    } else {
      assert NoneLiveOn(Granted(notes), d);
    }
  }

  lemma NoteGrants(w: World, now: nat, order: seq<Dev>, g: Grant)
    requires Inv(w) && Enabled(w, Note(now, order)) && g in NoteIt(w, now, order).live
    ensures g.written <= g.note.bytes && g.note.dev in w.free
  {
    if g !in w.live {
      var a := w.judging.value;
      var taken := TakenOf(LedgerOf(a));
      NotesSum(a.pid, a.token, taken, now, order, g.note.dev);
      assert g.note in NotesOf(a.pid, a.token, taken, now, order);
      RoomFor(w, g.note.dev);
    }
  }

  /** The box with nobody at its notes: what the invariant says of it. */
  ghost predicate AtRest(w: World) {
    && w.judging == None && NobodyLoose(w) && Load(w.file).Some? && Noted(w.live, Load(w.file).value)
    && (forall d | d in w.free :: w.free[d] < U64_MAX && (Spare(w, d) >= w.floor || NoneLiveOn(w.live, d)))
    && (forall g | g in w.live :: g.written <= g.note.bytes && g.note.dev in w.free)
  }

  lemma AtRestIsInv(w: World)
    requires AtRest(w)
    ensures Inv(w)
  {}

  lemma NoteKeeps(w: World, now: nat, order: seq<Dev>)
    requires Inv(w) && Enabled(w, Note(now, order))
    ensures Inv(NoteIt(w, now, order)) && SpareKept(w, NoteIt(w, now, order))
  {
    var a := w.judging.value;
    var w' := NoteIt(w, now, order);
    NoteKeepsNoted(w.live, a.held, NotesOf(a.pid, a.token, TakenOf(LedgerOf(a)), now, order));
    forall d | d in w.free
      ensures (Spare(w, d) >= w.floor ==> Spare(w', d) >= w.floor)
              && (Spare(w', d) >= w.floor || NoneLiveOn(w'.live, d))
    {
      NoteSpares(w, now, order, d);
    }
    forall g | g in w'.live ensures g.written <= g.note.bytes && g.note.dev in w.free {
      NoteGrants(w, now, order, g);
    }
    AtRestIsInv(w');
  }

  /** Every grant of `live'` is one of `live`, perhaps with more of it written. */
  predicate SameGrants(live: seq<Grant>, live': seq<Grant>) {
    |live| == |live'| && forall i | 0 <= i < |live| ::
      live[i].note == live'[i].note && live'[i].written <= live'[i].note.bytes
  }

  lemma SameGrantsFrame(live: seq<Grant>, live': seq<Grant>, d: Dev)
    requires SameGrants(live, live')
    ensures NotesIn(live') == NotesIn(live) && (NoneLiveOn(live, d) ==> NoneLiveOn(live', d))
    ensures forall g | g in live' :: g.written <= g.note.bytes && exists h :: h in live && h.note == g.note
  {
    forall g | g in live' ensures g.written <= g.note.bytes && exists h :: h in live && h.note == g.note {
      var i :| 0 <= i < |live'| && live'[i] == g;
      assert live[i] in live;
    }
  }

  /** A step of the copies' own: the same grants, no device with less to spare. */
  ghost predicate MovesOn(w: World, w': World) {
    && w'.free.Keys == w.free.Keys && SameGrants(w.live, w'.live)
    && w'.floor == w.floor && w'.file == w.file && w'.judging == w.judging
    && w'.loose == w.loose && w'.letting == w.letting
    && forall d | d in w.free :: w'.free[d] < U64_MAX && Spare(w', d) >= Spare(w, d)
  }

  lemma ReadingStill(w: World, w': World, held: seq<Reservation>, fs: Fs)
    requires MovesOn(w, w') && ReadingHolds(w, held, fs)
    ensures ReadingHolds(w', held, fs)
  {}

  lemma MovesOnJudging(w: World, w': World)
    requires JudgingInv(w) && MovesOn(w, w') && w.judging.Some?
    ensures JudgingInv(w')
  {
    SameGrantsFrame(w.live, w'.live, 0);
    var a := w.judging.value;
    forall p | p in a.parts && p.0.Some? ensures ReadingHolds(w', a.held, p.0.value) {
      ReadingStill(w, w', a.held, p.0.value);
    }
    forall c, p | c in a.copies && p in c.parts && p.0.Some? ensures ReadingHolds(w', a.held, p.0.value) {
      ReadingStill(w, w', a.held, p.0.value);
    }
    assert Noted(w'.live, a.held);
    forall g | g in w'.live ensures !IsOf(g.note, a.pid, a.token) {
      var h :| h in w.live && h.note == g.note;
    }
  }

  lemma MovesOnKeeps(w: World, w': World)
    requires Inv(w) && MovesOn(w, w')
    ensures Inv(w') && SpareKept(w, w')
  {
    if w.judging.Some? {
      MovesOnJudging(w, w');
    }
    forall d | d in w.free ensures Spare(w', d) >= w.floor || NoneLiveOn(w'.live, d) {
      SameGrantsFrame(w.live, w'.live, d);
    }
    SameGrantsFrame(w.live, w'.live, 0);
  }

  lemma SameGrantsWritten(live: seq<Grant>, i: nat, n: nat)
    requires forall g | g in live :: g.written <= g.note.bytes
    requires i < |live| && live[i].written + n <= live[i].note.bytes
    ensures SameGrants(live, live[i := live[i].(written := live[i].written + n)])
  {
    forall j | 0 <= j < |live| ensures live[j].written <= live[j].note.bytes {
      assert live[j] in live;
    }
  }

  lemma WriteSpares(w: World, i: nat, n: nat, d: Dev)
    requires Enabled(w, Write(i, n)) && d in w.free
    ensures d in WriteOn(w, i, n).free && WriteOn(w, i, n).free[d] <= w.free[d]
    ensures Spare(WriteOn(w, i, n), d) == Spare(w, d)
  {
    OutstandingWritten(w.live, i, n, d);
  }

  lemma WriteMoves(w: World, i: nat, n: nat)
    requires Inv(w) && Enabled(w, Write(i, n))
    ensures MovesOn(w, WriteOn(w, i, n))
  {
    SameGrantsWritten(w.live, i, n);
    forall d | d in w.free ensures WriteOn(w, i, n).free[d] < U64_MAX && Spare(WriteOn(w, i, n), d) >= Spare(w, d) {
      WriteSpares(w, i, n, d);
    }
  }

  lemma WriteKeeps(w: World, i: nat, n: nat)
    requires Inv(w) && Enabled(w, Write(i, n))
    ensures Inv(WriteOn(w, i, n)) && SpareKept(w, WriteOn(w, i, n))
  {
    WriteMoves(w, i, n);
    MovesOnKeeps(w, WriteOn(w, i, n));
  }

  lemma EndsKeeps(w: World, pid: nat, token: U64)
    requires Inv(w)
    ensures var w' := w.(live := Without(w.live, pid, token)); Inv(w') && SpareKept(w, w')
  {
    var w' := w.(live := Without(w.live, pid, token));
    forall d | d in w.free ensures Spare(w', d) >= Spare(w, d) {
      WithoutLess(w.live, pid, token, d);
    }
    forall g | g in w'.live ensures g in w.live {
      WithoutIn(w.live, pid, token, g);
    }
    if Load(w.file).Some? {
      WithoutNoted(w.live, pid, token, Load(w.file).value);
    }
    if w.judging.Some? {
      WithoutNoted(w.live, pid, token, w.judging.value.held);
    }
  }

  lemma LockKeeps(w: World, pid: nat, token: U64, floor: U64, now: nat, alive: set<nat>)
    requires Inv(w) && Enabled(w, Lock(pid, token, floor, now, alive)) && forall g | g in w.live ::
             Stands(g.note, now, alive)
    ensures Inv(w.(judging := Some(Loaded(w, pid, token, floor, now, alive))))
  {
    PruneKeepsNoted(w.live, Load(w.file).value, now, alive);
  }

  lemma FileKeeps(w: World, held: seq<Reservation>)
    requires Inv(w) && w.judging == None && Noted(w.live, held)
    ensures Inv(w.(file := Written(held)))
  {
    forall d | d in w.free ensures Spare(w.(file := Written(held)), d) == Spare(w, d) {}
  }

  lemma LetGoKeeps(w: World, pid: nat, token: U64)
    requires Inv(w) && Enabled(w, LetGo(pid, token))
    ensures Inv(w.(file := Written(Release(Load(w.file).value, pid, token))))
  {
    ReleaseKeepsNoted(w.live, Load(w.file).value, pid, token);
    FileKeeps(w, Release(Load(w.file).value, pid, token));
  }

  lemma FreesKeeps(w: World, d: Dev, n: nat)
    requires Inv(w) && d in w.free && w.free[d] + n < U64_MAX
    ensures var w' := w.(free := w.free[d := w.free[d] + n]); Inv(w') && SpareKept(w, w')
  {
    forall j | 0 <= j < |w.live| ensures w.live[j].written <= w.live[j].note.bytes {
      assert w.live[j] in w.live;
    }
    MovesOnKeeps(w, w.(free := w.free[d := w.free[d] + n]));
  }

  lemma FailsKeep(w: World, size: Size)
    requires Inv(w) && w.judging.Some?
    ensures Inv(w.(judging := Some(HasRead(w.judging.value, None, size))))
  {}

  lemma LeaveKeeps(w: World)
    requires Inv(w) && w.judging.Some?
    ensures Inv(w.(judging := None))
  {}

  lemma ReadsKeep(w: World, s: Step)
    requires Inv(w) && Enabled(w, s) && PrunesTheDead(w, s) && (s.Lock? || s.Read? || s.ReadFails? || s.JudgeCopy?)
    ensures Inv(Apply(w, s)) && SpareKept(w, Apply(w, s))
  {
    match s
    case Lock(pid, token, floor, now, alive) => LockKeeps(w, pid, token, floor, now, alive);
    case Read(dev, size) => ReadKeeps(w, dev, size);
    case ReadFails(size) => FailsKeep(w, size);
    case JudgeCopy(name) => JudgeKeeps(w, name);
  }

  lemma EndsAtNotesKeep(w: World, s: Step)
    requires Inv(w) && Enabled(w, s) && (s.Note? || s.Leave? || s.LetGo?)
    ensures Inv(Apply(w, s)) && SpareKept(w, Apply(w, s))
  {
    match s
    case Note(now, order) => NoteKeeps(w, now, order);
    case Leave => LeaveKeeps(w);
    case LetGo(pid, token) => LetGoKeeps(w, pid, token);
  }

  lemma CopiesKeep(w: World, s: Step)
    requires Inv(w) && Enabled(w, s) && (s.Write? || s.Ends? || s.Frees?)
    ensures Inv(Apply(w, s)) && SpareKept(w, Apply(w, s))
  {
    match s
    case Write(i, n) => WriteKeeps(w, i, n);
    case Ends(pid, token) => EndsKeeps(w, pid, token);
    case Frees(dev, n) => FreesKeeps(w, dev, n);
  }

  /** Every step of a run at the notes under their lock, and every step of a copy, keeps it. */
  lemma StepKeeps(w: World, s: Step)
    requires Inv(w) && Enabled(w, s) && PrunesTheDead(w, s) && Flocked(s)
    ensures Inv(Apply(w, s)) && SpareKept(w, Apply(w, s))
  {
    if s.Lock? || s.Read? || s.ReadFails? || s.JudgeCopy? {
      ReadsKeep(w, s);
    } else if s.Note? || s.Leave? || s.LetGo? {
      EndsAtNotesKeep(w, s);
    } else {
      CopiesKeep(w, s);
    }
  }

  // ---- over every run ----------------------------------------------------------------------------

  ghost predicate Leads(w: World, steps: seq<Step>, w': World)
    decreases |steps|
  {
    if steps == [] then w == w'
    else Enabled(w, steps[0]) && Leads(Apply(w, steps[0]), steps[1..], w')
  }

  /** Nobody along the run who comes to the notes prunes that of a copy that is still live. */
  ghost predicate PrunesWell(w: World, steps: seq<Step>)
    decreases |steps|
  {
    steps == [] || (Enabled(w, steps[0]) && PrunesTheDead(w, steps[0]) && PrunesWell(Apply(w, steps[0]), steps[1..]))
  }

  predicate AllFlocked(steps: seq<Step>) {
    forall s | s in steps :: Flocked(s)
  }

  lemma {:induction false} RunsKeep(w: World, steps: seq<Step>, w': World)
    requires Inv(w) && Leads(w, steps, w') && PrunesWell(w, steps) && AllFlocked(steps)
    ensures Inv(w') && SpareKept(w, w')
    decreases |steps|
  {
    if steps != [] {
      StepKeeps(w, steps[0]);
      RunsKeep(Apply(w, steps[0]), steps[1..], w');
    }
  }

  /** Space safety, where every run at the notes has their lock: on a device with the floor free to
      begin with, what is free less what live copies may still write stays at or above the floor, and
      so what is free does; and on one with less, no copy writes while it is so. */
  lemma NeverUnderTheFloor(w: World, steps: seq<Step>, w': World, d: Dev)
    requires Init(w) && Leads(w, steps, w') && PrunesWell(w, steps) && AllFlocked(steps)
    requires d in w.free
    ensures d in w'.free && Outstanding(w'.live, d) >= 0
    ensures w.free[d] >= w.floor ==> w'.free[d] - Outstanding(w'.live, d) >= w.floor
    ensures w'.free[d] - Outstanding(w'.live, d) >= w.floor || NoneLiveOn(w'.live, d)
  {
    RunsKeep(w, steps, w');
    OutstandingWithin(w'.live, d);
  }

  // ---- and where it stops holding ----------------------------------------------------------------

  lemma OneCopyHeld(floor: U64, others: map<Dev, U64>, c: Copy, d: Dev, free: U64, n: U64)
    requires c.parts == [(Some(Fs(d, free)), Measured(n))] && floor + OthersOn(others, d) + n <= free
    ensures HeldBy(floor, others, [c]) == map[d := (Fs(d, free), n)]
  {
    assert [c][..0] == [];
    var parts := PartsOf(c);
    assert parts == [Part(Fs(d, free), Measured(n))] && parts[..0] == [];
    assert SizesOn(parts, d) == [Measured(n)];
    assert [Measured(n)][..0] == [];
    assert NeedOf([Measured(n)]) == n;
    assert DevsOf(parts) == {d};
    assert HeldBy(floor, others, []) == map[];
    assert VerdictOn(floor, others, map[], parts, d) == Judge(Fs(d, free), SatAdd(0, OthersOn(others, d)), n, floor);
    assert CopyFits(floor, others, map[], parts);
    assert HeldAfter(map[], parts) == map[d := (Fs(d, free), n)];
  }

  lemma PrunedAway(r: Reservation, now: nat, alive: set<nat>)
    requires !Stands(r, now, alive)
    ensures Prune([r], now, alive) == []
  {
    assert [r][..0] == [];
  }

  /** A run of steps in which nothing live is pruned. */
  ghost predicate LeadsWell(w: World, steps: seq<Step>, w': World) {
    Leads(w, steps, w') && PrunesWell(w, steps)
  }

  lemma OnFrom(w: World, s: Step, w': World, rest: seq<Step>, end: World)
    requires Enabled(w, s) && w' == Apply(w, s) && PrunesTheDead(w, s) && LeadsWell(w', rest, end)
    ensures LeadsWell(w, [s] + rest, end)
  {
    assert ([s] + rest)[1..] == rest;
  }

  /** A copy that takes all that is free above the floor. */
  function AllOf(free: U64, floor: U64, d: Dev): (c: Copy)
    requires floor < free
  {
    Copy("", [(Some(Fs(d, free)), Measured(free - floor))])
  }

  function NoteOf(who: Who, free: U64, floor: U64, d: Dev, now: nat): Reservation
    requires floor < free
  {
    Reservation(who.0, who.1, d, free - floor, now)
  }

  /** A run that found no note it counts, before it reads, and when it has judged that copy. */
  function Empty(who: Who, floor: U64): Admission {
    Admission(who.0, who.1, floor, [], [], [])
  }

  function ReadAll(who: Who, free: U64, floor: U64, d: Dev): Admission
    requires floor < free
  {
    Empty(who, floor).(parts := AllOf(free, floor, d).parts)
  }

  function JudgedAll(who: Who, free: U64, floor: U64, d: Dev): Admission
    requires floor < free
  {
    Empty(who, floor).(copies := [AllOf(free, floor, d)])
  }

  lemma AllInTwo(who: Who, free: U64, floor: U64, d: Dev)
    requires floor < free
    ensures HasRead(Empty(who, floor), Some(Fs(d, free)), Measured(free - floor)) == ReadAll(who, free, floor, d)
    ensures HasJudged(ReadAll(who, free, floor, d), "") == JudgedAll(who, free, floor, d)
  {
    assert [] + [AllOf(free, floor, d)] == [AllOf(free, floor, d)];
  }

  /** It is admitted, and notes all of it. */
  lemma AllIsTaken(who: Who, free: U64, floor: U64, d: Dev, now: nat)
    requires floor < free
    ensures var a := JudgedAll(who, free, floor, d);
            var taken := TakenOf(LedgerOf(a));
            Ordered([d], taken) && NotesOf(a.pid, a.token, taken, now, [d]) == [NoteOf(who, free, floor, d, now)]
  {
    OneCopyHeld(floor, map[], AllOf(free, floor, d), d, free, free - floor);
    assert Others(JudgedAll(who, free, floor, d)) == map[];
    assert [d][..0] == [];
  }

  /** Its note is the only one in the file, its copy live. */
  function AllNoted(w: World, who: Who, d: Dev, now: nat): World
    requires d in w.free && w.floor < w.free[d]
  {
    var note := NoteOf(who, w.free[d], w.floor, d, now);
    w.(file := Written([note]), live := w.live + Granted([note]))
  }

  lemma NotedByAll(w: World, who: Who, d: Dev, now: nat)
    requires d in w.free && w.floor < w.free[d]
    ensures var a := JudgedAll(who, w.free[d], w.floor, d);
            Ordered([d], TakenOf(LedgerOf(a))) && NotedBy(w, a, now, [d]) == AllNoted(w, who, d, now)
  {
    AllIsTaken(who, w.free[d], w.floor, d, now);
    var note := NoteOf(who, w.free[d], w.floor, d, now);
    assert [] + [note] == [note];
  }

  /** Two live copies hold all that is free above the floor twice: they can go under it. */
  lemma BothWrite(w: World, g: Grant, h: Grant) returns (steps: seq<Step>, w': World)
    requires w.live == [g] + [h] && g.written < g.note.bytes && h.written == 0
    requires g.note.dev == h.note.dev && h.note.dev in w.free && h.note.bytes < w.free[h.note.dev]
    ensures LeadsWell(w, steps, w') && AllFlocked(steps) && w'.file == w.file
    ensures h.note.dev in w'.free && w'.free[h.note.dev] == w.free[h.note.dev] - h.note.bytes - 1
  {
    var w1 := WriteOn(w, 1, h.note.bytes);
    w' := WriteOn(w1, 0, 1);
    OnFrom(w1, Write(0, 1), w', [], w');
    OnFrom(w, Write(1, h.note.bytes), w1, [Write(0, 1)] + [], w');
    steps := [Write(1, h.note.bytes)] + ([Write(0, 1)] + []);
  }

  // ---- a live copy's note pruned -------------------------------------------------------------------

  function At(w: World, a: Admission): World {
    w.(judging := Some(a))
  }

  /** The run that has the lock, and found no note it counts: from its reading on. */
  lemma AdmitsAll(w: World, who: Who, d: Dev, now: nat, rest: seq<Step>, end: World) returns (steps: seq<Step>)
    requires d in w.free && w.floor < w.free[d] && w.judging == None
    requires LeadsWell(AllNoted(w, who, d, now), rest, end) && AllFlocked(rest)
    ensures LeadsWell(At(w, Empty(who, w.floor)), steps, end) && AllFlocked(steps)
  {
    var free, n := w.free[d], w.free[d] - w.floor;
    AllInTwo(who, free, w.floor, d);
    NotedByAll(At(w, JudgedAll(who, free, w.floor, d)), who, d, now);
    OnFrom(At(w, JudgedAll(who, free, w.floor, d)), Note(now, [d]), AllNoted(w, who, d, now), rest, end);
    steps := [Note(now, [d])] + rest;
    OnFrom(At(w, ReadAll(who, free, w.floor, d)), JudgeCopy(""), At(w, JudgedAll(who, free, w.floor, d)), steps, end);
    steps := [JudgeCopy("")] + steps;
    OnFrom(At(w, Empty(who, w.floor)), Read(d, Measured(n)), At(w, ReadAll(who, free, w.floor, d)), steps, end);
    steps := [Read(d, Measured(n))] + steps;
  }

  /** Pruned while its copy still writes (its run not seen as alive, or the note a day and two hours
      old), a note no longer keeps the floor: the next run is admitted to all that seems free. */
  lemma PrunedLiveBreaksTheFloor(w: World, g: Grant, now: nat, alive: set<nat>, pid: nat, token: U64)
    returns (steps: seq<Step>, w': World)
    requires w.judging == None && w.live == [g] && w.file == Written([g.note]) && g.written < g.note.bytes
    requires g.note.pid !in alive || now >= g.note.at + 26 * 3_600
    requires !IsOf(g.note, pid, token) && g.note.dev in w.free && 1 <= w.floor < w.free[g.note.dev]
    ensures Leads(w, steps, w') && AllFlocked(steps) && g.note.dev in w'.free && w'.free[g.note.dev] < w.floor
  {
    var d, who := g.note.dev, (pid, token);
    steps, w' := BothWrite(AllNoted(w, who, d, now), g, Grant(NoteOf(who, w.free[d], w.floor, d, now), 0));
    steps := AdmitsAll(w, who, d, now, steps, w');
    PrunedAway(g.note, now, alive);
    var lock := Lock(pid, token, w.floor, now, alive);
    assert Apply(w, lock) == At(w, Empty(who, w.floor));
    assert ([lock] + steps)[1..] == steps;
    steps := [lock] + steps;
  }

  lemma {:induction false} LeadsJoin(w: World, a: seq<Step>, v: World, b: seq<Step>, u: World)
    requires Leads(w, a, v) && Leads(v, b, u)
    ensures Leads(w, a + b, u)
    decreases |a|
  {
    if a == [] {
      assert a + b == b;
    } else {
      LeadsJoin(Apply(w, a[0]), a[1..], v, b, u);
      assert (a + b)[1..] == a[1..] + b;
    }
  }

  /** From a box with nothing noted and nothing live there is a run of runs that all have the lock to free
      space under the floor: the first one's note is pruned a day and two hours later, while its copy
      writes on. */
  lemma PrunedLiveIsReached(w: World, d: Dev, p: Who, q: Who, now: nat, alive: set<nat>)
    returns (steps: seq<Step>, w': World)
    requires Init(w) && Load(w.file) == Some([]) && p != q
    requires d in w.free && 1 <= w.floor < w.free[d]
    ensures Leads(w, steps, w') && AllFlocked(steps) && d in w'.free && w'.free[d] < w.floor
  {
    var first := AllNoted(w, p, d, now);
    var note := NoteOf(p, w.free[d], w.floor, d, now);
    var start := AdmitsAll(w, p, d, now, [], first);
    var lock := Lock(p.0, p.1, w.floor, now, alive);
    OnFrom(w, lock, At(w, Empty(p, w.floor)), start, first);
    assert first.live == [Grant(note, 0)];
    var rest;
    rest, w' := PrunedLiveBreaksTheFloor(first, Grant(note, 0), now + 26 * 3_600, alive, q.0, q.1);
    LeadsJoin(w, [lock] + start, first, rest, w');
    steps := [lock] + start + rest;
  }

  // ---- two runs at the notes without their lock ----------------------------------------------------

  function Loose(w: World, who: Who, a: Admission): World {
    w.(loose := w.loose[who := a])
  }

  /** One of them reads what is free, and judges. */
  lemma JudgesAll(w: World, who: Who, d: Dev, rest: seq<Step>, end: World) returns (steps: seq<Step>)
    requires d in w.free && w.floor < w.free[d]
    requires who in w.loose && w.loose[who] == Empty(who, w.floor)
    requires LeadsWell(Loose(w, who, JudgedAll(who, w.free[d], w.floor, d)), rest, end)
    ensures LeadsWell(w, steps, end)
  {
    var free, n := w.free[d], w.free[d] - w.floor;
    AllInTwo(who, free, w.floor, d);
    var w1 := Loose(w, who, ReadAll(who, free, w.floor, d));
    OnFrom(w1, LooseJudge(who, ""), Loose(w, who, JudgedAll(who, free, w.floor, d)), rest, end);
    steps := [LooseJudge(who, "")] + rest;
    OnFrom(w, LooseRead(who, d, Measured(n)), w1, steps, end);
    steps := [LooseRead(who, d, Measured(n))] + steps;
  }

  /** It notes it, and what is in the file is its own note only. */
  lemma NotesAll(w: World, who: Who, d: Dev, now: nat, rest: seq<Step>, end: World) returns (steps: seq<Step>)
    requires d in w.free && w.floor < w.free[d]
    requires who in w.loose && w.loose[who] == JudgedAll(who, w.free[d], w.floor, d)
    requires LeadsWell(AllNoted(w, who, d, now).(loose := w.loose - {who}), rest, end)
    ensures LeadsWell(w, steps, end)
  {
    NotedByAll(w, who, d, now);
    OnFrom(w, LooseNote(who, now, [d]), AllNoted(w, who, d, now).(loose := w.loose - {who}), rest, end);
    steps := [LooseNote(who, now, [d])] + rest;
  }

  /** Both at the notes. */
  function Both(w: World, p: Who, a: Admission, q: Who, b: Admission): World
    requires p != q
  {
    w.(loose := map[p := a, q := b])
  }

  lemma OneOfBoth(w: World, p: Who, a: Admission, a': Admission, q: Who, b: Admission, b': Admission)
    requires p != q
    ensures Loose(Both(w, p, a, q, b), q, b') == Both(w, p, a, q, b')
    ensures Loose(Both(w, p, a, q, b), p, a') == Both(w, p, a', q, b)
  {}

  lemma BothJudge(w: World, d: Dev, p: Who, q: Who, rest: seq<Step>, end: World) returns (steps: seq<Step>)
    requires d in w.free && w.floor < w.free[d] && p != q
    requires LeadsWell(Both(w, p, JudgedAll(p, w.free[d], w.floor, d), q, JudgedAll(q, w.free[d], w.floor, d)),
             rest, end)
    ensures LeadsWell(Both(w, p, Empty(p, w.floor), q, Empty(q, w.floor)), steps, end)
  {
    var c, e := JudgedAll(p, w.free[d], w.floor, d), JudgedAll(q, w.free[d], w.floor, d);
    var one := Both(w, p, c, q, Empty(q, w.floor));
    OneOfBoth(w, p, c, c, q, Empty(q, w.floor), e);
    steps := JudgesAll(one, q, d, rest, end);
    var none := Both(w, p, Empty(p, w.floor), q, Empty(q, w.floor));
    OneOfBoth(w, p, Empty(p, w.floor), c, q, Empty(q, w.floor), e);
    steps := JudgesAll(none, p, d, steps, end);
  }

  lemma BothNote(w: World, d: Dev, p: Who, q: Who, now: nat, rest: seq<Step>, end: World) returns (steps: seq<Step>)
    requires d in w.free && w.floor < w.free[d] && p != q && w.loose == map[]
    requires LeadsWell(AllNoted(AllNoted(w, p, d, now), q, d, now), rest, end)
    ensures LeadsWell(Both(w, p, JudgedAll(p, w.free[d], w.floor, d), q, JudgedAll(q, w.free[d], w.floor, d)),
            steps, end)
  {
    var c, e := JudgedAll(p, w.free[d], w.floor, d), JudgedAll(q, w.free[d], w.floor, d);
    var judged := Both(w, p, c, q, e);
    var first := AllNoted(w, p, d, now).(loose := map[q := e]);
    assert judged.loose - {p} == first.loose && first.loose - {q} == map[];
    assert AllNoted(first, q, d, now).(loose := first.loose - {q}) == AllNoted(AllNoted(w, p, d, now), q, d, now);
    steps := NotesAll(first, q, d, now, rest, end);
    assert AllNoted(judged, p, d, now).(loose := judged.loose - {p}) == first;
    steps := NotesAll(judged, p, d, now, steps, end);
  }

  /** Where no lock is to be had, two runs judge at once: each finds the notes empty and is admitted
      to all that is free above the floor, the second's save drops the first's note, and their
      copies go under the floor. Nothing is pruned along the way. */
  lemma UnlockedBreaksTheFloor(w: World, d: Dev, p: Who, q: Who, now: nat) returns (steps: seq<Step>, w': World)
    requires Init(w) && Load(w.file) == Some([]) && p != q
    requires d in w.free && 1 <= w.floor < w.free[d]
    ensures Leads(w, steps, w') && PrunesWell(w, steps)
    ensures d in w'.free && w'.free[d] < w.floor
    ensures w'.file == Written([NoteOf(q, w.free[d], w.floor, d, now)])
  {
    var g, h := Grant(NoteOf(p, w.free[d], w.floor, d, now), 0), Grant(NoteOf(q, w.free[d], w.floor, d, now), 0);
    steps, w' := BothWrite(AllNoted(AllNoted(w, p, d, now), q, d, now), g, h);
    steps := BothNote(w, d, p, q, now, steps, w');
    steps := BothJudge(w, d, p, q, steps, w');
    var first := Loose(w, p, Empty(p, w.floor));
    OnFrom(first, LooseLoad(q, w.floor, now, {}), Both(w, p, Empty(p, w.floor), q, Empty(q, w.floor)), steps, w');
    steps := [LooseLoad(q, w.floor, now, {})] + steps;
    OnFrom(w, LooseLoad(p, w.floor, now, {}), first, steps, w');
    steps := [LooseLoad(p, w.floor, now, {})] + steps;
  }
}

/** The reservations file, in which each run notes what its admitted copies may take, and a run's
    admission under its lock. (crates/core/src/disk.rs, crates/cli/src/disk.rs) */
module DiskNotes {
  import opened Wrappers
  import opened DiskLedger

  const MAX_AGE_SECS: nat := 26 * 3600

  /** What one admission `(pid, token)` holds on one device, and since when. */
  datatype Reservation = Reservation(pid: nat, token: U64, dev: Dev, bytes: U64, at: nat)

  /** The file: not there, ours, another version's (or not to be parsed), or not to be read at all. */
  datatype File = Missing | Written(held: seq<Reservation>) | Foreign | Unreadable

  /** What the file says is held; `None`: what other runs hold is unknown. */
  function Load(file: File): Option<seq<Reservation>> {
    match file
    case Missing => Some([])
    case Written(held) => Some(held)
    case Foreign => Some([])
    case Unreadable => None
  }

  /** What no run holds any more is dropped: its process gone, or the note too old. */
  predicate Stands(r: Reservation, now: nat, alive: set<nat>) {
    (if now >= r.at then now - r.at else 0) < MAX_AGE_SECS && r.pid in alive
  }

  function Prune(held: seq<Reservation>, now: nat, alive: set<nat>): seq<Reservation> {
    if held == [] then []
    else
      var n := |held| - 1;
      Prune(held[..n], now, alive) + if Stands(held[n], now, alive) then [held[n]] else []
  }

  function Release(held: seq<Reservation>, pid: nat, token: U64): seq<Reservation> {
    if held == [] then []
    else
      var n := |held| - 1;
      Release(held[..n], pid, token) + if (held[n].pid, held[n].token) != (pid, token) then [held[n]] else []
  }

  /** What they hold on each device. */
  function ByDev(held: seq<Reservation>): map<Dev, U64> {
    if held == [] then map[]
    else
      var n := |held| - 1;
      var rest := ByDev(held[..n]);
      rest[held[n].dev := SatAdd(OthersOn(rest, held[n].dev), held[n].bytes)]
  }

  /** One note per device, in the order of the devices. */
  function NotesOf(pid: nat, token: U64, taken: map<Dev, U64>, now: nat, order: seq<Dev>): seq<Reservation>
    requires forall d | d in order :: d in taken
  {
    if order == [] then []
    else
      var n := |order| - 1;
      NotesOf(pid, token, taken, now, order[..n]) + [Reservation(pid, token, order[n], taken[order[n]], now)]
  }

  /** The devices of `taken`, each once, lowest first. */
  ghost predicate Ordered(order: seq<Dev>, taken: map<Dev, U64>) {
    && (forall d :: d in order <==> d in taken)
    && (forall i, j | 0 <= i < j < |order| :: order[i] < order[j])
  }

  // ---- sums and multisets ----------------------------------------------------------------------

  function SumOn(held: seq<Reservation>, dev: Dev): nat {
    if held == [] then 0
    else
      var n := |held| - 1;
      SumOn(held[..n], dev) + if held[n].dev == dev then held[n].bytes else 0
  }

  /** Summed up with saturation: exact, unless it would not fit. */
  lemma {:induction false} ByDevSums(held: seq<Reservation>, dev: Dev)
    ensures OthersOn(ByDev(held), dev) as int == if SumOn(held, dev) <= U64_MAX then SumOn(held, dev) else U64_MAX
    ensures dev in ByDev(held) <==> exists r :: r in held && r.dev == dev
  {
    if held != [] {
      var n := |held| - 1;
      ByDevSums(held[..n], dev);
      assert held == held[..n] + [held[n]];
    }
  }

  lemma CountAppended(s: seq<Reservation>, x: Reservation, keep: bool, r: Reservation)
    ensures multiset(s + if keep then [x] else [])[r] == multiset(s)[r] + if keep && x == r then 1 else 0
  {
    if keep {
      assert multiset(s + [x]) == multiset(s) + multiset{x};
    } else {
      assert s + [] == s;
    }
  }

  lemma {:induction false} PruneCounts(held: seq<Reservation>, now: nat, alive: set<nat>, r: Reservation)
    ensures multiset(Prune(held, now, alive))[r] ==
            if r.pid in alive && now < r.at + 93_600 then multiset(held)[r] else 0
  {
    if held != [] {
      var n := |held| - 1;
      PruneCounts(held[..n], now, alive, r);
      assert held == held[..n] + [held[n]];
      CountAppended(held[..n], held[n], true, r);
      CountAppended(Prune(held[..n], now, alive), held[n], Stands(held[n], now, alive), r);
    }
  }

  lemma {:induction false} ReleaseCounts(held: seq<Reservation>, pid: nat, token: U64, r: Reservation)
    ensures multiset(Release(held, pid, token))[r] == if (r.pid, r.token) != (pid, token) then multiset(held)[r] else 0
  {
    if held != [] {
      var n := |held| - 1;
      ReleaseCounts(held[..n], pid, token, r);
      assert held == held[..n] + [held[n]];
      CountAppended(held[..n], held[n], true, r);
      CountAppended(Release(held[..n], pid, token), held[n], (held[n].pid, held[n].token) != (pid, token), r);
    }
  }

  lemma SumSplit(a: seq<Reservation>, b: seq<Reservation>, dev: Dev)
    ensures SumOn(a + b, dev) == SumOn(a, dev) + SumOn(b, dev)
  {
    if b == [] {
      assert a + b == a;
    } else {
      var n := |b| - 1;
      assert (a + b)[..|a| + n] == a + b[..n];
      SumSplit(a, b[..n], dev);
    }
  }

  lemma LessOne(a: multiset<Reservation>, b: multiset<Reservation>, r: Reservation)
    requires a + multiset{r} <= b + multiset{r}
    ensures a <= b
  {
    forall x ensures a[x] <= b[x] {
      assert (a + multiset{r})[x] <= (b + multiset{r})[x];
    }
  }

  /** What is held by some is at most what is held by all. */
  lemma {:induction false} SumOfPart(part: seq<Reservation>, all: seq<Reservation>, dev: Dev)
    requires multiset(part) <= multiset(all)
    ensures SumOn(part, dev) <= SumOn(all, dev)
    decreases |part|
  {
    if part != [] {
      var n := |part| - 1;
      var r := part[n];
      assert part == part[..n] + [r];
      assert r in multiset(part);
      assert r in multiset(all);
      var i :| 0 <= i < |all| && all[i] == r;
      var rest := all[..i] + all[i + 1..];
      assert all == all[..i] + ([r] + all[i + 1..]);
      assert multiset(all) == multiset(rest) + multiset{r};
      LessOne(multiset(part[..n]), multiset(rest), r);
      SumOfPart(part[..n], rest, dev);
      SumSplit(all[..i], [r] + all[i + 1..], dev);
      SumSplit([r], all[i + 1..], dev);
      SumSplit(all[..i], all[i + 1..], dev);
    }
  }

  lemma {:induction false} NotesSum(pid: nat, token: U64, taken: map<Dev, U64>, now: nat, order: seq<Dev>, dev: Dev)
    requires forall d | d in order :: d in taken
    requires forall i, j | 0 <= i < j < |order| :: order[i] < order[j]
    ensures SumOn(NotesOf(pid, token, taken, now, order), dev) == if dev in order then taken[dev] as int else 0
    ensures forall r | r in NotesOf(pid, token, taken, now, order) ::
            r.pid == pid && r.token == token && r.dev in order && r.bytes == taken[r.dev] && r.at == now
  {
    if order != [] {
      var n := |order| - 1;
      NotesSum(pid, token, taken, now, order[..n], dev);
      assert order == order[..n] + [order[n]];
    }
  }

  // ---- an admission ----------------------------------------------------------------------------

  /** A copy with its parts: for each the reading of where it writes (none: it failed), and its size. */
  datatype Copy = Copy(name: string, parts: seq<(Option<Fs>, Size)>)

  datatype Skip = Unknown | OthersUnknown | ShortOf(short: Short)

  predicate Readable(c: Copy) {
    forall p | p in c.parts :: p.0.Some?
  }

  function PartsOf(c: Copy): seq<Part>
    requires Readable(c)
  {
    seq(|c.parts|, i requires 0 <= i < |c.parts| =>
        assert c.parts[i] in c.parts; Part(c.parts[i].0.value, c.parts[i].1))
  }

  ghost predicate Admitted(floor: U64, others: map<Dev, U64>, held: Held, c: Copy) {
    Readable(c) && CopyFits(floor, others, held, PartsOf(c))
  }

  /** What a run's ledger comes to: the admitted copies', in order; a skipped one leaves no trace. */
  ghost function HeldBy(floor: U64, others: map<Dev, U64>, copies: seq<Copy>): Held {
    if copies == [] then map[]
    else
      var n := |copies| - 1;
      var held := HeldBy(floor, others, copies[..n]);
      if Admitted(floor, others, held, copies[n]) then HeldAfter(held, PartsOf(copies[n])) else held
  }

  ghost predicate IsAdmitted(floor: U64, others: map<Dev, U64>, copies: seq<Copy>, i: nat)
    requires i < |copies|
  {
    Admitted(floor, others, HeldBy(floor, others, copies[..i]), copies[i])
  }

  ghost function AdmittedOnly(floor: U64, others: map<Dev, U64>, copies: seq<Copy>): seq<Copy> {
    if copies == [] then []
    else
      var n := |copies| - 1;
      AdmittedOnly(floor, others, copies[..n]) + if IsAdmitted(floor, others, copies, n) then [copies[n]] else []
  }

  /** Judged alone, the admitted copies are all admitted again, and hold just the same: the skipped
      ones cost the others nothing. */
  lemma {:induction false} SkippedLeaveNoTrace(floor: U64, others: map<Dev, U64>, copies: seq<Copy>)
    ensures var only := AdmittedOnly(floor, others, copies);
            HeldBy(floor, others, only) == HeldBy(floor, others, copies) && AdmittedOnly(floor, others, only) == only
  {
    if copies != [] {
      var n := |copies| - 1;
      SkippedLeaveNoTrace(floor, others, copies[..n]);
      var rest := AdmittedOnly(floor, others, copies[..n]);
      if IsAdmitted(floor, others, copies, n) {
        OneMoreAdmitted(floor, others, rest, copies[n]);
      } else {
        assert AdmittedOnly(floor, others, copies) == rest;
      }
    }
  }

  lemma OneMoreAdmitted(floor: U64, others: map<Dev, U64>, rest: seq<Copy>, c: Copy)
    requires Admitted(floor, others, HeldBy(floor, others, rest), c)
    ensures AdmittedOnly(floor, others, rest + [c]) == AdmittedOnly(floor, others, rest) + [c]
    ensures HeldBy(floor, others, rest + [c]) == HeldAfter(HeldBy(floor, others, rest), PartsOf(c))
  {
    assert (rest + [c])[..|rest|] == rest;
    assert IsAdmitted(floor, others, rest + [c], |rest|);
  }

  /** All a run admits, with what others hold and the floor, fits into the readings it was judged on. */
  lemma {:induction false} RunFits(floor: U64, others: map<Dev, U64>, copies: seq<Copy>)
    requires forall c, p | c in copies && p in c.parts && p.0.Some? :: p.0.value.free < U64_MAX
    ensures WithinReadings(floor, others, HeldBy(floor, others, copies))
    ensures forall d | d in HeldBy(floor, others, copies) :: HeldBy(floor, others, copies)[d].0.free < U64_MAX
  {
    if copies != [] {
      var n := |copies| - 1;
      RunFits(floor, others, copies[..n]);
      var held := HeldBy(floor, others, copies[..n]);
      if Admitted(floor, others, held, copies[n]) {
        ReadingsSmall(copies[n]);
        AdmittedFits(floor, others, held, PartsOf(copies[n]));
      }
    }
  }

  lemma ReadingsSmall(c: Copy)
    requires Readable(c) && forall p | p in c.parts :: p.0.Some? ==> p.0.value.free < U64_MAX
    ensures forall q | q in PartsOf(c) :: q.fs.free < U64_MAX
  {
    forall q | q in PartsOf(c) ensures q.fs.free < U64_MAX {
      var i :| 0 <= i < |c.parts| && PartsOf(c)[i] == q;
      assert c.parts[i] in c.parts;
    }
  }

  /** The skips a judging leaves: the copies not admitted, in order. */
  ghost predicate Skips(floor: U64, others: map<Dev, U64>, copies: seq<Copy>, upTo: nat, skipped: seq<(nat, Skip)>)
    requires upTo <= |copies|
  {
    && (forall k | 0 <= k < |skipped| :: skipped[k].0 < upTo && !IsAdmitted(floor, others, copies, skipped[k].0)
                                         && (skipped[k].1 == Unknown <==> !Readable(copies[skipped[k].0])))
    && (forall j, k | 0 <= j < k < |skipped| :: skipped[j].0 < skipped[k].0)
    && (forall i | 0 <= i < upTo && !IsAdmitted(floor, others, copies, i) ::
       exists k | 0 <= k < |skipped| :: skipped[k].0 == i)
  }

  lemma SkipsMore(floor: U64, others: map<Dev, U64>, copies: seq<Copy>, i: nat, skipped: seq<(nat, Skip)>, skip: Skip)
    requires i < |copies| && Skips(floor, others, copies, i, skipped)
    ensures IsAdmitted(floor, others, copies, i) ==> Skips(floor, others, copies, i + 1, skipped)
    ensures !IsAdmitted(floor, others, copies, i) && (skip == Unknown <==> !Readable(copies[i])) ==>
              Skips(floor, others, copies, i + 1, skipped + [(i, skip)])
  {
    var more := skipped + [(i, skip)];
    assert more[|skipped|].0 == i;
    forall x | 0 <= x < i && !IsAdmitted(floor, others, copies, x)
        ensures exists k | 0 <= k < |more| :: more[k].0 == x {
      var k :| 0 <= k < |skipped| && skipped[k].0 == x;
      assert more[k].0 == x;
    }
  }

  /** Judge the copies one after the other on a new ledger. */
  method JudgeCopiesWith(floor: U64, others: map<Dev, U64>, copies: seq<Copy>)
    returns (skipped: seq<(nat, Skip)>, taken: map<Dev, U64>)
    ensures Skips(floor, others, copies, |copies|, skipped)
    ensures taken == TakenOf(HeldBy(floor, others, copies))
  {
    var ledger := new Ledger(floor, others);
    skipped := [];
    for i := 0 to |copies|
      invariant fresh(ledger) && ledger.Valid() && ledger.floor == floor && ledger.others == others
      invariant ledger.held == HeldBy(floor, others, copies[..i])
      invariant Skips(floor, others, copies, i, skipped)
    {
      var c := copies[i];
      assert copies[..i + 1][..i] == copies[..i];
      if Readable(c) {
        var v := ledger.Admit(PartsOf(c));
        if v.DoesNot? {
          SkipsMore(floor, others, copies, i, skipped, ShortOf(v.short));
          skipped := skipped + [(i, ShortOf(v.short))];
        } else {
          SkipsMore(floor, others, copies, i, skipped, Unknown);
        }
      } else {
        SkipsMore(floor, others, copies, i, skipped, Unknown);
        skipped := skipped + [(i, Unknown)];
      }
    }
    assert copies[..|copies|] == copies;
    taken := TakenOf(ledger.held);
  }

  /** What an admission holds until it is let go. */
  datatype Hold = Nothing | Holds(pid: nat, token: U64)

  /** What trying the lock of the directory came to: held; kept by another run all the while; or none
      to be had there (it cannot be opened, or its filesystem has no locks), which is no error. */
  datatype Flock = Got | KeptByAnother | NoneToBe

  /** The control box's reservations file. */
  class Box {
    var file: File

    constructor (file: File)
      ensures this.file == file
    {
      this.file := file;
    }

    /** Every copy is skipped for `skip`. */
    method Refuse(copies: seq<Copy>, skip: Skip) returns (skipped: seq<(nat, Skip)>)
      ensures |skipped| == |copies| && forall i | 0 <= i < |skipped| :: skipped[i] == (i, skip)
    {
      skipped := seq(|copies|, i => (i, skip));
    }

    /** Judge a run's copies together against what the other runs hold, and note what it takes.
        With the lock kept by another run, without the notes or without the note of its own, nothing
        is admitted. Where no lock is to be had the run goes on without one. */
    method JudgeCopies(floor: U64, copies: seq<Copy>, reserve: bool, lock: Flock, saveOk: bool,
                       now: nat, alive: set<nat>, pid: nat, token: U64)
      returns (skipped: seq<(nat, Skip)>, hold: Hold)
      modifies this
      ensures lock == KeptByAnother || old(file) == Unreadable ==>
                file == old(file) && hold == Nothing && |skipped| == |copies| && forall s | s in skipped ::
                    s.1 == OthersUnknown
      ensures lock != KeptByAnother && old(file) != Unreadable ==>
                var held := Prune(if old(file).Written? then old(file).held else [], now, alive);
                var taken := TakenOf(HeldBy(floor, ByDev(held), copies));
                if !reserve || taken == map[] then
                  file == old(file) && hold == Nothing && Skips(floor, ByDev(held), copies, |copies|, skipped)
                else if saveOk then
                  && hold == Holds(pid, token) && Skips(floor, ByDev(held), copies, |copies|, skipped)
                  && exists order ::
                       Ordered(order, taken) && file == Written(held + NotesOf(pid, token, taken, now, order))
                else
                  file == old(file) && hold == Nothing && |skipped| == |copies| && forall s | s in skipped ::
                      s.1 == OthersUnknown
    {
      hold := Nothing;
      if lock == KeptByAnother || Load(file).None? {
        skipped := Refuse(copies, OthersUnknown);
        return;
      }
      var held := Prune(Load(file).value, now, alive);
      var taken;
      skipped, taken := JudgeCopiesWith(floor, ByDev(held), copies);
      if reserve && taken != map[] {
        var order := DevsInOrder(taken);
        held := held + NotesOf(pid, token, taken, now, order);
        if !saveOk {
          skipped := Refuse(copies, OthersUnknown);
          return;
        }
        file := Written(held);
        hold := Holds(pid, token);
      }
    }

    /** Let a hold go when its copies have ended; one that cannot be goes with its process. */
    method Drop(hold: Hold, lock: Flock, saveOk: bool)
      modifies this
      ensures hold.Nothing? || lock == KeptByAnother || old(file) == Unreadable || !saveOk ==> file == old(file)
      ensures hold.Holds? && lock != KeptByAnother && old(file) != Unreadable && saveOk ==>
                file == Written(Release(if old(file).Written? then old(file).held else [], hold.pid, hold.token))
    {
      if hold.Nothing? || lock == KeptByAnother || Load(file).None? {
        return;
      }
      var held := Release(Load(file).value, hold.pid, hold.token);
      if saveOk {
        file := Written(held);
      }
    }
  }

  ghost predicate InOrder(order: seq<Dev>, all: set<Dev>, todo: set<Dev>) {
    && Parted(all, (set d | d in order), todo)
    && (forall i, j | 0 <= i < j < |order| :: order[i] < order[j])
    && (forall i, e | 0 <= i < |order| && e in todo :: order[i] < e)
  }

  lemma InOrderMore(order: seq<Dev>, all: set<Dev>, todo: set<Dev>, d: Dev)
    requires InOrder(order, all, todo) && d in todo && forall e | e in todo :: d <= e
    ensures InOrder(order + [d], all, todo - {d})
  {
    PartedOn(all, (set x | x in order), todo, d);
    assert (set x | x in order + [d]) == (set x | x in order) + {d};
  }

  method DevsInOrder(taken: map<Dev, U64>) returns (order: seq<Dev>)
    ensures Ordered(order, taken)
  {
    order := [];
    var todo := taken.Keys;
    while todo != {}
      invariant InOrder(order, taken.Keys, todo)
    {
      ghost var least := LeastOf(todo);
      var d :| d in todo && forall e | e in todo :: d <= e;
      InOrderMore(order, taken.Keys, todo, d);
      order := order + [d];
      todo := todo - {d};
    }
  }
}

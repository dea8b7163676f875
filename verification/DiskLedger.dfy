/** Judging one run's copies onto the control box: what is free on each filesystem, less what other
    runs and this run's earlier copies may still take there, must stay at or above the floor.
    (crates/core/src/disk.rs, crates/cli/src/disk.rs) */
module DiskLedger {

  const U64_MAX: nat := 0xFFFF_FFFF_FFFF_FFFF
  const FIRST_COPY: nat := 3_000_000_000
  const LATER_COPY: nat := 100_000_000

  type Dev = nat

  /** A `u64`. */
  type U64 = n: int | 0 <= n <= 0xFFFF_FFFF_FFFF_FFFF

  function SatAdd(a: U64, b: U64): (r: U64)
    ensures r as int == if a + b <= U64_MAX then a + b else U64_MAX
  {
    if a + b <= U64_MAX then a + b else U64_MAX
  }

  datatype Size = Measured(bytes: U64) | First | Later | InFloor

  function BytesOf(s: Size): U64 {
    match s
    case Measured(b) => b
    case First => FIRST_COPY
    case Later => LATER_COPY
    case InFloor => 0
  }

  /** One filesystem, read. */
  datatype Fs = Fs(dev: Dev, free: U64)

  /** One part of a copy: where it writes, as read, and what it may add there. */
  datatype Part = Part(fs: Fs, size: Size)

  /** Short of room: on which device, and how much more must be free there. */
  datatype Short = Short(dev: Dev, bytes: U64)

  datatype Verdict = Fits | DoesNot(short: Short)

  /** What one copy's sizes on one filesystem add up to. */
  function NeedOf(sizes: seq<Size>): U64 {
    if sizes == [] then 0 else SatAdd(NeedOf(sizes[..|sizes| - 1]), BytesOf(sizes[|sizes| - 1]))
  }

  /** The judge: a copy needing `need` may start when what is free, less `already` and `need`,
      stays at or above the floor. */
  function Judge(fs: Fs, already: U64, need: U64, floor: U64): (v: Verdict)
    ensures v.DoesNot? ==> v.short.dev == fs.dev && v.short.bytes > 0
  {
    var total := SatAdd(SatAdd(floor, already), need);
    if fs.free >= total then Fits else DoesNot(Short(fs.dev, total - fs.free))
  }

  /** On any filesystem with less than the whole of `u64` free the sums never saturate into an
      admission: the judge says exactly whether floor, others and copy fit. */
  lemma JudgeIsExact(fs: Fs, already: U64, need: U64, floor: U64)
    requires fs.free < U64_MAX
    ensures Judge(fs, already, need, floor).Fits? <==> floor + already + need <= fs.free
  {}

  /** And what it says must be freed is just enough: freed, the copy fits; a byte less, it does not. */
  lemma ShortIsJustEnough(fs: Fs, already: U64, need: U64, floor: U64, freed: nat)
    requires Judge(fs, already, need, floor).DoesNot? && floor + already + need <= U64_MAX
    requires fs.free + freed < U64_MAX
    ensures Judge(fs.(free := fs.free + freed), already, need, floor).Fits? <==>
            freed >= Judge(fs, already, need, floor).short.bytes
  {}

  // ---- one copy ------------------------------------------------------------------------------

  /** The sizes of the parts on one device, in order. */
  function SizesOn(parts: seq<Part>, dev: Dev): seq<Size> {
    if parts == [] then []
    else
      var n := |parts| - 1;
      var rest := SizesOn(parts[..n], dev);
      if parts[n].fs.dev == dev then rest + [parts[n].size] else rest
  }

  function DevsOf(parts: seq<Part>): set<Dev> {
    set p | p in parts :: p.fs.dev
  }

  /** The first reading of a device among the parts. */
  function ReadingOf(parts: seq<Part>, dev: Dev): (fs: Fs)
    requires dev in DevsOf(parts)
    ensures fs.dev == dev && exists p :: p in parts && p.fs == fs
  {
    if parts[0].fs.dev == dev then parts[0].fs
    else
      assert parts == [parts[0]] + parts[1..];
      ReadingOf(parts[1..], dev)
  }

  /** Per device: its reading, and what this run's admitted copies may take. */
  type Held = map<Dev, (Fs, U64)>

  function OthersOn(others: map<Dev, U64>, dev: Dev): U64 {
    if dev in others then others[dev] else 0
  }

  /** A filesystem already held on keeps its first reading. */
  function HeldOn(held: Held, parts: seq<Part>, dev: Dev): (Fs, U64)
    requires dev in DevsOf(parts)
  {
    if dev in held then held[dev] else (ReadingOf(parts, dev), 0)
  }

  function VerdictOn(floor: U64, others: map<Dev, U64>, held: Held, parts: seq<Part>, dev: Dev): Verdict
    requires dev in DevsOf(parts)
  {
    var (fs, mine) := HeldOn(held, parts, dev);
    Judge(fs, SatAdd(mine, OthersOn(others, dev)), NeedOf(SizesOn(parts, dev)), floor)
  }

  /** A copy fits when all of its parts do, device by device. */
  ghost predicate CopyFits(floor: U64, others: map<Dev, U64>, held: Held, parts: seq<Part>) {
    forall d | d in DevsOf(parts) :: VerdictOn(floor, others, held, parts, d).Fits?
  }

  function HeldAfter(held: Held, parts: seq<Part>): Held {
    map d | d in held.Keys + DevsOf(parts) ::
      if d in DevsOf(parts)
      then (HeldOn(held, parts, d).0, SatAdd(HeldOn(held, parts, d).1, NeedOf(SizesOn(parts, d))))
      else held[d]
  }

  /** What the run reserves. */
  function TakenOf(held: Held): map<Dev, U64> {
    map d | d in held && held[d].1 > 0 :: held[d].1
  }

  /** The ledger never promises more than there is: on every device floor, others and all that it
      admitted fit into the one reading it holds for that device. */
  predicate WithinReadings(floor: U64, others: map<Dev, U64>, held: Held) {
    forall d | d in held :: held[d].0.dev == d && floor + OthersOn(others, d) + held[d].1 <= held[d].0.free
  }

  lemma AdmittedFits(floor: U64, others: map<Dev, U64>, held: Held, parts: seq<Part>)
    requires WithinReadings(floor, others, held) && CopyFits(floor, others, held, parts)
    requires forall p | p in parts :: p.fs.free < U64_MAX
    requires forall d | d in held :: held[d].0.free < U64_MAX
    ensures WithinReadings(floor, others, HeldAfter(held, parts))
  {
    forall d | d in HeldAfter(held, parts) && d in DevsOf(parts)
      ensures floor + OthersOn(others, d) + HeldAfter(held, parts)[d].1 <= HeldAfter(held, parts)[d].0.free
    {
      var (fs, mine) := HeldOn(held, parts, d);
      assert VerdictOn(floor, others, held, parts, d).Fits?;
      JudgeIsExact(fs, SatAdd(mine, OthersOn(others, d)), NeedOf(SizesOn(parts, d)), floor);
    }
  }

  // ---- what a copy takes, in bytes ---------------------------------------------------------------

  /** How many of the parts on a device are of this size. */
  function CountOn(parts: seq<Part>, dev: Dev, size: Size): nat {
    if parts == [] then 0
    else
      var n := |parts| - 1;
      CountOn(parts[..n], dev, size) + if parts[n].fs.dev == dev && parts[n].size == size then 1 else 0
  }

  /** What the measured parts on a device come to. */
  function MeasuredOn(parts: seq<Part>, dev: Dev): nat {
    if parts == [] then 0
    else
      var n := |parts| - 1;
      var p := parts[n];
      MeasuredOn(parts[..n], dev) + if p.fs.dev == dev && p.size.Measured? then p.size.bytes else 0
  }

  /** What a copy takes on a device: 3 GB for a part copied for the first time, 0.1 GB for one copied again,
      what was measured where it was, and nothing for what the floor is there for. */
  function TakesOn(parts: seq<Part>, dev: Dev): nat {
    3_000_000_000 * CountOn(parts, dev, First) + 100_000_000 * CountOn(parts, dev, Later) + MeasuredOn(parts, dev)
  }

  /** What a copy needs is what it takes, capped. */
  lemma {:induction false} NeedIs(parts: seq<Part>, dev: Dev)
    ensures NeedOf(SizesOn(parts, dev)) as int
            == if TakesOn(parts, dev) <= U64_MAX then TakesOn(parts, dev) else U64_MAX
  {
    if parts != [] {
      var n := |parts| - 1;
      NeedIs(parts[..n], dev);
      if parts[n].fs.dev == dev {
        var rest, size := SizesOn(parts[..n], dev), parts[n].size;
        assert SizesOn(parts, dev) == rest + [size] && (rest + [size])[..|rest|] == rest;
      }
    }
  }

  /** The reading of a device is that of the first part on it. */
  lemma {:induction false} FirstReading(parts: seq<Part>, i: nat)
    requires i < |parts| && forall j | 0 <= j < i :: parts[j].fs.dev != parts[i].fs.dev
    ensures parts[i].fs.dev in DevsOf(parts) && ReadingOf(parts, parts[i].fs.dev) == parts[i].fs
  {
    assert parts[i] in parts;
    if i > 0 {
      assert parts[1..][i - 1] == parts[i];
      FirstReading(parts[1..], i - 1);
    }
  }

  /** On the device there is room for the floor, what others and this run hold there, and the copy. */
  ghost predicate RoomOn(floor: U64, others: map<Dev, U64>, held: Held, parts: seq<Part>, dev: Dev)
    requires dev in DevsOf(parts)
  {
    var theirs := if dev in others then others[dev] else 0;
    var mine := if dev in held then held[dev].1 else 0;
    var free := if dev in held then held[dev].0.free else ReadingOf(parts, dev).free;
    floor + theirs + mine + TakesOn(parts, dev) <= free
  }

  /** No filesystem has the whole of `u64` free. */
  ghost predicate RealReadings(held: Held, parts: seq<Part>) {
    (forall p | p in parts :: p.fs.free < U64_MAX) && forall d | d in held :: held[d].0.free < U64_MAX
  }

  /** A copy fits exactly if there is room for it, to the byte, on every device it touches. */
  lemma FitsExactly(floor: U64, others: map<Dev, U64>, held: Held, parts: seq<Part>)
    requires RealReadings(held, parts)
    ensures CopyFits(floor, others, held, parts) <==> forall d | d in DevsOf(parts) ::
            RoomOn(floor, others, held, parts, d)
  {
    forall d | d in DevsOf(parts)
      ensures VerdictOn(floor, others, held, parts, d).Fits? <==> RoomOn(floor, others, held, parts, d)
    {
      var (fs, mine) := HeldOn(held, parts, d);
      NeedIs(parts, d);
      JudgeIsExact(fs, SatAdd(mine, OthersOn(others, d)), NeedOf(SizesOn(parts, d)), floor);
    }
  }

  /** And what a run then holds there is more by just that. */
  lemma HoldsMore(held: Held, parts: seq<Part>, d: Dev)
    requires d in DevsOf(parts)
    ensures var mine := if d in held then held[d].1 else 0;
            mine + TakesOn(parts, d) <= U64_MAX ==> HeldAfter(held, parts)[d].1 == mine + TakesOn(parts, d)
  {
    NeedIs(parts, d);
  }

  // ---- the ledger as the program keeps it ------------------------------------------------------

  datatype Group = Group(fs: Fs, sizes: seq<Size>)

  /** The parts by device, each with the device's first reading. */
  ghost predicate Grouped(parts: seq<Part>, byDev: map<Dev, Group>) {
    && byDev.Keys == DevsOf(parts)
    && forall d | d in byDev :: byDev[d].fs == ReadingOf(parts, d) && byDev[d].sizes == SizesOn(parts, d)
  }

  lemma ReadingGrows(parts: seq<Part>, p: Part, dev: Dev)
    requires dev in DevsOf(parts + [p])
    ensures ReadingOf(parts + [p], dev) == if dev in DevsOf(parts) then ReadingOf(parts, dev) else p.fs
  {
    if parts == [] {
      assert parts + [p] == [p];
    } else {
      assert (parts + [p])[1..] == parts[1..] + [p];
      assert parts == [parts[0]] + parts[1..];
      if parts[0].fs.dev != dev {
        ReadingGrows(parts[1..], p, dev);
      }
    }
  }

  lemma GroupedGrows(parts: seq<Part>, p: Part, byDev: map<Dev, Group>)
    requires Grouped(parts, byDev)
    ensures var g := if p.fs.dev in byDev then byDev[p.fs.dev] else Group(p.fs, []);
            Grouped(parts + [p], byDev[p.fs.dev := g.(sizes := g.sizes + [p.size])])
  {
    assert (parts + [p])[..|parts|] == parts;
    assert DevsOf(parts + [p]) == DevsOf(parts) + {p.fs.dev};
    forall d | d in DevsOf(parts + [p])
        ensures SizesOn(parts + [p], d) == SizesOn(parts, d) + if p.fs.dev == d then [p.size] else [] {
      ReadingGrows(parts, p, d);
    }
    forall d | d in DevsOf(parts + [p])
        ensures ReadingOf(parts + [p], d) == if d in DevsOf(parts) then ReadingOf(parts, d) else p.fs {
      ReadingGrows(parts, p, d);
    }
    NoneOn(parts, p.fs.dev);
  }

  lemma NoneOn(parts: seq<Part>, dev: Dev)
    ensures dev !in DevsOf(parts) ==> SizesOn(parts, dev) == []
  {
    if parts != [] && dev !in DevsOf(parts) {
      var n := |parts| - 1;
      assert parts[n] in parts && forall p | p in parts[..n] :: p in parts;
      NoneOn(parts[..n], dev);
    }
  }

  lemma LeastOf(s: set<Dev>) returns (least: Dev)
    requires s != {}
    ensures least in s && forall e | e in s :: least <= e
  {
    var x :| x in s;
    least := x;
    if s - {x} != {} {
      var l := LeastOf(s - {x});
      least := if l < x then l else x;
    }
    forall e | e in s ensures least <= e {
      assert e == x || e in s - {x};
    }
  }

  /** The verdicts on the devices below `d` let the copy pass. */
  ghost predicate FitsBelow(floor: U64, others: map<Dev, U64>, held: Held, parts: seq<Part>, d: Dev) {
    forall e | e in DevsOf(parts) && e < d :: VerdictOn(floor, others, held, parts, e).Fits?
  }

  /** The devices judged so far all let the copy pass, with what it takes on each. */
  ghost predicate AllFit(floor: U64, others: map<Dev, U64>, held: Held, parts: seq<Part>, take: Held) {
    forall e | e in take ::
      && e in DevsOf(parts) && VerdictOn(floor, others, held, parts, e).Fits?
      && take[e] == HeldAfter(held, parts)[e] && take[e].0.dev == e
  }

  /** Of all the devices these are through and those are yet to come. */
  ghost predicate Parted(all: set<Dev>, through: set<Dev>, todo: set<Dev>) {
    forall e :: (e in all <==> e in through || e in todo) && (e in through ==> e !in todo)
  }

  lemma PartedOn(all: set<Dev>, through: set<Dev>, todo: set<Dev>, d: Dev)
    requires Parted(all, through, todo) && d in todo
    ensures Parted(all, through + {d}, todo - {d})
  {}

  lemma StopsAt(floor: U64, others: map<Dev, U64>, held: Held, parts: seq<Part>, take: Held, todo: set<Dev>, d: Dev)
    requires AllFit(floor, others, held, parts, take) && Parted(DevsOf(parts), take.Keys, todo)
    requires d in todo && forall e | e in todo :: d <= e
    ensures FitsBelow(floor, others, held, parts, d)
  {
  }

  lemma AllTaken(floor: U64, others: map<Dev, U64>, held: Held, parts: seq<Part>, take: Held)
    requires AllFit(floor, others, held, parts, take) && take.Keys == DevsOf(parts)
    ensures CopyFits(floor, others, held, parts) && held + take == HeldAfter(held, parts)
  {}

  /** The parts of a copy by the device they are on. */
  method GroupByDev(parts: seq<Part>) returns (byDev: map<Dev, Group>)
    ensures Grouped(parts, byDev)
  {
    byDev := map[];
    assert parts[..0] == [];
    for i := 0 to |parts|
      invariant Grouped(parts[..i], byDev)
    {
      var p := parts[i];
      GroupedGrows(parts[..i], p, byDev);
      assert parts[..i + 1] == parts[..i] + [p];
      var g := if p.fs.dev in byDev then byDev[p.fs.dev] else Group(p.fs, []);
      byDev := byDev[p.fs.dev := g.(sizes := g.sizes + [p.size])];
    }
    assert parts[..|parts|] == parts;
  }

  class Ledger {
    const floor: U64
    const others: map<Dev, U64>
    var held: Held

    ghost predicate Valid()
      reads this
    {
      forall d | d in held :: held[d].0.dev == d
    }

    constructor (floor: U64, others: map<Dev, U64>)
      ensures Valid() && this.floor == floor && this.others == others && held == map[]
    {
      this.floor := floor;
      this.others := others;
      held := map[];
    }

    /** Judge the part of a copy on one device: what it would then hold there. */
    method JudgeOn(ghost parts: seq<Part>, d: Dev, g: Group) returns (v: Verdict, h: (Fs, U64))
      requires Valid() && d in DevsOf(parts) && g.fs == ReadingOf(parts, d) && g.sizes == SizesOn(parts, d)
      ensures v == VerdictOn(floor, others, held, parts, d) && (v.DoesNot? ==> v.short.dev == d)
      ensures h == HeldAfter(held, parts)[d] && h.0.dev == d
    {
      var (fs, mine) := if d in held then held[d] else (g.fs, 0);
      var need := NeedOf(g.sizes);
      v := Judge(fs, SatAdd(mine, OthersOn(others, d)), need, floor);
      h := (fs, SatAdd(mine, need));
    }

    /** Admit one copy, all its parts or none; the skip is about the first device that is short. */
    method Admit(parts: seq<Part>) returns (v: Verdict)
      requires Valid()
      modifies this
      ensures Valid()
      ensures v.Fits? <==> CopyFits(floor, others, old(held), parts)
      ensures RealReadings(old(held), parts) ==>
                (v.Fits? <==> forall d | d in DevsOf(parts) :: RoomOn(floor, others, old(held), parts, d))
      ensures held == if v.Fits? then HeldAfter(old(held), parts) else old(held)
      ensures v.DoesNot? ==>
              v.short.dev in DevsOf(parts) && v == VerdictOn(floor, others, old(held), parts, v.short.dev)
                             && FitsBelow(floor, others, old(held), parts, v.short.dev)
    {
      if RealReadings(held, parts) {
        FitsExactly(floor, others, held, parts);
      }
      var byDev := GroupByDev(parts);
      var take: Held := map[];
      var todo := byDev.Keys;
      ghost var was := held;
      while todo != {}
        invariant Valid() && held == was && Parted(DevsOf(parts), take.Keys, todo)
        invariant AllFit(floor, others, was, parts, take)
      {
        ghost var least := LeastOf(todo);
        var d :| d in todo && forall e | e in todo :: d <= e;
        var verdict, h := JudgeOn(parts, d, byDev[d]);
        if verdict.DoesNot? {
          StopsAt(floor, others, was, parts, take, todo, d);
          v := verdict;
          return;
        }
        PartedOn(DevsOf(parts), take.Keys, todo, d);
        take := take[d := h];
        todo := todo - {d};
      }
      AllTaken(floor, others, was, parts, take);
      v := Fits;
      held := held + take;
    }
  }
}

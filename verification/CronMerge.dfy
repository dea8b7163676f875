/** The block after an install or a targeted remove, and the preview of the change.
    (crates/cli/src/cron.rs) */
module CronMerge {
  import opened Wrappers
  import opened CronLine

  /** How a line's kind is read: `CronLine.KindOf`, and nothing below depends on how. */
  type Reader = string -> Option<Kind>

  type Addition = (Kind, string)

  /** The line added for a kind: the first one. */
  function AddOf(add: seq<Addition>, k: Kind): Option<string> {
    if add == [] then None else if add[0].0 == k then Some(add[0].1) else AddOf(add[1..], k)
  }

  /** The kind of a line, if that is one of the touched. */
  function TouchedKind(kind: Reader, line: string, touched: set<Kind>): Option<Kind> {
    var k := kind(line);
    if k.Some? && k.value in touched then k else None
  }

  /** The touched kinds whose new line has taken the place of one of these lines. */
  function Placed(kind: Reader, current: seq<string>, touched: set<Kind>, add: seq<Addition>): set<Kind> {
    set l | l in current && TouchedKind(kind, l, touched).Some?
            && AddOf(add, TouchedKind(kind, l, touched).value).Some? :: TouchedKind(kind, l, touched).value
  }

  /** What one line of the block becomes, where `placed` are in already. */
  function Becomes(kind: Reader, line: string, touched: set<Kind>, add: seq<Addition>, placed: set<Kind>): seq<string> {
    var k := TouchedKind(kind, line, touched);
    if k.None? then [line]
    else
      var new_ := AddOf(add, k.value);
      if new_.Some? && k.value !in placed then [new_.value] else []
  }

  /** The lines of the block, each replaced, dropped or kept where it is. */
  function Body(kind: Reader, current: seq<string>, touched: set<Kind>, add: seq<Addition>): seq<string> {
    if current == [] then []
    else
      var n := |current| - 1;
      Body(kind, current[..n], touched, add)
          + Becomes(kind, current[n], touched, add, Placed(kind, current[..n], touched, add))
  }

  function KindsOf(add: seq<Addition>): set<Kind> {
    set a | a in add :: a.0
  }

  /** The added lines that replaced none, the first of each kind. */
  function Rest(add: seq<Addition>, placed: set<Kind>): seq<string> {
    if add == [] then []
    else if add[0].0 in placed then Rest(add[1..], placed)
    else [add[0].1] + Rest(add[1..], placed + {add[0].0})
  }

  function Merge(kind: Reader, current: seq<string>, touched: set<Kind>, add: seq<Addition>): seq<string> {
    Body(kind, current, touched, add) + Rest(add, Placed(kind, current, touched, add))
  }

  method MergeCronBlock(kind: Reader, current: seq<string>, touched: set<Kind>, add: seq<Addition>)
    returns (out: seq<string>)
    ensures out == Merge(kind, current, touched, add)
  {
    out := [];
    var placed: set<Kind> := {};
    for i := 0 to |current|
      invariant out == Body(kind, current[..i], touched, add) && placed == Placed(kind, current[..i], touched, add)
    {
      var line := current[i];
      BodyMore(kind, current[..i], line, touched, add);
      assert current[..i + 1] == current[..i] + [line];
      var k := kind(line);
      if k.Some? && k.value in touched {
        var new_ := AddOf(add, k.value);
        if k.value !in placed && new_.Some? {
          out := out + [new_.value];
          placed := placed + {k.value};
        }
      } else {
        out := out + [line];
      }
    }
    assert current[..|current|] == current;
    out := AppendRest(out, add, placed);
  }

  /** The added lines of kinds not placed yet, at the end. */
  method AppendRest(body: seq<string>, add: seq<Addition>, before: set<Kind>) returns (out: seq<string>)
    ensures out == body + Rest(add, before)
  {
    out := body;
    var placed := before;
    for i := 0 to |add|
      invariant out + Rest(add[i..], placed) == body + Rest(add, before)
    {
      var (k, new_) := add[i];
      assert add[i..][1..] == add[i + 1..];
      if k !in placed {
        out := out + [new_];
        placed := placed + {k};
      }
    }
    assert out + [] == out;
  }

  lemma BodyMore(kind: Reader, current: seq<string>, line: string, touched: set<Kind>, add: seq<Addition>)
    ensures var k, placed, body := kind(line), Placed(kind, current, touched, add), Body(kind, current, touched, add);
            var new_ := if k.Some? then AddOf(add, k.value) else None;
            var body', placed' := Body(kind, current + [line], touched, add),
                Placed(kind, current + [line], touched, add);
            if k.None? || k.value !in touched then body' == body + [line] && placed' == placed
            else if k.value !in placed && new_.Some? then body' == body + [new_.value] && placed' == placed + {k.value}
            else body' == body && placed' == placed
  {
    assert (current + [line])[..|current|] == current;
    PlacedMore(kind, current, line, touched, add);
  }

  lemma PlacedMore(kind: Reader, current: seq<string>, line: string, touched: set<Kind>, add: seq<Addition>)
    ensures var k := TouchedKind(kind, line, touched);
            var more := if k.Some? && AddOf(add, k.value).Some? then {k.value} else {};
            Placed(kind, current + [line], touched, add) == Placed(kind, current, touched, add) + more
  {}

  // ---- the laws of merging ---------------------------------------------------------------------------

  /** Each added line is of its kind, and that kind is touched. */
  predicate Proper(kind: Reader, touched: set<Kind>, add: seq<Addition>) {
    forall a | a in add :: kind(a.1) == Some(a.0) && a.0 in touched
  }

  /** The lines nobody asked about. */
  function Untouched(kind: Reader, ls: seq<string>, touched: set<Kind>): seq<string> {
    if ls == [] then []
    else
      var n := |ls| - 1;
      Untouched(kind, ls[..n], touched) + if TouchedKind(kind, ls[n], touched).None? then [ls[n]] else []
  }

  function OfKind(kind: Reader, ls: seq<string>, k: Kind): seq<string> {
    if ls == [] then []
    else
      var n := |ls| - 1;
      OfKind(kind, ls[..n], k) + if kind(ls[n]) == Some(k) then [ls[n]] else []
  }

  lemma {:induction false} UntouchedCat(kind: Reader, a: seq<string>, b: seq<string>, touched: set<Kind>)
    ensures Untouched(kind, a + b, touched) == Untouched(kind, a, touched) + Untouched(kind, b, touched)
  {
    if b == [] {
      assert a + b == a;
    } else {
      var n := |b| - 1;
      assert (a + b)[..|a| + n] == a + b[..n];
      UntouchedCat(kind, a, b[..n], touched);
    }
  }

  lemma {:induction false} OfKindCat(kind: Reader, a: seq<string>, b: seq<string>, k: Kind)
    ensures OfKind(kind, a + b, k) == OfKind(kind, a, k) + OfKind(kind, b, k)
  {
    if b == [] {
      assert a + b == a;
    } else {
      var n := |b| - 1;
      assert (a + b)[..|a| + n] == a + b[..n];
      OfKindCat(kind, a, b[..n], k);
    }
  }

  lemma {:induction false} AddOfIs(add: seq<Addition>, k: Kind)
    ensures AddOf(add, k).Some? ==> (k, AddOf(add, k).value) in add
    ensures AddOf(add, k).Some? <==> k in KindsOf(add)
  {
    if add != [] && add[0].0 != k {
      AddOfIs(add[1..], k);
      assert add == [add[0]] + add[1..];
    }
  }

  lemma OneLine(kind: Reader, l: string, k: Kind, touched: set<Kind>)
    ensures OfKind(kind, [l], k) == if kind(l) == Some(k) then [l] else []
    ensures Untouched(kind, [l], touched) == if TouchedKind(kind, l, touched).None? then [l] else []
  {
    assert [l][..0] == [];
  }

  lemma {:induction false} BodyKeepsUntouched(kind: Reader, current: seq<string>, touched: set<Kind>,
                                              add: seq<Addition>)
    requires Proper(kind, touched, add)
    ensures Untouched(kind, Body(kind, current, touched, add), touched) == Untouched(kind, current, touched)
  {
    if current != [] {
      var n := |current| - 1;
      var l := current[n];
      BodyKeepsUntouched(kind, current[..n], touched, add);
      var part := Becomes(kind, l, touched, add, Placed(kind, current[..n], touched, add));
      UntouchedCat(kind, Body(kind, current[..n], touched, add), part, touched);
      var t := TouchedKind(kind, l, touched);
      if t.Some? {
        AddOfIs(add, t.value);
      }
      if part != [] {
        OneLine(kind, part[0], Backup, touched);
      }
    }
  }

  /** In the body a touched kind is its new line, once, if it has one. */
  lemma {:induction false} BodyReplaces(kind: Reader, current: seq<string>, touched: set<Kind>, add: seq<Addition>,
                                        k: Kind)
    requires Proper(kind, touched, add) && k in touched
    ensures OfKind(kind, Body(kind, current, touched, add), k)
         == if k in Placed(kind, current, touched, add) then [AddOf(add, k).value] else []
  {
    if current != [] {
      var n := |current| - 1;
      var l := current[n];
      assert current == current[..n] + [l];
      BodyReplaces(kind, current[..n], touched, add, k);
      BodyMore(kind, current[..n], l, touched, add);
      var body := Body(kind, current[..n], touched, add);
      var t := TouchedKind(kind, l, touched);
      OfKindMore(kind, body, l, k);
      if t.Some? && AddOf(add, t.value).Some? {
        AddOfIs(add, t.value);
        OfKindMore(kind, body, AddOf(add, t.value).value, k);
      }
    }
  }

  lemma OfKindMore(kind: Reader, ls: seq<string>, l: string, k: Kind)
    ensures OfKind(kind, ls + [l], k) == OfKind(kind, ls, k) + if kind(l) == Some(k) then [l] else []
  {
    assert (ls + [l])[..|ls|] == ls;
  }

  lemma {:induction false} RestIsTouched(kind: Reader, add: seq<Addition>, placed: set<Kind>, touched: set<Kind>)
    requires Proper(kind, touched, add)
    ensures Untouched(kind, Rest(add, placed), touched) == []
  {
    if add != [] {
      assert add[0] in add && forall a | a in add[1..] :: a in add;
      RestIsTouched(kind, add[1..], placed, touched);
      RestIsTouched(kind, add[1..], placed + {add[0].0}, touched);
      UntouchedCat(kind, [add[0].1], Rest(add[1..], placed + {add[0].0}), touched);
      OneLine(kind, add[0].1, Backup, touched);
    }
  }

  lemma {:induction false} RestIs(kind: Reader, add: seq<Addition>, placed: set<Kind>, touched: set<Kind>, k: Kind)
    requires Proper(kind, touched, add)
    ensures OfKind(kind, Rest(add, placed), k)
            == if k !in placed && AddOf(add, k).Some? then [AddOf(add, k).value] else []
  {
    if add != [] {
      var (k0, l) := add[0];
      assert add[0] in add && forall a | a in add[1..] :: a in add;
      if k0 in placed {
        RestIs(kind, add[1..], placed, touched, k);
      } else {
        RestIs(kind, add[1..], placed + {k0}, touched, k);
        OfKindCat(kind, [l], Rest(add[1..], placed + {k0}), k);
        OneLine(kind, l, k, touched);
      }
    }
  }

  /** A targeted update: every untouched line stays, byte for byte and in order; of each touched kind
      there is the line added for it, once, or none. */
  lemma MergeIsTargeted(kind: Reader, current: seq<string>, touched: set<Kind>, add: seq<Addition>, k: Kind)
    requires Proper(kind, touched, add)
    ensures Untouched(kind, Merge(kind, current, touched, add), touched) == Untouched(kind, current, touched)
    ensures k in touched ==>
              OfKind(kind, Merge(kind, current, touched, add), k)
                  == if AddOf(add, k).Some? then [AddOf(add, k).value] else []
  {
    var placed := Placed(kind, current, touched, add);
    BodyKeepsUntouched(kind, current, touched, add);
    if k in touched {
      BodyReplaces(kind, current, touched, add, k);
    }
    RestIs(kind, add, placed, touched, k);
    RestIsTouched(kind, add, placed, touched);
    UntouchedCat(kind, Body(kind, current, touched, add), Rest(add, placed), touched);
    OfKindCat(kind, Body(kind, current, touched, add), Rest(add, placed), k);
  }

  lemma {:induction false} BodyGrows(kind: Reader, a: seq<string>, b: seq<string>, touched: set<Kind>,
                                     add: seq<Addition>)
    ensures Body(kind, a, touched, add) <= Body(kind, a + b, touched, add)
  {
    if b == [] {
      assert a + b == a;
    } else {
      var n := |b| - 1;
      assert (a + b)[..|a| + n] == a + b[..n];
      BodyGrows(kind, a, b[..n], touched, add);
    }
  }

  /** A new line is in the place of the first old one of its kind: right after what the lines before
      that one became. */
  lemma MergeKeepsThePlace(kind: Reader, before: seq<string>, old_: string, after: seq<string>, touched: set<Kind>,
                           add: seq<Addition>, k: Kind)
    requires Proper(kind, touched, add) && k in touched && kind(old_) == Some(k) && AddOf(add, k).Some?
    requires forall l | l in before :: kind(l) != Some(k)
    ensures Body(kind, before, touched, add) + [AddOf(add, k).value]
            <= Merge(kind, before + [old_] + after, touched, add)
    ensures Untouched(kind, Body(kind, before, touched, add), touched) == Untouched(kind, before, touched)
  {
    var first := before + [old_];
    assert first[..|before|] == before;
    assert k !in Placed(kind, before, touched, add);
    assert Body(kind, first, touched, add) == Body(kind, before, touched, add) + [AddOf(add, k).value];
    BodyGrows(kind, first, after, touched, add);
    BodyKeepsUntouched(kind, before, touched, add);
  }

  /** One that replaces none comes after them all. */
  lemma MergeAppends(kind: Reader, current: seq<string>, touched: set<Kind>, add: seq<Addition>, k: Kind)
    requires Proper(kind, touched, add) && AddOf(add, k).Some? && forall l | l in current :: kind(l) != Some(k)
    ensures exists rest ::
              && Merge(kind, current, touched, add) == Body(kind, current, touched, add) + rest
              && AddOf(add, k).value in rest
  {
    var placed := Placed(kind, current, touched, add);
    assert k !in placed;
    RestIs(kind, add, placed, touched, k);
    OfKindIn(kind, Rest(add, placed), k, AddOf(add, k).value);
  }

  lemma {:induction false} OfKindIn(kind: Reader, ls: seq<string>, k: Kind, l: string)
    ensures l in OfKind(kind, ls, k) <==> l in ls && kind(l) == Some(k)
  {
    if ls != [] {
      var n := |ls| - 1;
      assert ls == ls[..n] + [ls[n]];
      OfKindIn(kind, ls[..n], k, l);
    }
  }

  /** Every touched kind is settled: its new line, and that once, or nothing. */
  ghost predicate Settled(kind: Reader, ls: seq<string>, touched: set<Kind>, add: seq<Addition>) {
    forall k | k in touched :: OfKind(kind, ls, k) == if AddOf(add, k).Some? then [AddOf(add, k).value] else []
  }

  lemma OfKindOne(kind: Reader, ls: seq<string>, n: nat, k: Kind)
    requires n < |ls| && kind(ls[n]) == Some(k) && |OfKind(kind, ls, k)| <= 1
    ensures OfKind(kind, ls, k) == [ls[n]] && forall l | l in ls[..n] :: kind(l) != Some(k)
  {
    assert ls == ls[..n] + ([ls[n]] + ls[n + 1..]);
    OneAlone(kind, ls[..n], ls[n], ls[n + 1..], k);
  }

  lemma OneAlone(kind: Reader, before: seq<string>, l: string, after: seq<string>, k: Kind)
    requires kind(l) == Some(k) && |OfKind(kind, before + ([l] + after), k)| <= 1
    ensures OfKind(kind, before + ([l] + after), k) == [l] && forall b | b in before :: kind(b) != Some(k)
  {
    OfKindCat(kind, before, [l] + after, k);
    OfKindCat(kind, [l], after, k);
    OneLine(kind, l, k, {});
    forall b | b in before ensures kind(b) != Some(k) {
      OfKindIn(kind, before, k, b);
    }
  }

  lemma {:induction false} SettledBody(kind: Reader, ls: seq<string>, n: nat, touched: set<Kind>, add: seq<Addition>)
    requires Proper(kind, touched, add) && Settled(kind, ls, touched, add) && n <= |ls|
    ensures Body(kind, ls[..n], touched, add) == ls[..n]
  {
    if n > 0 {
      var l := ls[n - 1];
      assert ls[..n][..n - 1] == ls[..n - 1] && ls[..n] == ls[..n - 1] + [l];
      SettledBody(kind, ls, n - 1, touched, add);
      var t := TouchedKind(kind, l, touched);
      if t.Some? {
        OfKindOne(kind, ls, n - 1, t.value);
        assert t.value !in Placed(kind, ls[..n - 1], touched, add);
      }
    }
  }

  lemma {:induction false} NothingLeft(add: seq<Addition>, placed: set<Kind>)
    requires KindsOf(add) <= placed
    ensures Rest(add, placed) == []
  {
    if add != [] {
      assert add[0].0 in KindsOf(add) && forall a | a in add[1..] :: a in add;
      NothingLeft(add[1..], placed);
    }
  }

  /** What is settled merging leaves as it is; so merging again changes nothing. */
  lemma MergeOfSettled(kind: Reader, ls: seq<string>, touched: set<Kind>, add: seq<Addition>)
    requires Proper(kind, touched, add) && Settled(kind, ls, touched, add)
    ensures Merge(kind, ls, touched, add) == ls
  {
    SettledBody(kind, ls, |ls|, touched, add);
    assert ls[..|ls|] == ls;
    forall k | k in KindsOf(add) ensures k in Placed(kind, ls, touched, add) {
      AddOfIs(add, k);
      OfKindIn(kind, ls, k, AddOf(add, k).value);
    }
    NothingLeft(add, Placed(kind, ls, touched, add));
  }

  lemma MergeTwice(kind: Reader, current: seq<string>, touched: set<Kind>, add: seq<Addition>)
    requires Proper(kind, touched, add)
    ensures Merge(kind, Merge(kind, current, touched, add), touched, add) == Merge(kind, current, touched, add)
  {
    forall k | k in touched
        ensures OfKind(kind, Merge(kind, current, touched, add), k)
                == if AddOf(add, k).Some? then [AddOf(add, k).value] else [] {
      MergeIsTargeted(kind, current, touched, add, k);
    }
    MergeOfSettled(kind, Merge(kind, current, touched, add), touched, add);
  }

  lemma {:induction false} BodyFrom(kind: Reader, current: seq<string>, touched: set<Kind>, a: Addition, l: string)
    ensures l in Body(kind, current, touched, [a]) ==> l in current || l == a.1
  {
    if current != [] {
      var n := |current| - 1;
      assert current == current[..n] + [current[n]];
      BodyMore(kind, current[..n], current[n], touched, [a]);
      BodyFrom(kind, current[..n], touched, a, l);
    }
  }

  // ---- the preview --------------------------------------------------------------------------------

  datatype DiffLine = Gone(line: string) | Added(line: string) | Stays(line: string)

  function GoneLines(diff: seq<DiffLine>): multiset<string> {
    if diff == [] then multiset{}
    else
      var n := |diff| - 1;
      GoneLines(diff[..n]) + if diff[n].Gone? then multiset{diff[n].line} else multiset{}
  }

  function AddedLines(diff: seq<DiffLine>): multiset<string> {
    if diff == [] then multiset{}
    else
      var n := |diff| - 1;
      AddedLines(diff[..n]) + if diff[n].Added? then multiset{diff[n].line} else multiset{}
  }

  function StayLines(diff: seq<DiffLine>): multiset<string> {
    if diff == [] then multiset{}
    else
      var n := |diff| - 1;
      StayLines(diff[..n]) + if diff[n].Stays? then multiset{diff[n].line} else multiset{}
  }

  /** The lines that are there afterwards, in order. */
  function AfterLines(diff: seq<DiffLine>): seq<string> {
    if diff == [] then []
    else
      var n := |diff| - 1;
      AfterLines(diff[..n]) + if diff[n].Gone? then [] else [diff[n].line]
  }

  function Excess(a: nat, b: nat): nat {
    if a > b then a - b else 0
  }

  function Least(a: nat, b: nat): nat {
    if a < b then a else b
  }

  /** The diff accounts for every copy of every line. */
  ghost predicate Accounts(diff: seq<DiffLine>, before: seq<string>, after: seq<string>) {
    && (forall l: string :: GoneLines(diff)[l] == Excess(multiset(before)[l], multiset(after)[l]))
    && (forall l: string :: AddedLines(diff)[l] == Excess(multiset(after)[l], multiset(before)[l]))
    && (forall l: string :: StayLines(diff)[l] == Least(multiset(before)[l], multiset(after)[l]))
    && AfterLines(diff) == after
    && GoneLines(diff) + StayLines(diff) == multiset(before)
  }

  lemma DiffMore(diff: seq<DiffLine>, d: DiffLine)
    ensures GoneLines(diff + [d]) == GoneLines(diff) + if d.Gone? then multiset{d.line} else multiset{}
    ensures AddedLines(diff + [d]) == AddedLines(diff) + if d.Added? then multiset{d.line} else multiset{}
    ensures StayLines(diff + [d]) == StayLines(diff) + if d.Stays? then multiset{d.line} else multiset{}
    ensures AfterLines(diff + [d]) == AfterLines(diff) + if d.Gone? then [] else [d.line]
  {
    assert (diff + [d])[..|diff|] == diff;
  }

  lemma OneMore(a: multiset<string>, b: multiset<string>, l: string)
    ensures a[l] > b[l] ==> a - (b + multiset{l}) == (a - b) - multiset{l} && (b + multiset{l}) - a == b - a
    ensures a[l] <= b[l] ==> a - (b + multiset{l}) == a - b && (b + multiset{l}) - a == (b - a) + multiset{l}
    ensures (b + multiset{l}) * a == b * a + if a[l] > b[l] then multiset{l} else multiset{}
  {}

  /** The copies of `done` that `after` has no copy left for are shown as going. */
  ghost predicate Going(out: seq<DiffLine>, done: seq<string>, after: seq<string>, inAfter: multiset<string>) {
    && inAfter == multiset(after) - multiset(done)
    && GoneLines(out) == multiset(done) - multiset(after)
    && AddedLines(out) == multiset{} && StayLines(out) == multiset{} && AfterLines(out) == []
  }

  lemma GoingOn(out: seq<DiffLine>, done: seq<string>, after: seq<string>, inAfter: multiset<string>, l: string)
    requires Going(out, done, after, inAfter)
    ensures inAfter[l] > 0 ==> Going(out, done + [l], after, inAfter - multiset{l})
    ensures inAfter[l] == 0 ==> Going(out + [Gone(l)], done + [l], after, inAfter)
  {
    assert multiset(done + [l]) == multiset(done) + multiset{l};
    OneMore(multiset(after), multiset(done), l);
    DiffMore(out, Gone(l));
  }

  /** Copies of `before` that go, then every line of `after`: new, or one that stays. */
  method CronDiff(before: seq<string>, after: seq<string>) returns (out: seq<DiffLine>)
    ensures Accounts(out, before, after)
  {
    out := [];
    var inAfter := multiset(after);
    for i := 0 to |before|
      invariant Going(out, before[..i], after, inAfter)
    {
      var l := before[i];
      assert before[..i + 1] == before[..i] + [l];
      GoingOn(out, before[..i], after, inAfter, l);
      if inAfter[l] > 0 {
        inAfter := inAfter - multiset{l};
      } else {
        out := out + [Gone(l)];
      }
    }
    assert before[..|before|] == before;
    out := ShowAfter(out, before, after);
  }

  /** Of `after` the first `i` lines are shown; of `before` the copies `stays` are not claimed. */
  ghost predicate Showing(out: seq<DiffLine>, before: seq<string>, after: seq<string>, i: nat, stays: multiset<string>)
    requires i <= |after|
  {
    var done := after[..i];
    && stays == multiset(before) - multiset(done)
    && GoneLines(out) == multiset(before) - multiset(after) && AfterLines(out) == done
    && AddedLines(out) == multiset(done) - multiset(before) && StayLines(out) == multiset(done) * multiset(before)
  }

  lemma ShowingOn(out: seq<DiffLine>, before: seq<string>, after: seq<string>, i: nat, stays: multiset<string>)
    requires i < |after| && Showing(out, before, after, i, stays)
    ensures var l := after[i];
            Showing(out + [if stays[l] > 0 then Stays(l) else Added(l)], before, after, i + 1,
                    if stays[l] > 0 then stays - multiset{l} else stays)
  {
    var l := after[i];
    assert after[..i + 1] == after[..i] + [l];
    OneMore(multiset(before), multiset(after[..i]), l);
    DiffMore(out, Stays(l));
    DiffMore(out, Added(l));
  }

  /** The lines of `after`, each a new one or a copy of one there was. */
  method ShowAfter(gone: seq<DiffLine>, before: seq<string>, after: seq<string>) returns (out: seq<DiffLine>)
    requires Showing(gone, before, after, 0, multiset(before))
    ensures Accounts(out, before, after)
  {
    out := gone;
    var stays := multiset(before);
    for i := 0 to |after|
      invariant Showing(out, before, after, i, stays)
    {
      var l := after[i];
      ShowingOn(out, before, after, i, stays);
      out := out + [if stays[l] > 0 then Stays(l) else Added(l)];
      stays := if stays[l] > 0 then stays - multiset{l} else stays;
    }
    ShownAll(out, before, after, stays);
  }

  lemma Counts(a: multiset<string>, b: multiset<string>, l: string)
    ensures (b - a)[l] == Excess(b[l], a[l]) && (a * b)[l] == Least(b[l], a[l])
    ensures ((b - a) + (a * b))[l] == b[l]
  {}

  lemma ShownAll(out: seq<DiffLine>, before: seq<string>, after: seq<string>, stays: multiset<string>)
    requires Showing(out, before, after, |after|, stays)
    ensures Accounts(out, before, after)
  {
    assert after[..|after|] == after;
    var b, a := multiset(before), multiset(after);
    forall l: string
      ensures GoneLines(out)[l] == Excess(b[l], a[l]) && AddedLines(out)[l] == Excess(a[l], b[l])
              && StayLines(out)[l] == Least(b[l], a[l])
      ensures (GoneLines(out) + StayLines(out))[l] == b[l]
    {
      Counts(a, b, l);
      Counts(b, a, l);
    }
  }
}

/** Which labels one run of the snap sync takes on, and that none of a backlog waits for ever.
    (crates/core/src/archive/sync.rs) */
module ArchivePlan {
  import opened ArchiveState

  const MAX_BACKLOG_PER_RUN: nat := 3

  /** When a label was last tried (never: 0), its week and its day. */
  datatype Rank = Rank(tried: nat, week: nat, day: nat)

  predicate Lower(a: Rank, b: Rank) {
    a.tried < b.tried || (a.tried == b.tried && (a.week < b.week || (a.week == b.week && a.day < b.day)))
  }

  function RankOf(l: Label, tried: nat): Rank {
    match l
    case Dated(week, day) => Rank(tried, week, day)
    case Custom(_) => Rank(tried, 0, 0)
  }

  predicate Older(a: Label, b: Label) {
    Lower(RankOf(a, 0), RankOf(b, 0))
  }

  // ---- sorting and filtering -----------------------------------------------------------------------

  type Times = map<Label, nat>

  predicate Before(tried: Times, a: Label, b: Label)
    requires a in tried && b in tried
  {
    Lower(RankOf(a, tried[a]), RankOf(b, tried[b]))
  }

  function Insert(tried: Times, x: Label, s: seq<Label>): (r: seq<Label>)
    requires x in tried && forall l | l in s :: l in tried
    ensures forall l :: l in r <==> l == x || l in s
  {
    if s == [] || Before(tried, x, s[0]) then [x] + s else [s[0]] + Insert(tried, x, s[1..])
  }

  /** Sorted by when they were tried, then by week and day. */
  function SortBy(tried: Times, s: seq<Label>): (r: seq<Label>)
    requires forall l | l in s :: l in tried
    ensures forall l :: l in r <==> l in s
  {
    if s == [] then [] else Insert(tried, s[0], SortBy(tried, s[1..]))
  }

  function OnlyIn(s: seq<Label>, keep: set<Label>): (r: seq<Label>)
    ensures forall l :: l in r <==> l in s && l in keep
  {
    if s == [] then []
    else
      var n := |s| - 1;
      assert forall l :: l in s <==> l in s[..n] || l == s[n];
      OnlyIn(s[..n], keep) + if s[n] in keep then [s[n]] else []
  }

  function SetOf(s: seq<Label>): set<Label> {
    set l | l in s
  }

  ghost predicate NoneTwice(s: seq<Label>) {
    forall i, j | 0 <= i < j < |s| :: s[i] != s[j]
  }

  ghost predicate AllDated(s: seq<Label>) {
    forall l | l in s :: l.Dated?
  }

  ghost predicate InOrder(tried: Times, s: seq<Label>)
    requires forall l | l in s :: l in tried
  {
    forall i, j | 0 <= i < j < |s| :: Before(tried, s[i], s[j])
  }

  lemma {:induction false} InsertSorts(tried: Times, x: Label, s: seq<Label>)
    requires x in tried && (forall l | l in s :: l in tried) && AllDated(s) && x.Dated? && x !in s && InOrder(tried, s)
    ensures InOrder(tried, Insert(tried, x, s))
  {
    if s != [] {
      if Before(tried, x, s[0]) {
        assert forall j | 0 < j < |s| :: Before(tried, s[0], s[j]);
      } else {
        InsertSorts(tried, x, s[1..]);
        var rest := Insert(tried, x, s[1..]);
        forall l | l in rest ensures Before(tried, s[0], l) {
          if l != x {
            assert l in s[1..];
          }
        }
      }
    }
  }

  lemma {:induction false} SortSorts(tried: Times, s: seq<Label>)
    requires (forall l | l in s :: l in tried) && AllDated(s) && NoneTwice(s)
    ensures InOrder(tried, SortBy(tried, s))
  {
    if s != [] {
      SortSorts(tried, s[1..]);
      InsertSorts(tried, s[0], SortBy(tried, s[1..]));
    }
  }

  lemma {:induction false} OnlyInKeepsOrder(tried: Times, s: seq<Label>, keep: set<Label>)
    requires (forall l | l in s :: l in tried) && InOrder(tried, s)
    ensures InOrder(tried, OnlyIn(s, keep))
  {
    if s != [] {
      var n := |s| - 1;
      OnlyInKeepsOrder(tried, s[..n], keep);
      forall l | l in OnlyIn(s[..n], keep) ensures Before(tried, l, s[n]) {
        var i :| 0 <= i < n && s[i] == l;
      }
    }
  }

  lemma OnlyInMore(s: seq<Label>, i: nat, keep: set<Label>)
    requires i < |s|
    ensures OnlyIn(s[..i + 1], keep) == OnlyIn(s[..i], keep) + if s[i] in keep then [s[i]] else []
  {
    assert s[..i + 1][..i] == s[..i];
  }

  lemma OrderedNoneTwice(tried: Times, s: seq<Label>)
    requires (forall l | l in s :: l in tried) && InOrder(tried, s)
    ensures NoneTwice(s)
  {}

  // ---- whose turn it is --------------------------------------------------------------------------------

  /** The labels of the backlog tried less recently; of those tried at one time, or never, the older. */
  function Ahead(backlog: set<Label>, tried: Times, l: Label): set<Label>
    requires backlog <= tried.Keys && l in tried
  {
    set m | m in backlog && Before(tried, m, l)
  }

  lemma {:induction false} CardOfPrefix(s: seq<Label>, i: nat)
    requires i <= |s| && NoneTwice(s)
    ensures |SetOf(s[..i])| == i
  {
    if i > 0 {
      CardOfPrefix(s, i - 1);
      assert s[..i] == s[..i - 1] + [s[i - 1]];
      assert SetOf(s[..i]) == SetOf(s[..i - 1]) + {s[i - 1]};
      assert s[i - 1] !in s[..i - 1];
    }
  }

  /** The place of a label in the order is how many are ahead of it. */
  lemma PlaceIsAhead(tried: Times, s: seq<Label>, i: nat)
    requires (forall l | l in s :: l in tried) && InOrder(tried, s) && i < |s|
    ensures |Ahead(SetOf(s), tried, s[i])| == i
  {
    OrderedNoneTwice(tried, s);
    CardOfPrefix(s, i);
    assert Ahead(SetOf(s), tried, s[i]) == SetOf(s[..i]);
  }

  lemma FirstOnes(tried: Times, s: seq<Label>, k: nat, l: Label)
    requires (forall l | l in s :: l in tried) && InOrder(tried, s) && l in s && k <= |s|
    ensures l in s[..k] <==> |Ahead(SetOf(s), tried, l)| < k
  {
    var i :| 0 <= i < |s| && s[i] == l;
    PlaceIsAhead(tried, s, i);
    OrderedNoneTwice(tried, s);
  }

  // ---- the plan -------------------------------------------------------------------------------------

  /** Local, dated and not sealed. */
  function OpenOf(local: map<Label, set<Pod>>, st: SnapState, start: int): set<Label> {
    set l | l in local && l.Dated? && !Sealed(l, st, start, local[l])
  }

  predicate IsNewest(local: map<Label, set<Pod>>, l: Label) {
    l in local && l.Dated? && forall m | m in local && m.Dated? :: m == l || Older(m, l)
  }

  function BacklogOf(local: map<Label, set<Pod>>, st: SnapState, start: int): set<Label> {
    set l | l in OpenOf(local, st, start) && !IsNewest(local, l)
  }

  function TimesOf(backlog: set<Label>, st: SnapState): Times {
    map l | l in backlog :: RecordOf(st, l).lastTried
  }

  /** A label of the backlog that three of it at most are tried before, this one included. */
  ghost predicate HasTurn(backlog: set<Label>, tried: Times, l: Label)
    requires backlog <= tried.Keys
  {
    l in backlog && |Ahead(backlog, tried, l)| < 3
  }

  /** What a plan is: the newest label if it is open, then the three of the backlog whose turn it is,
      oldest first, then those asked for; and the rest of the backlog deferred. */
  ghost predicate IsPlan(local: map<Label, set<Pod>>, forced: seq<Label>, st: SnapState, start: int, labels: seq<Label>,
                         deferred: seq<Label>)
  {
    var unsealed, backlog := OpenOf(local, st, start), BacklogOf(local, st, start);
    var tried := TimesOf(backlog, st);
    && NoneTwice(labels)
    && (forall l :: l in labels <==> l in forced || (l in unsealed && IsNewest(local, l)) || HasTurn(backlog, tried, l))
    && (forall l :: l in deferred <==> l in backlog && l !in labels)
    && (forall l | l in unsealed && IsNewest(local, l) :: labels != [] && labels[0] == l)
    && (forall i, j | 0 <= i < j < |labels| && HasTurn(backlog, tried, labels[j]) ::
          if HasTurn(backlog, tried, labels[i]) then Older(labels[i], labels[j])
          else IsNewest(local, labels[i]) && labels[i] in unsealed)
    && (forall i, j | 0 <= i < j < |labels| && OnlyAsked(local, st, start, labels[i]) ::
       AskedOrder(labels[i], labels[j]))
  }

  /** In the plan only as it was asked for. */
  ghost predicate OnlyAsked(local: map<Label, set<Pod>>, st: SnapState, start: int, l: Label) {
    var backlog := BacklogOf(local, st, start);
    && !(l in OpenOf(local, st, start) && IsNewest(local, l))
    && !HasTurn(backlog, TimesOf(backlog, st), l)
  }

  /** Dated labels by their day, then custom ones. */
  predicate AskedOrder(a: Label, b: Label) {
    b.Custom? || (a.Dated? && Older(a, b))
  }

  function OnceEach(s: seq<Label>): (r: seq<Label>)
    ensures forall l :: l in r <==> l in s
  {
    if s == [] then []
    else
      var n := |s| - 1;
      var rest := OnceEach(s[..n]);
      assert forall l :: l in s <==> l in s[..n] || l == s[n];
      rest + if s[n] in rest then [] else [s[n]]
  }

  lemma {:induction false} OnceEachNoneTwice(s: seq<Label>)
    ensures NoneTwice(OnceEach(s))
  {
    if s != [] {
      OnceEachNoneTwice(s[..|s| - 1]);
    }
  }

  function Dateds(s: seq<Label>): set<Label> {
    set l | l in s && l.Dated?
  }

  function NeverTried(ls: set<Label>): Times {
    map l | l in ls :: 0
  }

  /** `sort_labels`: the dated ones, each once, by their day. */
  function SortLabels(s: seq<Label>): (r: seq<Label>)
    ensures forall l :: l in r <==> l in s && l.Dated?
  {
    SortBy(NeverTried(Dateds(s)), OnceEach(OnlyIn(s, Dateds(s))))
  }

  lemma SortLabelsSorts(s: seq<Label>)
    ensures OldestFirst(SortLabels(s))
  {
    OnceEachNoneTwice(OnlyIn(s, Dateds(s)));
    SortSorts(NeverTried(Dateds(s)), OnceEach(OnlyIn(s, Dateds(s))));
    var r := SortLabels(s);
    assert forall i, j | 0 <= i < j < |r| :: Before(NeverTried(Dateds(s)), r[i], r[j]);
  }

  /** Due by itself: the newest if it is open, and who of the backlog has its turn. */
  ghost predicate IsDue(local: map<Label, set<Pod>>, st: SnapState, start: int, due: seq<Label>) {
    var backlog := BacklogOf(local, st, start);
    var tried := TimesOf(backlog, st);
    && NoneTwice(due)
    && (forall l :: l in due <==> !OnlyAsked(local, st, start, l))
    && (forall l | l in OpenOf(local, st, start) && IsNewest(local, l) :: due != [] && due[0] == l)
    && (forall i, j | 0 <= i < j < |due| && HasTurn(backlog, tried, due[j]) ::
          if HasTurn(backlog, tried, due[i]) then Older(due[i], due[j])
          else IsNewest(local, due[i]) && due[i] in OpenOf(local, st, start))
  }

  /** What a run of the snap sync pushes, in order, and what it leaves for later ones. */
  method PlanSnap(names: seq<Label>, local: map<Label, set<Pod>>, forced: seq<Label>, st: SnapState, start: int)
    returns (labels: seq<Label>, deferred: seq<Label>)
    requires SetOf(names) == local.Keys
    ensures IsPlan(local, forced, st, start, labels, deferred)
  {
    var head, backlog := NewestFirst(names, local, st, start);
    labels, deferred := TakeTurns(local, st, start, head, backlog);
    ghost var due := labels;
    labels, deferred := AddAsked(labels, deferred, SortLabels(forced) + OnlyIn(forced, SetOf(forced) - Dateds(forced)));
    AskedIsOrdered(forced);
    PlanIs(local, forced, st, start, due, labels, deferred);
  }

  /** The newest label, if it is open, and the other open ones. */
  method NewestFirst(names: seq<Label>, local: map<Label, set<Pod>>, st: SnapState, start: int)
    returns (head: seq<Label>, backlog: seq<Label>)
    requires SetOf(names) == local.Keys
    ensures |head| <= 1 && forall l :: l in head <==> l in OpenOf(local, st, start) && IsNewest(local, l)
    ensures OldestFirst(backlog) && SetOf(backlog) == BacklogOf(local, st, start)
  {
    var sorted := SortLabels(names);
    var unsealed := OnlyIn(sorted, OpenOf(local, st, start));
    head, backlog := [], unsealed;
    SortLabelsSorts(names);
    assert forall l :: l in sorted <==> l in SetOf(names) && l.Dated?;
    if sorted != [] {
      var newest := sorted[|sorted| - 1];
      HeadAndBacklog(local, st, start, sorted, unsealed, newest);
      if newest in unsealed {
        backlog := OnlyIn(backlog, SetOf(backlog) - {newest});
        head := [newest];
      }
    } else {
      assert OpenOf(local, st, start) == {};
    }
  }

  /** After the head those of the backlog that have their turn; the others are deferred. */
  method TakeTurns(ghost local: map<Label, set<Pod>>, st: SnapState, ghost start: int, head: seq<Label>,
                   backlog: seq<Label>)
    returns (labels: seq<Label>, deferred: seq<Label>)
    requires |head| <= 1 && forall l :: l in head <==> l in OpenOf(local, st, start) && IsNewest(local, l)
    requires OldestFirst(backlog) && SetOf(backlog) == BacklogOf(local, st, start)
    ensures IsDue(local, st, start, labels)
    ensures forall l :: l in deferred <==> l in SetOf(backlog) && l !in labels
  {
    var turn := SortBy(TimesOf(SetOf(backlog), st), backlog);
    turn := turn[..if |turn| <= MAX_BACKLOG_PER_RUN then |turn| else MAX_BACKLOG_PER_RUN];
    FirstHaveTurn(backlog, TimesOf(SetOf(backlog), st));
    labels, deferred := Part(head, backlog, SetOf(turn));
    OnlyInOldestFirst(backlog, SetOf(turn));
    DueIs(local, st, start, head, OnlyIn(backlog, SetOf(turn)));
    assert forall l | l in SetOf(backlog) :: l !in head;
  }

  method Part(head: seq<Label>, backlog: seq<Label>, turn: set<Label>)
    returns (labels: seq<Label>, deferred: seq<Label>)
    ensures labels == head + OnlyIn(backlog, turn)
    ensures deferred == OnlyIn(backlog, SetOf(backlog) - turn)
  {
    labels, deferred := head, [];
    for i := 0 to |backlog|
      invariant labels == head + OnlyIn(backlog[..i], turn)
      invariant deferred == OnlyIn(backlog[..i], SetOf(backlog) - turn)
    {
      OnlyInMore(backlog, i, turn);
      OnlyInMore(backlog, i, SetOf(backlog) - turn);
      assert backlog[i] in SetOf(backlog);
      if backlog[i] in turn {
        labels := labels + [backlog[i]];
      } else {
        deferred := deferred + [backlog[i]];
      }
    }
    assert backlog[..|backlog|] == backlog;
  }

  ghost predicate AskedOrdered(s: seq<Label>) {
    forall i, j | 0 <= i < j < |s| :: s[i] == s[j] || AskedOrder(s[i], s[j])
  }

  method AddAsked(due: seq<Label>, later: seq<Label>, asked: seq<Label>)
    returns (labels: seq<Label>, deferred: seq<Label>)
    requires NoneTwice(due)
    ensures due <= labels && NoneTwice(labels)
    ensures forall l :: l in labels <==> l in due || l in asked
    ensures forall l :: l in deferred <==> l in later && l !in asked
    ensures AskedOrdered(asked) ==> forall a, b | |due| <= a < b < |labels| :: AskedOrder(labels[a], labels[b])
  {
    labels, deferred := due, later;
    for i := 0 to |asked|
      invariant due <= labels && NoneTwice(labels)
      invariant forall l :: l in labels <==> l in due || l in asked[..i]
      invariant forall l :: l in deferred <==> l in later && l !in asked[..i]
      invariant AskedOrdered(asked) ==> forall a, b | |due| <= a < b < |labels| :: AskedOrder(labels[a], labels[b])
      invariant forall a | |due| <= a < |labels| :: labels[a] in asked[..i]
    {
      var f := asked[i];
      deferred := OnlyIn(deferred, SetOf(deferred) - {f});
      if f !in labels {
        assert forall l | l in asked[..i] :: l != f;
        labels := labels + [f];
      }
      assert asked[..i + 1] == asked[..i] + [f];
    }
    assert asked[..|asked|] == asked;
  }

  /** Dated labels, oldest first. */
  ghost predicate OldestFirst(s: seq<Label>) {
    AllDated(s) && forall i, j | 0 <= i < j < |s| :: Older(s[i], s[j])
  }

  lemma {:induction false} OnlyInOldestFirst(s: seq<Label>, keep: set<Label>)
    requires OldestFirst(s)
    ensures OldestFirst(OnlyIn(s, keep))
  {
    if s != [] {
      var n := |s| - 1;
      OnlyInOldestFirst(s[..n], keep);
      forall l | l in OnlyIn(s[..n], keep) ensures Older(l, s[n]) {
        var i :| 0 <= i < n && s[i] == l;
      }
    }
  }

  lemma HeadAndBacklog(local: map<Label, set<Pod>>, st: SnapState, start: int, sorted: seq<Label>, unsealed: seq<Label>,
                       newest: Label)
    requires OldestFirst(sorted) && unsealed == OnlyIn(sorted, OpenOf(local, st, start))
    requires (forall l :: l in sorted <==> l in local && l.Dated?) && sorted != [] && newest == sorted[|sorted| - 1]
    ensures var backlog := if newest in unsealed then OnlyIn(unsealed, SetOf(unsealed) - {newest}) else unsealed;
            OldestFirst(backlog) && SetOf(backlog) == BacklogOf(local, st, start)
    ensures newest in unsealed <==> newest in OpenOf(local, st, start)
    ensures forall l :: IsNewest(local, l) <==> l == newest
  {
    OnlyInOldestFirst(sorted, OpenOf(local, st, start));
    OnlyInOldestFirst(unsealed, SetOf(unsealed) - {newest});
    LastIsNewest(sorted, local);
    UnsealedIsOpen(local, st, start, sorted);
  }

  lemma UnsealedIsOpen(local: map<Label, set<Pod>>, st: SnapState, start: int, sorted: seq<Label>)
    requires forall l :: l in sorted <==> l in local && l.Dated?
    ensures SetOf(OnlyIn(sorted, OpenOf(local, st, start))) == OpenOf(local, st, start)
  {}

  /** The order the due labels come in, and which they are. */
  lemma DueIs(local: map<Label, set<Pod>>, st: SnapState, start: int, head: seq<Label>, rest: seq<Label>)
    requires |head| <= 1 && forall l :: l in head <==> l in OpenOf(local, st, start) && IsNewest(local, l)
    requires OldestFirst(rest)
    requires var backlog := BacklogOf(local, st, start);
             forall l :: l in rest <==> HasTurn(backlog, TimesOf(backlog, st), l)
    ensures IsDue(local, st, start, head + rest)
  {
    var due := head + rest;
    assert forall l :: l in due <==> l in head || l in rest;
    assert forall l | l in rest :: l !in head;
    forall l | l in head ensures due != [] && due[0] == l {
      assert head[0] == l;
    }
    forall i, j | 0 <= i < j < |due| ensures due[i] != due[j] {
      if i < |head| {
        assert head[i] in head && rest[j - |head|] in rest;
      }
    }
    assert forall i | 0 <= i < |due| :: if i < |head| then due[i] in head else due[i] in rest;
  }

  lemma AskedIsOrdered(forced: seq<Label>)
    ensures AskedOrdered(SortLabels(forced) + OnlyIn(forced, SetOf(forced) - Dateds(forced)))
    ensures forall l :: l in SortLabels(forced) + OnlyIn(forced, SetOf(forced) - Dateds(forced)) <==> l in forced
  {
    SortLabelsSorts(forced);
    var a, b := SortLabels(forced), OnlyIn(forced, SetOf(forced) - Dateds(forced));
    forall i, j | 0 <= i < j < |a + b| ensures AskedOrder((a + b)[i], (a + b)[j]) {
      if j < |a| {
        assert a[i] in a && a[j] in a;
      } else {
        assert b[j - |a|] in b;
      }
    }
  }

  lemma PlanIs(local: map<Label, set<Pod>>, forced: seq<Label>, st: SnapState, start: int, due: seq<Label>,
               labels: seq<Label>, deferred: seq<Label>)
    requires IsDue(local, st, start, due) && due <= labels && NoneTwice(labels)
    requires forall l :: l in labels <==> l in due || l in forced
    requires forall l :: l in deferred <==> l in BacklogOf(local, st, start) && l !in due && l !in forced
    requires forall a, b | |due| <= a < b < |labels| :: AskedOrder(labels[a], labels[b])
    ensures IsPlan(local, forced, st, start, labels, deferred)
  {
    var backlog := BacklogOf(local, st, start);
    var tried := TimesOf(backlog, st);
    forall i | 0 <= i < |labels| ensures OnlyAsked(local, st, start, labels[i]) <==> i >= |due| {
      if i < |due| {
        assert due[i] in due;
      } else {
        assert forall k | 0 <= k < |due| :: due[k] == labels[k] && labels[k] != labels[i];
      }
    }
  }

  lemma LastIsNewest(sorted: seq<Label>, local: map<Label, set<Pod>>)
    requires OldestFirst(sorted) && sorted != [] && forall l :: l in sorted <==> l in local && l.Dated?
    ensures forall l :: IsNewest(local, l) <==> l == sorted[|sorted| - 1]
  {
    var last := sorted[|sorted| - 1];
    assert last in sorted;
    forall m | m in local && m.Dated? ensures m == last || Older(m, last) {
      assert m in sorted;
      var i :| 0 <= i < |sorted| && sorted[i] == m;
    }
  }

  lemma FirstHaveTurn(backlog: seq<Label>, tried: Times)
    requires OldestFirst(backlog) && tried.Keys == SetOf(backlog)
    ensures var s := SortBy(tried, backlog);
            var k := if |s| <= 3 then |s| else 3;
            forall l :: l in s[..k] <==> HasTurn(SetOf(backlog), tried, l)
  {
    SortSorts(tried, backlog);
    var s := SortBy(tried, backlog);
    assert SetOf(s) == SetOf(backlog);
    forall l | l in backlog ensures l in s[..if |s| <= 3 then |s| else 3] <==> HasTurn(SetOf(backlog), tried, l) {
      var i :| 0 <= i < |s| && s[i] == l;
      PlaceIsAhead(tried, s, i);
      FirstOnes(tried, s, if |s| <= 3 then |s| else 3, l);
    }
  }

  // ---- no label waits for ever -----------------------------------------------------------------------

  /** One run's round: the backlog it found, when each was last tried, and when it ran. */
  datatype Round = Round(backlog: set<Label>, tried: Times, now: nat)

  ghost predicate Proper(r: Round) {
    && r.backlog <= r.tried.Keys && (forall l | l in r.backlog :: l.Dated? && r.tried[l] < r.now)
  }

  /** The next run finds those tried whose turn it was; some may have been sealed, none has come. */
  ghost predicate Follows(r: Round, r': Round)
    requires Proper(r) && Proper(r')
  {
    && r'.backlog <= r.backlog
    && forall l | l in r'.backlog :: r'.tried[l] == if HasTurn(r.backlog, r.tried, l) then r.now else r.tried[l]
  }

  ghost predicate InARow(rounds: seq<Round>) {
    && (forall i | 0 <= i < |rounds| :: Proper(rounds[i]))
    && (forall i | 0 <= i < |rounds| - 1 :: Follows(rounds[i], rounds[i + 1]))
  }

  lemma {:induction false} LeastOf(backlog: set<Label>, tried: Times) returns (l: Label)
    requires backlog <= tried.Keys && backlog != {} && forall m | m in backlog :: m.Dated?
    ensures l in backlog && forall m | m in backlog :: m == l || Before(tried, l, m)
    decreases backlog
  {
    var x :| x in backlog;
    l := x;
    if backlog != {x} {
      var rest := backlog - {x};
      assert backlog == rest + {x} && rest != {};
      var y := LeastOf(rest, tried);
      l := if Before(tried, y, x) then y else x;
      forall m | m in backlog ensures m == l || Before(tried, l, m) {
        if m != x {
          assert m in rest;
        }
      }
    }
  }

  /** Ahead of the least that is left are those taken before it. */
  lemma LeastIsNext(backlog: set<Label>, tried: Times, l: Label, taken: set<Label>, a: Label)
    requires backlog <= tried.Keys && (forall m | m in backlog :: m.Dated?) && l in backlog
    requires taken <= Ahead(backlog, tried, l) && a in Ahead(backlog, tried, l) - taken
    requires forall m | m in Ahead(backlog, tried, l) - taken :: m == a || Before(tried, a, m)
    requires forall m | m in taken :: Before(tried, m, a)
    ensures Ahead(backlog, tried, a) == taken
  {
    forall m | m in backlog && Before(tried, m, a) ensures m in taken {
      assert Before(tried, m, l) && m in Ahead(backlog, tried, l);
      assert m in Ahead(backlog, tried, l) - taken <==> m !in taken;
    }
  }

  /** The first three of those ahead of a label. */
  lemma ThreeAhead(backlog: set<Label>, tried: Times, l: Label) returns (first: set<Label>)
    requires backlog <= tried.Keys && (forall m | m in backlog :: m.Dated?) && l in backlog
    requires |Ahead(backlog, tried, l)| >= 3
    ensures |first| == 3 && first <= Ahead(backlog, tried, l)
    ensures forall m | m in backlog :: m in first <==> HasTurn(backlog, tried, m)
  {
    var ahead := Ahead(backlog, tried, l);
    var a := LeastOf(ahead, tried);
    var two := ahead - {a};
    assert |two| >= 2;
    var b := LeastOf(two, tried);
    var one := two - {b};
    assert |one| >= 1;
    var c := LeastOf(one, tried);
    first := {a, b, c};
    LeastIsNext(backlog, tried, l, {}, a);
    LeastIsNext(backlog, tried, l, {a}, b);
    assert ahead - {a, b} == one;
    LeastIsNext(backlog, tried, l, {a, b}, c);
    forall m | m in backlog && m !in first ensures !HasTurn(backlog, tried, m) {
      assert first <= Ahead(backlog, tried, m);
      CardAtLeast(first, Ahead(backlog, tried, m));
    }
  }

  lemma CardAtLeast(a: set<Label>, b: set<Label>)
    requires a <= b
    ensures |a| <= |b|
  {
    assert b == a + (b - a);
  }

  /** A round that passes a label over leaves three fewer ahead of it, at the least. */
  lemma PassedOver(r: Round, r': Round, l: Label)
    requires Proper(r) && Proper(r') && Follows(r, r') && l in r'.backlog && !HasTurn(r.backlog, r.tried, l)
    ensures |Ahead(r'.backlog, r'.tried, l)| + 3 <= |Ahead(r.backlog, r.tried, l)|
    ensures r'.backlog == r.backlog ==> |Ahead(r'.backlog, r'.tried, l)| + 3 == |Ahead(r.backlog, r.tried, l)|
  {
    var first := ThreeAhead(r.backlog, r.tried, l);
    var ahead, ahead' := Ahead(r.backlog, r.tried, l), Ahead(r'.backlog, r'.tried, l);
    assert ahead' <= ahead - first;
    CardAtLeast(ahead', ahead - first);
    if r'.backlog == r.backlog {
      assert ahead' == ahead - first;
    }
  }

  /** A label of the backlog has its turn in the run that is a third of those ahead of it away, or before;
      and in no earlier one while none of the backlog is sealed. */
  lemma {:induction false} NoLabelWaitsForEver(rounds: seq<Round>, l: Label) returns (k: nat)
    requires InARow(rounds) && rounds != [] && forall i | 0 <= i < |rounds| :: l in rounds[i].backlog
    requires |Ahead(rounds[0].backlog, rounds[0].tried, l)| / 3 < |rounds|
    ensures k <= |Ahead(rounds[0].backlog, rounds[0].tried, l)| / 3
    ensures HasTurn(rounds[k].backlog, rounds[k].tried, l)
    ensures forall i | 0 <= i < k :: !HasTurn(rounds[i].backlog, rounds[i].tried, l)
    ensures (forall i | 0 <= i < |rounds| :: rounds[i].backlog == rounds[0].backlog) ==>
              k == |Ahead(rounds[0].backlog, rounds[0].tried, l)| / 3
    decreases |rounds|
  {
    var r := rounds[0];
    if HasTurn(r.backlog, r.tried, l) {
      k := 0;
    } else {
      assert Follows(rounds[0], rounds[0 + 1]);
      PassedOver(r, rounds[1], l);
      var j := NoLabelWaitsForEver(rounds[1..], l);
      k := j + 1;
      forall i | 0 <= i < k ensures !HasTurn(rounds[i].backlog, rounds[i].tried, l) {
        if i > 0 {
          assert rounds[i] == rounds[1..][i - 1];
        }
      }
    }
  }
}

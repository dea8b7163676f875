/** The directories whose sizes are measured on a low filesystem: none inside another, since a
    parent's size already holds it. (crates/cli/src/disk.rs) */
module DirCover {

  /** A path by its components, which is how `Path` compares. */
  type Path = seq<string>

  predicate Below(a: string, b: string)
    decreases |a|
  {
    if a == [] || b == [] then a == [] && b != []
    else a[0] < b[0] || (a[0] == b[0] && Below(a[1..], b[1..]))
  }

  /** Component by component, a path before what lies under it. */
  predicate Before(a: Path, b: Path)
    decreases |a|
  {
    if a == [] || b == [] then a == [] && b != []
    else Below(a[0], b[0]) || (a[0] == b[0] && Before(a[1..], b[1..]))
  }

  predicate AtMost(a: Path, b: Path) {
    a == b || Before(a, b)
  }

  /** `p` is `dir`, or lies under it (`Path::starts_with`). */
  predicate StartsWith(p: Path, dir: Path) {
    dir <= p
  }

  lemma {:induction false} BelowOrders(a: string, b: string)
    ensures (if a == b then 1 else 0) + (if Below(a, b) then 1 else 0) + (if Below(b, a) then 1 else 0) == 1
    decreases |a|
  {
    if a != [] && b != [] {
      BelowOrders(a[1..], b[1..]);
      assert a == [a[0]] + a[1..] && b == [b[0]] + b[1..];
    }
  }

  lemma {:induction false} BelowChains(a: string, b: string, c: string)
    requires Below(a, b) && Below(b, c)
    ensures Below(a, c)
    decreases |a|
  {
    if a != [] && a[0] == b[0] == c[0] {
      BelowChains(a[1..], b[1..], c[1..]);
    }
  }

  lemma {:induction false} BeforeOrders(a: Path, b: Path)
    ensures (if a == b then 1 else 0) + (if Before(a, b) then 1 else 0) + (if Before(b, a) then 1 else 0) == 1
    decreases |a|
  {
    if a != [] && b != [] {
      BelowOrders(a[0], b[0]);
      BeforeOrders(a[1..], b[1..]);
      assert a == [a[0]] + a[1..] && b == [b[0]] + b[1..];
    }
  }

  lemma {:induction false} BeforeChains(a: Path, b: Path, c: Path)
    requires Before(a, b) && Before(b, c)
    ensures Before(a, c)
    decreases |a|
  {
    if a != [] {
      BelowOrders(a[0], b[0]);
      BelowOrders(b[0], c[0]);
      if a[0] == b[0] == c[0] {
        BeforeChains(a[1..], b[1..], c[1..]);
      } else if a[0] != b[0] && b[0] != c[0] {
        BelowChains(a[0], b[0], c[0]);
      }
    }
  }

  /** A directory sorts before everything under it. */
  lemma {:induction false} UnderSortsAfter(dir: Path, p: Path)
    requires StartsWith(p, dir)
    ensures AtMost(dir, p)
    decreases |dir|
  {
    if dir != [] {
      UnderSortsAfter(dir[1..], p[1..]);
      assert dir == [dir[0]] + dir[1..] && p == [p[0]] + p[1..];
    }
  }

  ghost predicate Sorted(ps: seq<Path>) {
    forall i, j | 0 <= i < j < |ps| :: AtMost(ps[i], ps[j])
  }

  /** Where `p` goes into what is sorted. */
  method PlaceOf(ps: seq<Path>, p: Path) returns (k: nat)
    requires Sorted(ps)
    ensures k <= |ps| && (forall i | 0 <= i < k :: AtMost(ps[i], p)) && (forall i | k <= i < |ps| :: AtMost(p, ps[i]))
  {
    k := 0;
    while k < |ps| && AtMost(ps[k], p)
      invariant k <= |ps| && forall i | 0 <= i < k :: AtMost(ps[i], p)
    {
      k := k + 1;
    }
    forall i | k <= i < |ps| ensures AtMost(p, ps[i]) {
      BeforeOrders(p, ps[k]);
      if i > k && Before(p, ps[k]) && Before(ps[k], ps[i]) {
        BeforeChains(p, ps[k], ps[i]);
      }
    }
  }

  lemma Inserted(ps: seq<Path>, k: nat, p: Path)
    requires k <= |ps| && Sorted(ps)
    requires (forall i | 0 <= i < k :: AtMost(ps[i], p)) && (forall i | k <= i < |ps| :: AtMost(p, ps[i]))
    ensures Sorted(ps[..k] + [p] + ps[k..]) && multiset(ps[..k] + [p] + ps[k..]) == multiset(ps) + multiset{p}
  {
    assert ps == ps[..k] + ps[k..];
  }

  method Sort(ps: seq<Path>) returns (out: seq<Path>)
    ensures Sorted(out) && multiset(out) == multiset(ps)
  {
    out := [];
    assert ps[..0] == [];
    for i := 0 to |ps|
      invariant Sorted(out) && multiset(out) == multiset(ps[..i])
    {
      var k := PlaceOf(out, ps[i]);
      assert ps[..i + 1] == ps[..i] + [ps[i]];
      Inserted(out, k, ps[i]);
      out := out[..k] + [ps[i]] + out[k..];
    }
    assert ps[..|ps|] == ps;
  }

  /** Of the paths these are kept: no one lies in another, and everything lies in exactly one. */
  ghost predicate MinimalCover(kept: seq<Path>, ps: seq<Path>) {
    && (forall k | k in kept :: k in ps)
    && (forall i, j | 0 <= i < |kept| && 0 <= j < |kept| && i != j :: !StartsWith(kept[i], kept[j]))
    && (forall p | p in ps :: exists i | 0 <= i < |kept| :: StartsWith(p, kept[i]))
  }

  /** Two kept directories hold no path both. */
  lemma HeldOnce(kept: seq<Path>, ps: seq<Path>, p: Path, i: nat, j: nat)
    requires MinimalCover(kept, ps) && i < |kept| && j < |kept|
    requires StartsWith(p, kept[i]) && StartsWith(p, kept[j])
    ensures i == j
  {
    OneInTheOther(kept[i], kept[j], p);
  }

  lemma OneInTheOther(a: Path, b: Path, p: Path)
    requires StartsWith(p, a) && StartsWith(p, b)
    ensures StartsWith(b, a) || StartsWith(a, b)
  {
    assert a == p[..|a|] && b == p[..|b|];
    if |a| <= |b| {
      assert a == b[..|a|];
    } else {
      assert b == a[..|b|];
    }
  }

  /** There is but one: the paths with no other above them. */
  lemma CoverIsTheTopmost(kept: seq<Path>, ps: seq<Path>, p: Path)
    requires MinimalCover(kept, ps)
    ensures p in kept <==> p in ps && forall q | q in ps && StartsWith(p, q) :: q == p
  {
    if p in kept {
      var i :| 0 <= i < |kept| && kept[i] == p;
      forall q | q in ps && StartsWith(p, q) ensures q == p {
        var j :| 0 <= j < |kept| && StartsWith(q, kept[j]);
        assert kept[j] == p[..|kept[j]|];
        HeldOnce(kept, ps, p, i, j);
      }
    }
    if p in ps && forall q | q in ps && StartsWith(p, q) :: q == p {
      var j :| 0 <= j < |kept| && StartsWith(p, kept[j]);
      assert kept[j] in kept;
    }
  }

  /** The loop over the sorted paths: kept is what no kept one holds. */
  method Kept(ps: seq<Path>) returns (kept: seq<Path>)
    ensures MinimalCover(kept, ps)
  {
    var out := Sort(ps);
    kept := [];
    for n := 0 to |out|
      invariant forall k | k in kept :: k in out[..n]
      invariant forall i, j | 0 <= i < |kept| && 0 <= j < |kept| && i != j :: !StartsWith(kept[i], kept[j])
      invariant forall p | p in out[..n] :: exists i | 0 <= i < |kept| :: StartsWith(p, kept[i])
    {
      var p := out[n];
      assert out[..n + 1] == out[..n] + [p];
      if !exists i | 0 <= i < |kept| :: StartsWith(p, kept[i]) {
        forall i | 0 <= i < |kept| ensures !StartsWith(kept[i], p) {
          NotUnderLater(out, n, kept[i], p);
        }
        ghost var was := kept;
        kept := kept + [p];
        assert forall q, i | q in out[..n] && 0 <= i < |was| && StartsWith(q, was[i]) :: StartsWith(q, kept[i]);
        assert StartsWith(p, kept[|was|]);
      }
    }
    assert out[..|out|] == out;
    assert forall p :: p in out <==> p in multiset(out);
    assert forall p :: p in ps <==> p in multiset(ps);
  }

  lemma NotUnderLater(out: seq<Path>, n: nat, k: Path, p: Path)
    requires Sorted(out) && n < |out| && out[n] == p && k in out[..n] && !StartsWith(p, k)
    ensures !StartsWith(k, p)
  {
    var i :| 0 <= i < n && out[i] == k;
    if StartsWith(k, p) {
      UnderSortsAfter(p, k);
      BeforeOrders(k, p);
    }
  }
}

/** The push order as a ring: rotated turns of the same pods, each from where the last one stopped. */
module ArchiveRing {
  import opened Wrappers
  import opened ArchiveState

  /** Turns of the same pods, each finding the cursor the last one left, each with the time to get to
      the first of its order. */
  ghost predicate InARow(pods: seq<Pod>, runs: seq<Turn>) {
    && (forall i | 0 <= i < |runs| :: runs[i].asked == pods && runs[i].reached >= 1
                                      && Reaches(pods, runs[i].found, runs[i].reached, runs[i].next))
    && (forall i | 0 < i < |runs| :: runs[i].found == runs[i - 1].next)
  }

  predicate Gets(pods: seq<Pod>, run: Turn, p: Pod) {
    p in Rotated(pods, run.found)[..Min(run.reached, |Rotated(pods, run.found)|)]
  }

  function Min(a: nat, b: nat): nat {
    if a <= b then a else b
  }

  lemma RotatedAt(s: seq<Pod>, k: nat)
    requires Distinct(s) && k < |s|
    ensures Rotated(s, Some(s[k])) == s[k..] + s[..k]
  {
    var i := IndexOf(s, s[k]);
    assert i == k;
  }

  function Rolled(s: seq<Pod>, k: nat): seq<Pod>
    requires k <= |s|
  {
    s[k..] + s[..k]
  }

  /** Seen as a ring, `b + a` is `a + b`. */
  lemma SameRing(a: seq<Pod>, b: seq<Pod>, k: nat) returns (m: nat)
    requires k < |a + b|
    ensures m < |b + a| && (b + a)[m] == (a + b)[k] && Rolled(b + a, m) == Rolled(a + b, k)
  {
    m := if k < |a| then |b| + k else k - |a|;
    if k < |a| {
      assert Rolled(a + b, k) == a[k..] + b + a[..k];
      assert Rolled(b + a, m) == a[k..] + (b + a[..k]);
    } else {
      assert Rolled(a + b, k) == b[m..] + (a + b[..m]);
      assert Rolled(b + a, m) == b[m..] + a + b[..m];
    }
  }

  /** Rotating what is already rotated is rotating: the pods stay in a ring. */
  lemma RotatedAgain(pods: seq<Pod>, cutOff: Option<Pod>, c: Pod)
    requires Distinct(pods) && c in pods
    ensures Rotated(pods, Some(c)) == Rotated(Rotated(pods, cutOff), Some(c))
  {
    if cutOff.Some? && cutOff.value in pods {
      var i, k := IndexOf(pods, cutOff.value), IndexOf(pods, c);
      assert pods[..i] + pods[i..] == pods;
      var m := SameRing(pods[..i], pods[i..], k);
      RotatedIsPermutation(pods, cutOff);
      RotatedAt(Rotated(pods, cutOff), m);
    }
  }

  /** The first `j` runs have reached the first `k` of the ring, from where the first one started. */
  ghost predicate Swept(pods: seq<Pod>, runs: seq<Turn>, j: nat, k: nat)
    requires 1 <= j <= |runs|
  {
    var ring := Rotated(pods, runs[0].found);
    && k <= |ring|
    && (forall x | 0 <= x < k :: GetsBy(pods, runs, j, ring[x]))
    && (k < |ring| ==> k >= j && runs[j - 1].next == Some(ring[k]))
  }

  ghost predicate GetsBy(pods: seq<Pod>, runs: seq<Turn>, j: nat, p: Pod)
    requires j <= |runs|
  {
    exists i | 0 <= i < j :: Gets(pods, runs[i], p)
  }

  lemma GetsStill(pods: seq<Pod>, runs: seq<Turn>, j: nat, p: Pod)
    requires j < |runs| && (GetsBy(pods, runs, j, p) || Gets(pods, runs[j], p))
    ensures GetsBy(pods, runs, j + 1, p)
  {}

  lemma InTake(s: seq<Pod>, m: nat, i: nat)
    requires i < m <= |s|
    ensures s[i] in s[..m]
  {
    assert s[..m][i] == s[i];
  }

  /** A run that starts at place `k` of the ring reaches what comes there. */
  lemma GetsFrom(pods: seq<Pod>, cutOff: Option<Pod>, run: Turn, k: nat, x: nat)
    requires Distinct(pods) && var ring := Rotated(pods, cutOff);
             k <= x < |ring| && x - k < run.reached && run.found == Some(ring[k])
    ensures var ring := Rotated(pods, cutOff);
            Rotated(pods, run.found) == Rolled(ring, k) && Gets(pods, run, ring[x])
  {
    var ring := Rotated(pods, cutOff);
    RotatedIsPermutation(pods, cutOff);
    assert ring[k] in ring;
    RotatedAgain(pods, cutOff, ring[k]);
    RotatedAt(ring, k);
    assert Rolled(ring, k)[x - k] == ring[x];
    InTake(Rolled(ring, k), Min(run.reached, |ring|), x - k);
  }

  /** One more run: it goes on where the last stopped, past at least one more. */
  lemma SweptOn(pods: seq<Pod>, runs: seq<Turn>, j: nat, k: nat) returns (k': nat)
    requires Distinct(pods) && InARow(pods, runs) && 1 <= j < |runs| && Swept(pods, runs, j, k)
    ensures Swept(pods, runs, j + 1, k')
  {
    var ring, run := Rotated(pods, runs[0].found), runs[j];
    k' := Min(k + run.reached, |ring|);
    forall x | 0 <= x < k' ensures GetsBy(pods, runs, j + 1, ring[x]) {
      if x >= k {
        GetsFrom(pods, runs[0].found, run, k, x);
      }
      GetsStill(pods, runs, j, ring[x]);
    }
    if k' < |ring| {
      GetsFrom(pods, runs[0].found, run, k, k);
      assert Rolled(ring, k)[run.reached] == ring[k'];
    }
  }

  lemma {:induction false} SweptBy(pods: seq<Pod>, runs: seq<Turn>, j: nat) returns (k: nat)
    requires Distinct(pods) && InARow(pods, runs) && 1 <= j <= |runs|
    ensures Swept(pods, runs, j, k)
  {
    if j == 1 {
      k := runs[0].reached;
      var ring := Rotated(pods, runs[0].found);
      forall x | 0 <= x < k ensures GetsBy(pods, runs, 1, ring[x]) {
        assert ring[..Min(k, |ring|)][x] == ring[x];
        assert Gets(pods, runs[0], ring[x]);
      }
    } else {
      k := SweptBy(pods, runs, j - 1);
      k := SweptOn(pods, runs, j - 1, k);
    }
  }

  lemma RingIsReached(pods: seq<Pod>, runs: seq<Turn>, p: Pod)
    requires Distinct(pods) && InARow(pods, runs) && |runs| == |pods| && p in pods
    ensures exists i | 0 <= i < |runs| :: Gets(pods, runs[i], p)
  {
    var k := SweptBy(pods, runs, |runs|);
    var ring := Rotated(pods, runs[0].found);
    RotatedIsPermutation(pods, runs[0].found);
    assert |ring| == |pods|;
    var x :| 0 <= x < |ring| && ring[x] == p;
    assert GetsBy(pods, runs, |runs|, ring[x]);
  }

  /** And fewer may not be enough: runs that each reach one pod leave the last of the ring out. */
  lemma FewerMayStarve(lbl: Label, pods: seq<Pod>) returns (runs: seq<Turn>)
    requires Distinct(pods) && pods != []
    ensures InARow(pods, runs) && |runs| == |pods| - 1
    ensures forall i | 0 <= i < |runs| :: !Gets(pods, runs[i], pods[|pods| - 1])
  {
    runs := seq(|pods| - 1, i requires 0 <= i < |pods| - 1 => Turn(i, lbl, pods, Some(pods[i]), 1, Some(pods[i + 1])));
    forall i | 0 <= i < |runs|
      ensures Reaches(pods, runs[i].found, 1, runs[i].next) && !Gets(pods, runs[i], pods[|pods| - 1])
    {
      RotatedAt(pods, i);
      var order := Rotated(pods, Some(pods[i]));
      assert order[..1] == [pods[i]];
      assert order[1] == pods[i + 1];
    }
  }
}

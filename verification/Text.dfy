/** Texts as the standard library splits them: lines, words, and white space at the ends. A line
    break is one `\n`; a character counts one column. */
module Text {

  // ---- lines of a text -----------------------------------------------------------------------

  predicate IsSpace(c: char) {
    c == ' ' || c == '\t' || c == '\n' || c == '\r' || c == '\U{0b}' || c == '\U{0c}'
  }

  predicate IsLine(l: string) {
    '\n' !in l
  }

  predicate AreLines(ls: seq<string>) {
    forall l | l in ls :: IsLine(l)
  }

  function LineEnd(s: string): (n: nat)
    ensures n <= |s|
  {
    if s == "" || s[0] == '\n' then 0 else LineEnd(s[1..]) + 1
  }

  lemma {:induction false} LineEndIs(s: string)
    ensures '\n' !in s[..LineEnd(s)] && (LineEnd(s) < |s| ==> s[LineEnd(s)] == '\n')
  {
    if s != "" && s[0] != '\n' {
      LineEndIs(s[1..]);
      assert s[..LineEnd(s)] == [s[0]] + s[1..][..LineEnd(s[1..])];
    }
  }

  /** The lines of a text; the newline at its end begins none. */
  function Lines(s: string): seq<string>
    decreases |s|
  {
    if s == "" then []
    else
      var n := LineEnd(s);
      if n == |s| then [s] else [s[..n]] + Lines(s[n + 1..])
  }

  lemma {:induction false} LinesAreLines(s: string)
    ensures AreLines(Lines(s))
    decreases |s|
  {
    if s != "" {
      var n := LineEnd(s);
      assert s[..|s|] == s;
      LineEndIs(s);
      if n < |s| {
        LinesAreLines(s[n + 1..]);
      }
    }
  }

  function Join(ls: seq<string>): string {
    if ls == [] then ""
    else if |ls| == 1 then ls[0]
    else ls[0] + "\n" + Join(ls[1..])
  }

  /** Every line with its newline. */
  function Ended(ls: seq<string>): string {
    if ls == [] then "" else ls[0] + "\n" + Ended(ls[1..])
  }

  function TrimStart(s: string): string {
    if s != "" && IsSpace(s[0]) then TrimStart(s[1..]) else s
  }

  function TrimEnd(s: string): string {
    if s != "" && IsSpace(s[|s| - 1]) then TrimEnd(s[..|s| - 1]) else s
  }

  function Trim(s: string): string {
    TrimEnd(TrimStart(s))
  }

  /** The text without the newlines it ends in. */
  function Chomp(s: string): string {
    if s != "" && s[|s| - 1] == '\n' then Chomp(s[..|s| - 1]) else s
  }

  /** The lines without the empty ones they end in. */
  function WithoutTail(ls: seq<string>): (r: seq<string>)
    ensures r <= ls && (r != [] ==> r[|r| - 1] != "")
  {
    if ls != [] && ls[|ls| - 1] == "" then WithoutTail(ls[..|ls| - 1]) else ls
  }

  lemma FirstLineEnds(l: string, rest: string)
    requires IsLine(l)
    ensures LineEnd(l + "\n" + rest) == |l|
  {
    var s, n := l + "\n" + rest, LineEnd(l + "\n" + rest);
    LineEndIs(s);
    assert s[|l|] == '\n' && forall i | 0 <= i < |l| :: s[i] == l[i] && l[i] in l;
    forall i | 0 <= i < n ensures s[i] != '\n' {
      assert s[i] == s[..n][i];
    }
  }

  lemma LinesOfFirst(l: string, rest: string)
    requires IsLine(l)
    ensures Lines(l + "\n" + rest) == [l] + Lines(rest)
  {
    FirstLineEnds(l, rest);
    assert (l + "\n" + rest)[|l| + 1..] == rest && (l + "\n" + rest)[..|l|] == l;
  }

  lemma Regroup(a: string, b: string, c: string)
    ensures (a + b) + c == a + (b + c)
  {}

  lemma {:induction false} LinesOfEnded(ls: seq<string>, rest: string)
    requires AreLines(ls)
    ensures Lines(Ended(ls) + rest) == ls + Lines(rest)
  {
    if ls == [] {
      assert Ended(ls) + rest == rest;
    } else {
      LinesOfEnded(ls[1..], rest);
      EndedStep(ls, rest, Ended(ls[1..]) + rest, Lines(rest));
    }
  }

  lemma EndedStep(ls: seq<string>, rest: string, text: string, more: seq<string>)
    requires ls != [] && IsLine(ls[0]) && text == Ended(ls[1..]) + rest && Lines(text) == ls[1..] + more
    ensures Lines(Ended(ls) + rest) == ls + more
  {
    EndedFirst(ls, rest);
    OneMoreEnded(ls[0], text, ls[1..] + more);
    FirstAndRest(ls, more);
  }

  lemma EndedFirst(ls: seq<string>, rest: string)
    requires ls != []
    ensures Ended(ls) + rest == ls[0] + "\n" + (Ended(ls[1..]) + rest)
  {
    Regroup(ls[0] + "\n", Ended(ls[1..]), rest);
  }

  lemma OneMoreEnded(l: string, text: string, ls: seq<string>)
    requires IsLine(l) && Lines(text) == ls
    ensures Lines(l + "\n" + text) == [l] + ls
  {
    LinesOfFirst(l, text);
  }

  lemma FirstAndRest(ls: seq<string>, more: seq<string>)
    requires ls != []
    ensures [ls[0]] + (ls[1..] + more) == ls + more
  {
    assert ls == [ls[0]] + ls[1..];
  }

  lemma {:induction false} JoinIsEnded(ls: seq<string>)
    requires ls != []
    ensures Join(ls) + "\n" == Ended(ls)
  {
    if |ls| == 1 {
      assert ls[1..] == [];
    } else {
      var l, tail := ls[0], Join(ls[1..]);
      assert (l + "\n" + tail) + "\n" == l + "\n" + (tail + "\n");
      JoinIsEnded(ls[1..]);
    }
  }

  /** Joined lines split back, when the last of them is not empty. */
  lemma LinesOfJoin(ls: seq<string>)
    requires AreLines(ls) && (ls != [] ==> ls[|ls| - 1] != "")
    ensures Lines(Join(ls)) == ls
  {
    if ls != [] {
      var n := |ls| - 1;
      var l := ls[n];
      assert ls == ls[..n] + [l];
      JoinSplits(ls[..n], l);
      LinesOfEnded(ls[..n], l);
      OneLine(l);
    }
  }

  lemma OneLine(l: string)
    requires IsLine(l) && l != ""
    ensures Lines(l) == [l]
  {
    LineEndIs(l);
    assert forall i | 0 <= i < |l| :: l[i] in l;
  }

  lemma {:induction false} JoinSplits(ls: seq<string>, l: string)
    ensures Join(ls + [l]) == Ended(ls) + l
  {
    if ls == [] {
      assert ls + [l] == [l];
    } else {
      assert (ls + [l])[1..] == ls[1..] + [l];
      JoinSplits(ls[1..], l);
    }
  }

  /** Without the newlines at its end a joined text is the lines without the empty ones at theirs. */
  lemma {:induction false} ChompOfJoin(ls: seq<string>)
    requires AreLines(ls)
    ensures Chomp(Join(ls)) == Join(WithoutTail(ls))
  {
    if ls != [] {
      var n := |ls| - 1;
      assert ls == ls[..n] + [ls[n]];
      JoinSplits(ls[..n], ls[n]);
      if ls[n] == "" {
        ChompOfJoin(ls[..n]);
        if n > 0 {
          JoinIsEnded(ls[..n]);
          assert Join(ls) == Join(ls[..n]) + "\n";
        }
      } else {
        assert Join(ls)[|Join(ls)| - 1] == ls[n][|ls[n]| - 1];
        assert ls[n][|ls[n]| - 1] in ls[n] && ls[n] in ls;
      }
    }
  }

  // ---- words ------------------------------------------------------------------------------------

  predicate IsWord(w: string) {
    w != "" && forall c | c in w :: !IsSpace(c)
  }

  predicate AreWords(ws: seq<string>) {
    forall w | w in ws :: IsWord(w)
  }

  function WordEnd(s: string): (n: nat)
    ensures n <= |s|
  {
    if s == "" || IsSpace(s[0]) then 0 else WordEnd(s[1..]) + 1
  }

  /** `split_whitespace`. */
  function Words(s: string): seq<string>
    decreases |s|
  {
    if s == "" then []
    else if IsSpace(s[0]) then Words(s[1..])
    else [s[..WordEnd(s)]] + Words(s[WordEnd(s)..])
  }

  /** The words with one space between them. */
  function Spaced(ws: seq<string>): string {
    if ws == [] then ""
    else if |ws| == 1 then ws[0]
    else ws[0] + " " + Spaced(ws[1..])
  }

  lemma {:induction false} WordEndsAt(w: string, rest: string)
    requires (forall c | c in w :: !IsSpace(c)) && (rest == "" || IsSpace(rest[0]))
    ensures WordEnd(w + rest) == |w|
  {
    if w == "" {
      assert w + rest == rest;
    } else {
      assert w[0] in w && (w + rest)[1..] == w[1..] + rest;
      WordEndsAt(w[1..], rest);
    }
  }

  lemma FirstWord(w: string, rest: string)
    requires IsWord(w)
    ensures Words(w) == [w] && Words(w + " " + rest) == [w] + Words(rest)
  {
    assert w[0] in w;
    WordEndsAt(w, "");
    assert w + "" == w && w[..|w|] == w && w[|w|..] == "";
    WordEndsAt(w, " " + rest);
    var s := w + (" " + rest);
    assert w + " " + rest == s && s[0] == w[0] && s[..|w|] == w && s[|w|..] == " " + rest;
    assert (" " + rest)[1..] == rest;
  }

  lemma {:induction false} WordsOfSpaced(ws: seq<string>)
    requires AreWords(ws)
    ensures Words(Spaced(ws)) == ws
  {
    if |ws| == 1 {
      FirstWord(ws[0], "");
    } else if |ws| > 1 {
      FirstWord(ws[0], Spaced(ws[1..]));
      WordsOfSpaced(ws[1..]);
      assert ws == [ws[0]] + ws[1..];
    }
  }

  /** Words that were spaced are read back, whatever comes after them. */
  lemma {:induction false} WordsOfMore(ws: seq<string>, rest: string)
    requires AreWords(ws) && ws != []
    ensures Words(Spaced(ws) + " " + rest) == ws + Words(rest)
  {
    if |ws| == 1 {
      FirstWord(ws[0], rest);
    } else {
      Regroup(ws[0] + " ", Spaced(ws[1..]), " " + rest);
      Regroup(ws[0] + " " + Spaced(ws[1..]), " ", rest);
      Regroup(Spaced(ws[1..]), " ", rest);
      FirstWord(ws[0], Spaced(ws[1..]) + " " + rest);
      WordsOfMore(ws[1..], rest);
      assert ws == [ws[0]] + ws[1..];
    }
  }

  lemma {:induction false} WordEndIs(s: string)
    ensures forall c | c in s[..WordEnd(s)] :: !IsSpace(c)
    ensures s != "" && !IsSpace(s[0]) ==> WordEnd(s) > 0
  {
    if s != "" && !IsSpace(s[0]) {
      WordEndIs(s[1..]);
      assert s[..WordEnd(s)] == [s[0]] + s[1..][..WordEnd(s[1..])];
    }
  }

  lemma {:induction false} WordsAreWords(s: string)
    ensures AreWords(Words(s))
    decreases |s|
  {
    if s != "" {
      WordEndIs(s);
      WordsAreWords(if IsSpace(s[0]) then s[1..] else s[WordEnd(s)..]);
    }
  }
}

/** Help text, word-wrapped line by line. (crates/cli/src/help.rs) */
module Wrap {
  import opened Text

  type Group = seq<string>

  /** The spaces a line begins with. */
  function IndentOf(s: string): string {
    if s != "" && s[0] == ' ' then " " + IndentOf(s[1..]) else ""
  }

  /** One output line: its words after the indent; blank without words. */
  function Rendered(indent: string, g: Group): string {
    if g == [] then "" else indent + Spaced(g)
  }

  function RenderedAll(indent: string, gs: seq<Group>): seq<string> {
    if gs == [] then [] else [Rendered(indent, gs[0])] + RenderedAll(indent, gs[1..])
  }

  /** A group takes a further word unless that overruns the width. */
  predicate TakesOn(indent: nat, cur: Group, word: string, width: nat) {
    cur == [] || indent + |Spaced(cur)| + 1 + |word| <= width
  }

  /** The groups the words are put into, one word after the other, `cur` being the group under way. */
  function GroupsFrom(indent: nat, cur: Group, ws: seq<string>, width: nat): seq<Group>
    decreases |ws|
  {
    if ws == [] then [cur]
    else if TakesOn(indent, cur, ws[0], width) then GroupsFrom(indent, cur + [ws[0]], ws[1..], width)
    else [cur] + GroupsFrom(indent, [ws[0]], ws[1..], width)
  }

  function WrappedLine(source: string, width: nat): seq<string> {
    RenderedAll(IndentOf(source), GroupsFrom(|IndentOf(source)|, [], Words(source), width))
  }

  function WrappedLines(sources: seq<string>, width: nat): seq<string> {
    if sources == [] then []
    else WrappedLines(sources[..|sources| - 1], width) + WrappedLine(sources[|sources| - 1], width)
  }

  function Wrapped(text: string, width: nat): string {
    Join(WrappedLines(Lines(text), width))
  }

  lemma {:induction false} SpacedMore(g: Group, w: string)
    ensures Spaced(g + [w]) == if g == [] then w else Spaced(g) + " " + w
  {
    if g == [] {
      assert g + [w] == [w];
    } else {
      assert (g + [w])[1..] == g[1..] + [w];
      SpacedMore(g[1..], w);
    }
  }

  /** Every line of the text, word by word. */
  method WrapText(text: string, width: nat) returns (out: string)
    ensures out == Wrapped(text, width)
  {
    var sources := Lines(text);
    var lines: seq<string> := [];
    for i := 0 to |sources|
      invariant lines == WrappedLines(sources[..i], width)
    {
      assert sources[..i + 1][..i] == sources[..i];
      var more := WrapLine(sources[i], width);
      lines := lines + more;
    }
    assert sources[..|sources|] == sources;
    out := Join(lines);
  }

  method WrapLine(source: string, width: nat) returns (lines: seq<string>)
    ensures lines == WrappedLine(source, width)
  {
    var indent := IndentOf(source);
    var words := Words(source);
    WordsAreWords(source);
    lines := [];
    var line := indent;
    ghost var cur: Group := [];
    for i := 0 to |words|
      invariant line == indent + Spaced(cur) && AreWords(cur)
      invariant lines + RenderedAll(indent, GroupsFrom(|indent|, cur, words[i..], width)) == WrappedLine(source, width)
    {
      var word := words[i];
      assert words[i..][1..] == words[i + 1..] && word in words;
      SpacedStarts(cur);
      WordGoes(lines, indent, cur, words[i..], width);
      if |line| > |indent| && |line| + 1 + |word| > width {
        lines := lines + [line];
        line := indent;
        cur := [];
      }
      if |line| > |indent| {
        line := line + " ";
      }
      WordJoins(indent, cur, word);
      line := line + word;
      cur := cur + [word];
    }
    assert words[|words|..] == [];
    assert RenderedAll(indent, [cur]) == [Rendered(indent, cur)] by { assert [cur][1..] == []; }
    if IsBlank(line) {
      line := "";
    }
    BlankIffNone(indent, source, cur);
    lines := lines + [line];
  }

  /** Where a word goes: on to the line under way, or on a line of its own after it. */
  lemma WordPlaced(indent: string, cur: Group, ws: seq<string>, width: nat)
    requires ws != []
    ensures var all := RenderedAll(indent, GroupsFrom(|indent|, cur, ws, width));
            if TakesOn(|indent|, cur, ws[0], width)
            then all == RenderedAll(indent, GroupsFrom(|indent|, cur + [ws[0]], ws[1..], width))
            else all == [indent + Spaced(cur)] + RenderedAll(indent, GroupsFrom(|indent|, [] + [ws[0]], ws[1..], width))
  {
    assert [] + [ws[0]] == [ws[0]];
    var rest := GroupsFrom(|indent|, [ws[0]], ws[1..], width);
    assert ([cur] + rest)[1..] == rest;
  }

  /** The same, after the lines that are out already. */
  lemma WordGoes(lines: seq<string>, indent: string, cur: Group, ws: seq<string>, width: nat)
    requires ws != []
    ensures var all := lines + RenderedAll(indent, GroupsFrom(|indent|, cur, ws, width));
            if TakesOn(|indent|, cur, ws[0], width)
            then all == lines + RenderedAll(indent, GroupsFrom(|indent|, cur + [ws[0]], ws[1..], width))
            else all == lines + [indent + Spaced(cur)]
                      + RenderedAll(indent, GroupsFrom(|indent|, [] + [ws[0]], ws[1..], width))
  {
    WordPlaced(indent, cur, ws, width);
  }

  lemma WordJoins(indent: string, cur: Group, word: string)
    ensures indent + Spaced(cur + [word]) == if cur == [] then indent + word else indent + Spaced(cur) + " " + word
  {
    SpacedMore(cur, word);
  }

  predicate IsBlank(s: string) {
    forall c | c in s :: IsSpace(c)
  }

  lemma SpacedStarts(g: Group)
    requires AreWords(g)
    ensures g == [] ==> Spaced(g) == ""
    ensures g != [] ==> Spaced(g) != "" && !IsSpace(Spaced(g)[0])
  {
    if g != [] {
      assert g[0] in g && g[0][0] in g[0];
    }
  }

  lemma {:induction false} IndentIs(s: string)
    ensures forall c | c in IndentOf(s) :: c == ' '
    ensures IndentOf(s) <= s && (|IndentOf(s)| < |s| ==> s[|IndentOf(s)|] != ' ')
  {
    if s != "" && s[0] == ' ' {
      IndentIs(s[1..]);
      assert s == [s[0]] + s[1..];
    }
  }

  lemma BlankIffNone(indent: string, source: string, g: Group)
    requires indent == IndentOf(source) && AreWords(g)
    ensures IsBlank(indent + Spaced(g)) <==> g == []
  {
    IndentIs(source);
    SpacedStarts(g);
    if g != [] {
      assert (indent + Spaced(g))[|indent|] == Spaced(g)[0];
    }
  }

  // ---- what a line becomes -------------------------------------------------------------------------

  function Concat(gs: seq<Group>): Group {
    if gs == [] then [] else gs[0] + Concat(gs[1..])
  }

  /** Word by word a group was allowed to grow. */
  predicate Grown(indent: nat, g: Group, width: nat) {
    forall j | 1 <= j < |g| :: TakesOn(indent, g[..j], g[j], width)
  }

  /** The words in order, in groups that each grew within the width. */
  lemma {:induction false} GroupsAre(indent: nat, cur: Group, ws: seq<string>, width: nat)
    requires Grown(indent, cur, width)
    ensures var gs := GroupsFrom(indent, cur, ws, width);
            && Concat(gs) == cur + ws && (forall g | g in gs :: Grown(indent, g, width))
            && gs != [] && (cur + ws != [] ==> forall g | g in gs :: g != [])
    decreases |ws|
  {
    if ws == [] {
      assert [cur][1..] == [] && cur + [] == cur;
    } else if TakesOn(indent, cur, ws[0], width) {
      var more := cur + [ws[0]];
      forall j | 1 <= j < |more| ensures TakesOn(indent, more[..j], more[j], width) {
        assert more[..j] == cur[..j];
        assert j == |cur| ==> cur[..j] == cur;
      }
      assert more + ws[1..] == cur + ws;
      GroupsAre(indent, more, ws[1..], width);
    } else {
      var rest := GroupsFrom(indent, [ws[0]], ws[1..], width);
      GroupsAre(indent, [ws[0]], ws[1..], width);
      assert ([cur] + rest)[1..] == rest && [ws[0]] + ws[1..] == ws;
    }
  }

  lemma GrownFits(indent: nat, g: Group, width: nat)
    requires Grown(indent, g, width) && |g| > 1
    ensures indent + |Spaced(g)| <= width
  {
    var n := |g| - 1;
    assert TakesOn(indent, g[..n], g[n], width);
    assert g == g[..n] + [g[n]];
    SpacedMore(g[..n], g[n]);
  }

  /** A group that grew within the width stays one group. */
  lemma {:induction false} GrownStays(indent: nat, g: Group, j: nat, width: nat)
    requires Grown(indent, g, width) && j <= |g|
    ensures GroupsFrom(indent, g[..j], g[j..], width) == [g]
    decreases |g| - j
  {
    if j == |g| {
      assert g[..j] == g && g[j..] == [];
    } else {
      assert g[..j] + [g[j]] == g[..j + 1] && g[j..][1..] == g[j + 1..];
      assert TakesOn(indent, g[..j], g[j], width) by { assert j == 0 ==> g[..j] == []; }
      GrownStays(indent, g, j + 1, width);
    }
  }

  lemma {:induction false} IndentedWords(indent: string, g: Group)
    requires AreWords(g) && forall c | c in indent :: c == ' '
    ensures Words(indent + Spaced(g)) == g
    ensures g != [] ==> IndentOf(indent + Spaced(g)) == indent
  {
    var s := indent + Spaced(g);
    if indent == "" {
      WordsOfSpaced(g);
      assert s == Spaced(g);
      SpacedStarts(g);
    } else {
      assert s[0] == indent[0] && indent[0] in indent && s[1..] == indent[1..] + Spaced(g);
      assert forall c | c in indent[1..] :: c in indent;
      IndentedWords(indent[1..], g);
      assert indent == " " + indent[1..];
    }
  }

  lemma {:induction false} RenderedAre(indent: string, gs: seq<Group>, l: string)
    ensures |RenderedAll(indent, gs)| == |gs|
    ensures l in RenderedAll(indent, gs) <==> exists g :: g in gs && l == Rendered(indent, g)
  {
    if gs != [] {
      RenderedAre(indent, gs[1..], l);
      assert gs == [gs[0]] + gs[1..];
    }
  }

  function WordsOfAll(lines: seq<string>): seq<string> {
    if lines == [] then [] else Words(lines[0]) + WordsOfAll(lines[1..])
  }

  lemma {:induction false} RenderedWords(indent: string, gs: seq<Group>)
    requires (forall c | c in indent :: c == ' ') && AreWords(Concat(gs))
    ensures WordsOfAll(RenderedAll(indent, gs)) == Concat(gs)
  {
    if gs != [] {
      assert Concat(gs) == gs[0] + Concat(gs[1..]);
      assert forall w | w in gs[0] :: w in Concat(gs);
      assert forall w | w in Concat(gs[1..]) :: w in Concat(gs);
      IndentedWords(indent, gs[0]);
      RenderedWords(indent, gs[1..]);
    }
  }

  lemma {:induction false} WordsInGroups(gs: seq<Group>, g: Group)
    requires g in gs && AreWords(Concat(gs))
    ensures AreWords(g)
  {
    assert forall w | w in gs[0] :: w in Concat(gs);
    assert forall w | w in Concat(gs[1..]) :: w in Concat(gs);
    if g != gs[0] {
      WordsInGroups(gs[1..], g);
    }
  }

  /** What one output line is. */
  lemma LineIs(source: string, width: nat, l: string) returns (g: Group)
    requires l in WrappedLine(source, width)
    ensures l == Rendered(IndentOf(source), g) && AreWords(g) && Grown(|IndentOf(source)|, g, width)
    ensures g == [] <==> Words(source) == []
    ensures Words(l) == g && (g != [] ==> IndentOf(l) == IndentOf(source))
  {
    var indent, ws := IndentOf(source), Words(source);
    var gs := GroupsFrom(|indent|, [], ws, width);
    GroupsAre(|indent|, [], ws, width);
    WordsAreWords(source);
    assert [] + ws == ws;
    RenderedAre(indent, gs, l);
    g :| g in gs && l == Rendered(indent, g);
    WordsInGroups(gs, g);
    IndentIs(source);
    if ws == [] {
      assert gs == [[]];
    } else {
      IndentedWords(indent, g);
    }
  }

  /** Wrapping keeps a line's words, in order, and its indent; and every line of it fits, or is one
      word. */
  lemma WrapKeepsTheWords(source: string, width: nat)
    ensures WordsOfAll(WrappedLine(source, width)) == Words(source)
    ensures Words(source) == [] ==> WrappedLine(source, width) == [""]
    ensures forall l | l in WrappedLine(source, width) && Words(source) != [] ::
              IndentOf(l) == IndentOf(source) && |Words(l)| >= 1 && (|l| <= width || |Words(l)| == 1)
  {
    var indent, ws := IndentOf(source), Words(source);
    var gs := GroupsFrom(|indent|, [], ws, width);
    GroupsAre(|indent|, [], ws, width);
    assert [] + ws == ws;
    WordsAreWords(source);
    IndentIs(source);
    RenderedWords(indent, gs);
    forall l | l in WrappedLine(source, width) && ws != []
      ensures IndentOf(l) == indent && |Words(l)| >= 1 && (|l| <= width || |Words(l)| == 1)
    {
      var g := LineIs(source, width, l);
      if |g| > 1 {
        GrownFits(|indent|, g, width);
      }
    }
    if ws == [] {
      assert gs == [[]] && gs[1..] == [];
    }
  }

  // ---- in no fewer lines -----------------------------------------------------------------------------

  /** A way to put words on lines: each line fits, or is one word. */
  predicate Splits(indent: nat, gs: seq<Group>, ws: seq<string>, width: nat) {
    Concat(gs) == ws && forall g | g in gs :: g != [] && (|g| == 1 || indent + |Spaced(g)| <= width)
  }

  lemma {:induction false} SpacedLonger(a: Group, b: Group)
    ensures |Spaced(a + b)| >= |Spaced(b)| && |Spaced(a + b)| >= |Spaced(a)|
  {
    if a == [] {
      assert a + b == b;
    } else {
      assert (a + b)[1..] == a[1..] + b;
      SpacedLonger(a[1..], b);
    }
  }

  /** Once `cur` may not take on `w`, any split has a line that ends in `cur`. */
  lemma {:induction false} Peel(indent: nat, gs: seq<Group>, before: Group, cur: Group, w: string,
                                rest: seq<string>, width: nat)
    returns (gs': seq<Group>, tail: Group)
    requires Splits(indent, gs, before + cur + [w] + rest, width) && cur != [] && !TakesOn(indent, cur, w, width)
    ensures |gs'| < |gs| && Splits(indent, gs', tail + [w] + rest, width)
  {
    var p := before + cur;
    var all := p + [w] + rest;
    assert gs != [] by { assert all[|p|] == w; }
    var g := gs[0];
    assert all == g + Concat(gs[1..]) && g in gs;
    assert forall h | h in gs[1..] :: h in gs;
    if |g| <= |p| {
      var q := p[|g|..];
      assert Concat(gs[1..]) == all[|g|..] == q + [w] + rest;
      if |q| >= |cur| {
        assert q == q[..|q| - |cur|] + cur;
        gs', tail := Peel(indent, gs[1..], q[..|q| - |cur|], cur, w, rest, width);
      } else {
        gs', tail := gs[1..], q;
      }
    } else {
      assert g == all[..|g|];
      TooLong(indent, before, cur, w, g, width);
    }
  }

  lemma TooLong(indent: nat, before: Group, cur: Group, w: string, g: Group, width: nat)
    requires cur != [] && !TakesOn(indent, cur, w, width)
    requires |before + cur| < |g| && g[..|before + cur| + 1] == before + cur + [w]
    ensures |g| > 1 && indent + |Spaced(g)| > width
  {
    var after := g[|before + cur| + 1..];
    assert g == before + (cur + [w]) + after;
    SpacedMore(cur, w);
    SpacedLonger(before, cur + [w]);
    SpacedLonger(before + (cur + [w]), after);
  }

  /** The line under way never has more on it than another split's, so there are never more lines. */
  lemma {:induction false} GreedyStaysAhead(indent: nat, before: Group, cur: Group, ws: seq<string>,
                                            gs: seq<Group>, width: nat)
    requires cur != [] && Splits(indent, gs, before + cur + ws, width)
    ensures |GroupsFrom(indent, cur, ws, width)| <= |gs|
    decreases |ws|
  {
    if ws == [] {
      assert gs != [] by { assert (before + cur + ws)[|before|] == cur[0]; }
    } else if TakesOn(indent, cur, ws[0], width) {
      assert before + (cur + [ws[0]]) + ws[1..] == before + cur + ws;
      GreedyStaysAhead(indent, before, cur + [ws[0]], ws[1..], gs, width);
    } else {
      assert before + cur + [ws[0]] + ws[1..] == before + cur + ws;
      var gs', tail := Peel(indent, gs, before, cur, ws[0], ws[1..], width);
      GreedyStaysAhead(indent, tail, [ws[0]], ws[1..], gs', width);
    }
  }

  /** No other split of the line's words under the same rule uses fewer lines. */
  lemma WrapIsShortest(source: string, width: nat, gs: seq<Group>)
    requires Splits(|IndentOf(source)|, gs, Words(source), width) && Words(source) != []
    ensures |WrappedLine(source, width)| <= |gs|
  {
    var indent, ws := IndentOf(source), Words(source);
    RenderedAre(indent, GroupsFrom(|indent|, [], ws, width), "");
    assert [] + [ws[0]] == [ws[0]] && [] + [ws[0]] + ws[1..] == ws;
    GreedyStaysAhead(|indent|, [], [ws[0]], ws[1..], gs, width);
  }

  // ---- wrapping again --------------------------------------------------------------------------------

  function Flat(blocks: seq<seq<string>>): seq<string> {
    if blocks == [] then [] else Flat(blocks[..|blocks| - 1]) + blocks[|blocks| - 1]
  }

  /** What one line of the text has become: its words, in order, on lines with its indent that fit or are one
      word; or one blank line. */
  ghost predicate IsWrapOf(block: seq<string>, source: string, width: nat) {
    && WordsOfAll(block) == Words(source) && (Words(source) == [] ==> block == [""])
    && forall l | l in block && Words(source) != [] ::
         IndentOf(l) == IndentOf(source) && |Words(l)| >= 1 && (|l| <= width || |Words(l)| == 1)
  }

  /** The wrapped text is what each of its lines has become, in order. */
  lemma WrapsEachLine(text: string, width: nat) returns (blocks: seq<seq<string>>)
    ensures |blocks| == |Lines(text)| && Wrapped(text, width) == Join(Flat(blocks))
    ensures forall i | 0 <= i < |blocks| :: IsWrapOf(blocks[i], Lines(text)[i], width)
  {
    blocks := BlocksOf(Lines(text), width);
  }

  lemma {:induction false} BlocksOf(sources: seq<string>, width: nat) returns (blocks: seq<seq<string>>)
    ensures |blocks| == |sources| && Flat(blocks) == WrappedLines(sources, width)
    ensures forall i | 0 <= i < |blocks| :: IsWrapOf(blocks[i], sources[i], width)
  {
    if sources == [] {
      blocks := [];
    } else {
      var n := |sources| - 1;
      var before := BlocksOf(sources[..n], width);
      blocks := before + [WrappedLine(sources[n], width)];
      WrapKeepsTheWords(sources[n], width);
      assert blocks[..n] == before;
    }
  }

  /** A wrapped line is wrapped already. */
  lemma LineStays(source: string, width: nat, l: string)
    requires l in WrappedLine(source, width)
    ensures WrappedLine(l, width) == [l] && IsLine(l)
  {
    var g := LineIs(source, width, l);
    var indent := IndentOf(source);
    if g == [] {
      WrapKeepsTheWords(l, width);
    } else {
      assert g[..0] == [] && g[0..] == g;
      GrownStays(|indent|, g, 0, width);
      OneGroup(indent, g);
      IndentIs(source);
      NoNewline(g);
      assert l == indent + Spaced(g);
    }
  }

  lemma OneGroup(indent: string, g: Group)
    ensures RenderedAll(indent, [g]) == [Rendered(indent, g)]
  {
    assert [g][1..] == [];
  }

  lemma {:induction false} NoNewline(ws: seq<string>)
    requires AreWords(ws)
    ensures IsLine(Spaced(ws))
  {
    if ws != [] {
      assert ws[0] in ws && IsSpace('\n');
      if |ws| > 1 {
        NoNewline(ws[1..]);
      }
    }
  }

  lemma {:induction false} LinesCome(sources: seq<string>, width: nat, l: string) returns (source: string)
    requires l in WrappedLines(sources, width)
    ensures source in sources && l in WrappedLine(source, width)
  {
    var n := |sources| - 1;
    if l in WrappedLine(sources[n], width) {
      source := sources[n];
    } else {
      source := LinesCome(sources[..n], width, l);
    }
  }

  lemma LinesStay(lines: seq<string>, width: nat)
    requires forall l | l in lines :: WrappedLine(l, width) == [l]
    ensures WrappedLines(lines, width) == lines
  {
    FirstStay(lines, |lines|, width);
    assert lines[..|lines|] == lines;
  }

  lemma {:induction false} FirstStay(lines: seq<string>, n: nat, width: nat)
    requires n <= |lines| && forall l | l in lines :: WrappedLine(l, width) == [l]
    ensures WrappedLines(lines[..n], width) == lines[..n]
    decreases n
  {
    if n > 0 {
      FirstStay(lines, n - 1, width);
      assert lines[n - 1] in lines;
      OneMoreStays(lines[..n - 1], lines[n - 1], width);
      assert lines[..n] == lines[..n - 1] + [lines[n - 1]];
    }
  }

  lemma OneMoreStays(lines: seq<string>, l: string, width: nat)
    requires WrappedLines(lines, width) == lines && WrappedLine(l, width) == [l]
    ensures WrappedLines(lines + [l], width) == lines + [l]
  {
    assert (lines + [l])[..|lines|] == lines;
  }

  predicate EndsBlank(text: string) {
    var sources := Lines(text);
    |sources| >= 2 && Words(sources[|sources| - 1]) == []
  }

  lemma WrappedNotEmpty(source: string, width: nat)
    ensures WrappedLine(source, width) != []
  {
    GroupsAre(|IndentOf(source)|, [], Words(source), width);
    RenderedAre(IndentOf(source), GroupsFrom(|IndentOf(source)|, [], Words(source), width), "");
  }

  lemma AllStay(text: string, width: nat)
    ensures var lines := WrappedLines(Lines(text), width);
            AreLines(lines) && forall l | l in lines :: WrappedLine(l, width) == [l]
  {
    forall l | l in WrappedLines(Lines(text), width) ensures IsLine(l) && WrappedLine(l, width) == [l] {
      var source := LinesCome(Lines(text), width, l);
      LineStays(source, width, l);
    }
  }

  /** The last line of what a line becomes is blank when the line is. */
  lemma LastOfLine(source: string, width: nat)
    ensures var lines := WrappedLine(source, width); lines != [] && (lines[|lines| - 1] == "" <==> Words(source) == [])
  {
    WrappedNotEmpty(source, width);
    var lines := WrappedLine(source, width);
    var last := lines[|lines| - 1];
    assert last in lines;
    var g := LineIs(source, width, last);
    SpacedStarts(g);
  }

  lemma SomeLines(sources: seq<string>, width: nat)
    ensures WrappedLines(sources, width) == [] <==> sources == []
  {
    if sources != [] {
      WrappedNotEmpty(sources[|sources| - 1], width);
    }
  }

  lemma LastLine(sources: seq<string>, width: nat)
    requires sources != []
    ensures var lines, blank := WrappedLines(sources, width), Words(sources[|sources| - 1]) == [];
            && lines != [] && (lines[|lines| - 1] == "" <==> blank)
            && (blank ==> (|lines| >= 2 <==> |sources| >= 2))
  {
    var n := |sources| - 1;
    var before, last := WrappedLines(sources[..n], width), WrappedLine(sources[n], width);
    LastOfLine(sources[n], width);
    assert (before + last)[|before + last| - 1] == last[|last| - 1];
    SomeLines(sources[..n], width);
    if Words(sources[n]) == [] {
      WrapKeepsTheWords(sources[n], width);
    }
  }

  /** Wrapping again changes nothing, exactly when the text is not of several lines the last of
      which is blank: that one is lost. */
  lemma WrapAgain(text: string, width: nat)
    ensures Wrapped(Wrapped(text, width), width) == Wrapped(text, width) <==> !EndsBlank(text)
  {
    var lines := WrappedLines(Lines(text), width);
    AllStay(text, width);
    LinesStay(lines, width);
    if lines != [] {
      LinesStay(lines[..|lines| - 1], width);
    }
    BlankAtEnd(text, width);
    WrapAgainOf(lines, width);
  }

  lemma BlankAtEnd(text: string, width: nat)
    ensures var lines := WrappedLines(Lines(text), width);
            EndsBlank(text) <==> |lines| >= 2 && lines[|lines| - 1] == ""
  {
    SomeLines(Lines(text), width);
    if Lines(text) != [] {
      LastLine(Lines(text), width);
    }
  }

  /** Of lines that stay: wrapped again, they are the same exactly if the last is not blank after
      others. */
  lemma WrapAgainOf(lines: seq<string>, width: nat)
    requires AreLines(lines) && WrappedLines(lines, width) == lines
    requires lines != [] ==> WrappedLines(lines[..|lines| - 1], width) == lines[..|lines| - 1]
    ensures Wrapped(Join(lines), width) == Join(lines) <==> !(|lines| >= 2 && lines[|lines| - 1] == "")
  {
    if lines != [] && lines[|lines| - 1] == "" {
      var rest := lines[..|lines| - 1];
      assert lines == rest + [""];
      LosesTheLast(rest, width);
    } else {
      LinesOfJoin(lines);
    }
  }

  /** Of lines that end in a blank one, that one is lost; which shows, if it is not the only one. */
  lemma LosesTheLast(lines: seq<string>, width: nat)
    requires AreLines(lines) && WrappedLines(lines, width) == lines
    ensures var text := Join(lines + [""]); Wrapped(text, width) == text <==> lines == []
  {
    JoinSplits(lines, "");
    LinesOfEnded(lines, "");
    assert lines + [] == lines && Ended(lines) + "" == Ended(lines);
    if lines != [] {
      JoinIsEnded(lines);
    }
  }
}

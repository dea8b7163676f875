/** Arena's managed block inside someone else's crontab: taking it out, putting it back, reading it.
    (crates/cli/src/cron.rs, crates/core/src/cron.rs) */
module CronText {
  import opened Text

  const BEGIN := "# >>> arena-infra-rs >>>"
  const END := "# <<< arena-infra-rs <<<"

  // ---- the block ---------------------------------------------------------------------------------

  predicate IsMarker(l: string) {
    Trim(l) == BEGIN || Trim(l) == END
  }

  /** The lines outside every block; one that is not closed goes on to the end. */
  function Outside(ls: seq<string>, inBlock: bool): seq<string> {
    if ls == [] then []
    else if IsMarker(ls[0]) then Outside(ls[1..], Trim(ls[0]) == BEGIN)
    else (if inBlock then [] else [ls[0]]) + Outside(ls[1..], inBlock)
  }

  /** The lines inside the blocks. */
  function Inside(ls: seq<string>, inBlock: bool): seq<string> {
    if ls == [] then []
    else if IsMarker(ls[0]) then Inside(ls[1..], Trim(ls[0]) == BEGIN)
    else (if inBlock then [ls[0]] else []) + Inside(ls[1..], inBlock)
  }

  /** Someone else's part of the crontab. */
  function Core(existing: string): seq<string> {
    WithoutTail(Outside(Lines(existing), false))
  }

  function Strip(existing: string): string {
    Chomp(Join(Outside(Lines(existing), false)))
  }

  function Block(lines: seq<string>): seq<string> {
    if lines == [] then [] else [BEGIN] + lines + [END]
  }

  /** Lines that can go into the block. */
  predicate Plain(ls: seq<string>) {
    forall l | l in ls :: IsLine(l) && !IsMarker(l)
  }

  lemma {:induction false} OutsideIsPlain(ls: seq<string>, inBlock: bool)
    requires AreLines(ls)
    ensures Plain(Outside(ls, inBlock))
  {
    if ls != [] {
      OutsideIsPlain(ls[1..], if IsMarker(ls[0]) then Trim(ls[0]) == BEGIN else inBlock);
    }
  }

  lemma CoreIsPlain(existing: string)
    ensures Plain(Core(existing))
  {
    LinesAreLines(existing);
    OutsideIsPlain(Lines(existing), false);
    assert forall l | l in Core(existing) :: l in Outside(Lines(existing), false);
  }

  lemma StripIsCore(existing: string)
    ensures Strip(existing) == Join(Core(existing)) && Lines(Strip(existing)) == Core(existing)
    ensures Strip(existing) == "" <==> Core(existing) == []
  {
    LinesAreLines(existing);
    OutsideIsPlain(Lines(existing), false);
    ChompOfJoin(Outside(Lines(existing), false));
    CoreIsPlain(existing);
    LinesOfJoin(Core(existing));
  }

  /** Take any block of arena's out of the crontab. */
  method StripArenaBlock(existing: string) returns (s: string)
    ensures s == Strip(existing)
  {
    var out, inBlock := [], false;
    var lines := Lines(existing);
    for i := 0 to |lines|
      invariant out + Outside(lines[i..], inBlock) == Outside(lines, false)
    {
      var line := lines[i];
      assert lines[i..][1..] == lines[i + 1..];
      if Trim(line) == BEGIN {
        inBlock := true;
      } else if Trim(line) == END {
        inBlock := false;
      } else if !inBlock {
        out := out + [line];
      }
    }
    assert lines[|lines|..] == [] && out + [] == out;
    s := Join(out);
    while s != "" && s[|s| - 1] == '\n'
      invariant Chomp(s) == Strip(existing)
      decreases |s|
    {
      s := s[..|s| - 1];
    }
  }

  /** The crontab without its old block and with the new one; no lines: just without. */
  method WithArenaBlock(existing: string, lines: seq<string>) returns (s: string)
    ensures s == With(existing, lines)
  {
    var base := StripArenaBlock(existing);
    StripIsCore(existing);
    if base != "" {
      JoinIsEnded(Core(existing));
    }
    if lines == [] {
      assert Block(lines) == [] && Core(existing) + [] == Core(existing);
      return if base == "" then "" else base + "\n";
    }
    s := Marked(base, Core(existing), BEGIN, lines, END);
    BlockSplits(Core(existing), BEGIN, lines, END);
  }

  lemma BlockSplits(core: seq<string>, begin: string, lines: seq<string>, end: string)
    ensures core + ([begin] + lines + [end]) == core + [begin] + lines + [end]
  {}

  /** `base`, whose lines are `core`, then the lines between the two markers. */
  method Marked(base: string, ghost core: seq<string>, begin: string, lines: seq<string>, end: string)
    returns (s: string)
    requires if base == "" then core == [] else base + "\n" == Ended(core)
    ensures s == Ended(core + [begin] + lines + [end])
  {
    s := "";
    if base != "" {
      s := s + base;
      s := s + "\n";
    }
    ghost var head := core + [begin];
    EndedMore(core, begin);
    s := s + begin;
    s := s + "\n";
    assert head + lines[..0] == head;
    for i := 0 to |lines|
      invariant s == Ended(head + lines[..i])
    {
      EndedMore(head + lines[..i], lines[i]);
      assert head + lines[..i + 1] == head + lines[..i] + [lines[i]];
      s := s + lines[i];
      s := s + "\n";
    }
    EndedMore(head + lines, end);
    assert lines[..|lines|] == lines;
    s := s + end;
    s := s + "\n";
  }

  lemma {:induction false} EndedMore(ls: seq<string>, l: string)
    ensures Ended(ls + [l]) == Ended(ls) + l + "\n"
  {
    if ls == [] {
      assert ls + [l] == [l] && [l][1..] == [];
    } else {
      assert (ls + [l])[1..] == ls[1..] + [l];
      EndedMore(ls[1..], l);
    }
  }

  /** What the new crontab is: someone else's lines, then the block. */
  function With(existing: string, lines: seq<string>): string {
    Ended(Core(existing) + Block(lines))
  }

  // ---- the laws ----------------------------------------------------------------------------------

  lemma MarkersTrim()
    ensures Trim(BEGIN) == BEGIN && Trim(END) == END && BEGIN != END && IsLine(BEGIN) && IsLine(END)
  {}

  lemma {:induction false} OutsidePlain(ls: seq<string>, rest: seq<string>, inBlock: bool)
    requires Plain(ls)
    ensures Outside(ls + rest, inBlock) == (if inBlock then [] else ls) + Outside(rest, inBlock)
  {
    if ls == [] {
      assert ls + rest == rest;
    } else {
      assert (ls + rest)[1..] == ls[1..] + rest && (ls + rest)[0] == ls[0];
      OutsidePlain(ls[1..], rest, inBlock);
      assert !IsMarker(ls[0]);
      assert [ls[0]] + (ls[1..] + Outside(rest, inBlock)) == ls + Outside(rest, inBlock);
    }
  }

  lemma {:induction false} InsidePlain(ls: seq<string>, rest: seq<string>, inBlock: bool)
    requires Plain(ls)
    ensures Inside(ls + rest, inBlock) == (if inBlock then ls else []) + Inside(rest, inBlock)
  {
    if ls == [] {
      assert ls + rest == rest;
    } else {
      assert (ls + rest)[1..] == ls[1..] + rest && (ls + rest)[0] == ls[0];
      InsidePlain(ls[1..], rest, inBlock);
      assert !IsMarker(ls[0]);
      assert [ls[0]] + (ls[1..] + Inside(rest, inBlock)) == ls + Inside(rest, inBlock);
    }
  }

  lemma BlockReads(core: seq<string>, lines: seq<string>)
    requires Plain(core) && Plain(lines)
    ensures Outside(core + Block(lines), false) == core && Inside(core + Block(lines), false) == lines
  {
    OutsidePlain(core, Block(lines), false);
    InsidePlain(core, Block(lines), false);
    if lines != [] {
      BlockIsAside(BEGIN, lines, END);
    }
  }

  lemma BlockIsAside(begin: string, lines: seq<string>, end: string)
    requires Trim(begin) == BEGIN && Trim(end) == END && Plain(lines)
    ensures Outside([begin] + lines + [end], false) == [] && Inside([begin] + lines + [end], false) == lines
  {
    MarkersTrim();
    var tail := lines + [end];
    assert ([begin] + lines + [end])[1..] == tail;
    OutsidePlain(lines, [end], true);
    InsidePlain(lines, [end], true);
    assert [end][1..] == [];
  }

  lemma WithLines(existing: string, lines: seq<string>)
    requires Plain(lines)
    ensures Lines(With(existing, lines)) == Core(existing) + Block(lines)
  {
    MarkersTrim();
    CoreIsPlain(existing);
    LinesOfEnded(Core(existing) + Block(lines), "");
    assert Ended(Core(existing) + Block(lines)) + "" == Ended(Core(existing) + Block(lines));
  }

  /** The block between the markers is exactly the lines; the rest is exactly what was there. */
  lemma WithReadsBack(existing: string, lines: seq<string>)
    requires Plain(lines)
    ensures Inside(Lines(With(existing, lines)), false) == lines
    ensures Core(With(existing, lines)) == Core(existing)
    ensures Strip(With(existing, lines)) == Strip(existing)
  {
    WithLines(existing, lines);
    CoreIsPlain(existing);
    BlockReads(Core(existing), lines);
    CoreHasNoTail(existing);
    StripIsCore(existing);
    StripIsCore(With(existing, lines));
  }

  lemma CoreHasNoTail(existing: string)
    ensures WithoutTail(Core(existing)) == Core(existing)
  {}

  /** The last block written is the only one. */
  lemma WithTwice(existing: string, a: seq<string>, b: seq<string>)
    requires Plain(a)
    ensures With(With(existing, a), b) == With(existing, b)
  {
    WithReadsBack(existing, a);
  }

  lemma StripTwice(existing: string)
    ensures Strip(Strip(existing)) == Strip(existing)
  {
    StripIsCore(existing);
    CoreIsPlain(existing);
    OutsidePlain(Core(existing), [], false);
    assert Core(existing) + [] == Core(existing);
    CoreHasNoTail(existing);
    StripIsCore(Strip(existing));
  }

  lemma {:induction false} NoEndSwallows(ls: seq<string>)
    requires forall l | l in ls :: Trim(l) != END
    ensures Outside(ls, true) == []
  {
    if ls != [] {
      NoEndSwallows(ls[1..]);
    }
  }

  lemma UnclosedIsAside(begin: string, after: seq<string>)
    requires Trim(begin) == BEGIN && forall l | l in after :: Trim(l) != END
    ensures Outside([begin] + after, false) == []
  {
    assert ([begin] + after)[1..] == after;
    NoEndSwallows(after);
  }

  /** A block whose end is missing reaches to the end of the crontab. */
  lemma UnclosedSwallows(before: seq<string>, begin: string, after: seq<string>)
    requires Plain(before) && AreLines(after) && forall l | l in after :: Trim(l) != END
    requires IsLine(begin) && Trim(begin) == BEGIN
    ensures Core(Ended(before + [begin] + after)) == WithoutTail(before)
  {
    var ls := before + [begin] + after;
    LinesOfEnded(ls, "");
    assert Ended(ls) + "" == Ended(ls) && ls + Lines("") == ls;
    assert ls == before + ([begin] + after);
    OutsidePlain(before, [begin] + after, false);
    UnclosedIsAside(begin, after);
    assert before + [] == before;
  }

  /** What `cron show` and a re-install read as arena's: the lines inside, less the blank ones. */
  function Managed(existing: string): seq<string> {
    NonBlank(Inside(Lines(existing), false))
  }

  function NonBlank(ls: seq<string>): seq<string> {
    if ls == [] then [] else (if Trim(ls[0]) == "" then [] else [ls[0]]) + NonBlank(ls[1..])
  }

  lemma {:induction false} NonBlankAll(ls: seq<string>)
    requires forall l | l in ls :: Trim(l) != ""
    ensures NonBlank(ls) == ls
  {
    if ls != [] {
      NonBlankAll(ls[1..]);
    }
  }

  /** So what is written is what the next install finds. */
  lemma ManagedIsWritten(existing: string, lines: seq<string>)
    requires Plain(lines) && forall l | l in lines :: Trim(l) != ""
    ensures Managed(With(existing, lines)) == lines
  {
    WithReadsBack(existing, lines);
    NonBlankAll(lines);
  }
}

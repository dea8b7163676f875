/** Which start date is read from a line, and which text is one.
    (crates/cli/src/cron.rs, crates/core/src/schedule.rs) */
module CronDate {
  import opened Wrappers
  import opened Text
  import opened CronLine

  /** An assignment of a valid start date. */
  predicate SetsDate(w: string) {
    DATE_PREFIX <= w && ParseYmd(w[|DATE_PREFIX|..]).Some?
  }

  lemma {:induction false} NameEndsAt(name: string, rest: string)
    requires '=' !in name
    ensures IndexOfChar(name + "=" + rest, '=') == |name|
  {
    if name == "" {
      assert name + "=" + rest == "=" + rest;
    } else {
      assert (name + "=" + rest)[1..] == name[1..] + "=" + rest && name[0] in name;
      assert '=' !in name[1..];
      NameEndsAt(name[1..], rest);
    }
  }

  lemma DateIsAssigned(d: string)
    ensures IsAssignment(DATE_PREFIX + d) && (DATE_PREFIX + d)[|DATE_PREFIX|..] == d
  {
    var name := "ARENA_START_DATE";
    assert DATE_PREFIX == name + "=";
    assert '=' !in name && IsName(name);
    NameEndsAt(name, d);
    assert (name + "=" + d)[..|name|] == name;
  }

  /** The start date read is the first valid one among the assignments before the command. */
  lemma {:induction false} FirstDateIsRead(before: seq<string>, d: string, rest: seq<string>)
    requires forall w | w in before :: IsAssignment(w) && !SetsDate(w)
    requires ParseYmd(d).Some?
    ensures StartDateOf(before + [DATE_PREFIX + d] + rest) == Some(d)
  {
    var words := before + [DATE_PREFIX + d] + rest;
    DateIsAssigned(d);
    if before == [] {
      assert words[0] == DATE_PREFIX + d;
    } else {
      assert words[0] == before[0] && words[1..] == before[1..] + [DATE_PREFIX + d] + rest;
      FirstDateIsRead(before[1..], d, rest);
    }
  }

  /** None is read behind a word that is no assignment. */
  lemma {:induction false} NoDateBehindTheCommand(before: seq<string>, word: string, rest: seq<string>)
    requires forall w | w in before :: IsAssignment(w) && !SetsDate(w)
    requires !IsAssignment(word)
    ensures StartDateOf(before + [word] + rest) == None
  {
    var words := before + [word] + rest;
    if before != [] {
      assert words[0] == before[0] && words[1..] == before[1..] + [word] + rest;
      NoDateBehindTheCommand(before[1..], word, rest);
    } else {
      assert words[0] == word;
    }
  }

  // ---- dates ---------------------------------------------------------------------------------------

  predicate Digits(s: string) {
    s != "" && forall c | c in s :: IsDigit(c)
  }

  lemma {:induction false} DashEndsAt(a: string, rest: string)
    requires '-' !in a
    ensures SplitDash(a) == [a] && SplitDash(a + "-" + rest) == [a] + SplitDash(rest)
  {
    DashAt(a, rest);
    assert (a + "-" + rest)[..|a|] == a && (a + "-" + rest)[|a| + 1..] == rest;
  }

  lemma {:induction false} DashAt(a: string, rest: string)
    requires '-' !in a
    ensures IndexOfChar(a, '-') == |a| && IndexOfChar(a + "-" + rest, '-') == |a|
  {
    if a == "" {
      assert a + "-" + rest == "-" + rest;
    } else {
      assert (a + "-" + rest)[1..] == a[1..] + "-" + rest && a[0] in a && '-' !in a[1..];
      DashAt(a[1..], rest);
    }
  }

  lemma DigitsParse(s: string, max: nat)
    requires Digits(s)
    ensures ParseNum(s, max) == if Value(s) <= max then Some(Value(s)) else None
  {
    assert s[0] in s;
  }

  lemma TrimsToItself(s: string)
    requires s != "" && !IsSpace(s[0]) && !IsSpace(s[|s| - 1])
    ensures Trim(s) == s
  {}

  lemma DateParts(y: string, m: string, d: string)
    requires Digits(y) && Digits(m) && Digits(d)
    ensures SplitDash(y + "-" + m + "-" + d) == [y, m, d]
  {
    assert y + "-" + m + "-" + d == y + "-" + (m + "-" + d);
    DashEndsAt(y, m + "-" + d);
    DashEndsAt(m, d);
    DashEndsAt(d, "");
  }

  lemma DateTrims(y: string, m: string, d: string)
    requires Digits(y) && Digits(m) && Digits(d)
    ensures Trim(y + "-" + m + "-" + d) == y + "-" + m + "-" + d
  {
    var s := y + "-" + m + "-" + d;
    assert s[0] == y[0] && y[0] in y && s[|s| - 1] == d[|d| - 1] && d[|d| - 1] in d;
    TrimsToItself(s);
  }

  /** Of three numbers with dashes between them a date is read exactly if month and day are of a year's
      and a month's longest, and the year fits into 64 bits. */
  lemma DateIsRead(y: string, m: string, d: string)
    requires Digits(y) && Digits(m) && Digits(d)
    ensures ParseYmd(y + "-" + m + "-" + d) ==
            if Value(y) <= 0x7FFF_FFFF_FFFF_FFFF && 1 <= Value(m) <= 12 && 1 <= Value(d) <= 31
            then Some((Value(y), Value(m), Value(d))) else None
  {
    DateTrims(y, m, d);
    DateParts(y, m, d);
    DigitsParse(y, I64_MAX);
    DigitsParse(m, U32_MAX);
    DigitsParse(d, U32_MAX);
  }

  /** In decimal. */
  lemma ValueIs(s: string, c: char)
    requires (s == "" || Digits(s)) && IsDigit(c)
    ensures Value([c]) == c as int - '0' as int && Value(s + [c]) == 10 * Value(s) + Value([c])
  {
    assert (s + [c])[..|s|] == s && [c][..0] == "";
  }
}

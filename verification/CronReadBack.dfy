/** A rendered backup line reads back to the options it was rendered from: exactly when. */
module CronReadBack {
  import opened Wrappers
  import opened Text
  import opened CronText
  import opened CronLine

  /** A schedule of five fields, or one `@` macro, none of them a word a job is told by. */
  predicate WellFormedSchedule(s: string) {
    var fields := Words(s);
    && s == Spaced(fields) && fields != [] && fields[0] != "" && fields[0][0] != '#'
    && |fields| == (if fields[0][0] == '@' then 1 else 5)
    && forall f | f in fields :: TagOf(f) == Other
  }

  /** Options that can be rendered: such a schedule, and a valid date without space around it. */
  predicate WellFormed(o: BackupOpts) {
    && WellFormedSchedule(o.schedule)
    && (o.startDate.Some? ==> ParseYmd(o.startDate.value).Some? && Trim(o.startDate.value) == o.startDate.value)
  }

  predicate PathsAreFit(exe: string, config: string, home: string, log: string) {
    CrontabWord(exe) && CrontabWord(config) && CrontabWord(home) && IsWord(log)
  }

  /** The log is not mistaken for an option or a job: what a caller can look at before rendering. */
  predicate LogIsFit(o: BackupOpts, home: string, log: string) {
    log != "snapshot" && "snapshot" !in LogDir(home, log) && (o.pull ==> log != "--no-pull")
  }

  // ---- words ------------------------------------------------------------------------------------

  lemma {:induction false} PartsHoldAll(s: string, c: char)
    requires c in s && c != '-'
    ensures exists p :: p in SplitDash(s) && c in p
    decreases |s|
  {
    var i := IndexOfChar(s, '-');
    if i < |s| {
      assert s == s[..i] + [s[i]] + s[i + 1..];
      DashIsAt(s);
      if c !in s[..i] {
        PartsHoldAll(s[i + 1..], c);
      } else {
        assert s[..i] in SplitDash(s);
      }
    } else {
      assert s in SplitDash(s);
    }
  }

  lemma {:induction false} DashIsAt(s: string)
    ensures IndexOfChar(s, '-') < |s| ==> s[IndexOfChar(s, '-')] == '-'
  {
    if s != "" && s[0] != '-' {
      DashIsAt(s[1..]);
    }
  }

  /** A valid date is one word. */
  lemma DateIsWord(d: string)
    requires ParseYmd(d).Some? && Trim(d) == d
    ensures IsWord(d)
  {
    var parts := SplitDash(d);
    forall c | c in d ensures !IsSpace(c) {
      if c != '-' {
        PartsHoldAll(d, c);
        var p :| p in parts && c in p;
        var i :| 0 <= i < |parts| && parts[i] == p;
        assert i == 0 || i == 1 || i == 2;
        NumHas(p, c);
      }
    }
    assert SplitDash("") == [""];
  }

  lemma NumHas(p: string, c: char)
    requires c in p && (ParseNum(p, I64_MAX).Some? || ParseNum(p, U32_MAX).Some?)
    ensures IsDigit(c) || c == '+'
  {
    var digits := if p[0] == '+' then p[1..] else p;
    assert c in digits || c == '+';
  }

  lemma PathIsWord(w: string)
    requires CrontabWord(w)
    ensures IsWord(w)
  {}

  lemma DirIsWord(home: string)
    requires CrontabWord(home)
    ensures IsWord(Dir(home)) && Dir(home)[0] == '/' && IsWord(Lock(home)) && Lock(home)[0] == '/'
            && IsWord(DefaultLog(home)) && DefaultLog(home)[0] == '/'
  {
    PathIsWord(home);
    NoSpaceIn("/.local/state/arena-cron");
    NoSpaceIn("/backup.lock");
    NoSpaceIn("/backup.log");
  }

  lemma NoSpaceIn(s: string)
    requires s in {"/.local/state/arena-cron", "/backup.lock", "/backup.log"}
    ensures IsWord(s)
  {}

  lemma LogDirIs(home: string, log: string)
    requires IsWord(log)
    ensures AreWords(LogDir(home, log)) && "&&" !in LogDir(home, log)
  {
    if LogDir(home, log) != [] {
      var d := log[..LastSlash(log)];
      assert LogDir(home, log) == [d];
      assert forall c | c in d :: c in log;
      assert d[0] in log && !InPlainWord('&');
    }
  }

  lemma FixedWords()
    ensures AreWords(["mkdir", "-p"]) && AreWords(["&&"]) && AreWords(["flock", "-n", "-o"]) && AreWords(["--config"])
  {}

  lemma FixedOptions()
    ensures AreWords(["pods", "backup"]) && AreWords(["--no-pull"]) && AreWords(["--yes", ">>"]) && AreWords(["2>&1"])
  {}

  lemma DatePrefixIsWord(d: string)
    requires IsWord(d)
    ensures IsWord(DATE_PREFIX + d)
  {
    assert IsWord(DATE_PREFIX);
  }

  function Front(o: BackupOpts): seq<string> {
    if o.startDate.Some? then [DATE_PREFIX + o.startDate.value] else []
  }

  function Fields(o: BackupOpts): seq<string> {
    Words(o.schedule)
  }

  // ---- the tags of a rendered line ------------------------------------------------------------------

  /** Every word a job is told by stands alone, but for `pods backup`. */
  predicate Quiet(ts: seq<Tag>) {
    forall i | 0 <= i < |ts| - 1 :: ts[i] == Other || ts[i + 1] == Other || ts[i + 1] == NoPull
        || (ts[i] == Pods && ts[i + 1] == BackupWord)
  }

  lemma QuietCat(x: seq<Tag>, y: seq<Tag>)
    requires Quiet(x) && Quiet(y)
    requires x == [] || y == [] || x[|x| - 1] == Other || y[0] == Other || y[0] == NoPull
    ensures Quiet(x + y)
  {}

  lemma QuietFinds(ts: seq<Tag>)
    requires Quiet(ts) && Pair(ts, Pods, BackupWord)
    ensures Found(ts) == [Backup] + if SnapshotWord in ts then [Snapshot] else []
  {
    assert !Pair(ts, ProxyWord, Apply) && !Pair(ts, Archive, Sync) && !Pair(ts, ReapWord, RunWord)
        && !Pair(ts, Pods, Test);
  }

  lemma TagsOfFolders()
    ensures TagOf("mkdir") == TagOf("-p") == TagOf("&&") == Other
  {}

  lemma TagsOfFlock()
    ensures TagOf("flock") == TagOf("-n") == TagOf("-o") == TagOf("--config") == Other
  {}

  lemma TagsOfEnd()
    ensures TagOf("--yes") == TagOf(">>") == TagOf("2>&1") == Other
  {}

  lemma TagsOfBackup()
    ensures TagOf("pods") == Pods && TagOf("backup") == BackupWord && TagOf("--no-pull") == NoPull
  {}

  lemma TagOfPath(w: string)
    requires w != "" && w[0] == '/'
    ensures TagOf(w) == Other
  {}

  lemma TagOfDate(d: string)
    ensures TagOf(DATE_PREFIX + d) == Other
  {
    assert (DATE_PREFIX + d)[0] == 'A';
  }

  predicate AllOther(ts: seq<Tag>) {
    forall t | t in ts :: t == Other
  }

  lemma TagsCat(a: seq<string>, b: seq<string>)
    ensures Tags(a + b) == Tags(a) + Tags(b)
  {}

  lemma HeadTags(tag: string -> Tag, fields: seq<string>, mkdir: string, p: string, dir: string)
    requires forall f | f in fields :: tag(f) == Other
    requires tag(mkdir) == tag(p) == tag(dir) == Other
    ensures AllOther(TagsBy(tag, fields + [mkdir, p, dir]))
  {}

  lemma MiddleTags(tag: string -> Tag, then_: string, front: seq<string>, ws: seq<string>)
    requires tag(then_) == Other && (forall f | f in front :: tag(f) == Other)
             && (forall f | f in ws :: tag(f) == Other)
    ensures AllOther(TagsBy(tag, [then_] + front + ws))
  {}

  lemma SevenOthers(tag: string -> Tag, a: string, b: string, c: string, d: string, e: string, f: string, g: string)
    requires tag(a) == tag(b) == tag(c) == tag(d) == tag(e) == tag(f) == tag(g) == Other
    ensures forall w | w in [a, b, c, d, e, f, g] :: tag(w) == Other
  {}

  lemma TailTags(tag: string -> Tag, pods: string, backup: string, noPull: seq<string>, yes: string, to: string,
                 log: string, too: string)
    requires tag(pods) == Pods && tag(backup) == BackupWord && tag(yes) == tag(to) == tag(too) == Other
    requires |noPull| <= 1 && forall w | w in noPull :: tag(w) == NoPull
    ensures var ts := TagsBy(tag, [pods, backup] + noPull + [yes, to, log, too]);
            && Quiet(ts) && Pair(ts, Pods, BackupWord)
            && (SnapshotWord in ts <==> tag(log) == SnapshotWord)
               && (NoPull in ts <==> noPull != [] || tag(log) == NoPull)
  {
    var ts := TagsBy(tag, [pods, backup] + noPull + [yes, to, log, too]);
    assert ts == [Pods, BackupWord] + (if noPull == [] then [] else [NoPull]) + [Other, Other, tag(log), Other];
    assert ts[0] == Pods && ts[1] == BackupWord && ts[2 + |noPull| + 2] == tag(log);
    assert noPull != [] ==> ts[2] == NoPull;
  }

  /** The line's words before its log's folder, between that and `pods`, and from there on. */
  lemma TagsOfParts(o: BackupOpts, exe: string, config: string, home: string)
    requires WellFormed(o) && CrontabWord(exe) && CrontabWord(config) && CrontabWord(home)
    ensures AllOther(Tags(Fields(o) + ["mkdir", "-p", Dir(home)]))
    ensures AllOther(Tags(["&&"] + Front(o) + ["flock", "-n", "-o", Lock(home), exe, "--config", config]))
  {
    DirIsWord(home);
    TagOfPath(Dir(home));
    TagOfPath(Lock(home));
    TagOfPath(exe);
    TagOfPath(config);
    if o.startDate.Some? {
      TagOfDate(o.startDate.value);
    }
    TagsOfFolders();
    TagsOfFlock();
    HeadTags(TagOf, Fields(o), "mkdir", "-p", Dir(home));
    SevenOthers(TagOf, "flock", "-n", "-o", Lock(home), exe, "--config", config);
    MiddleTags(TagOf, "&&", Front(o), ["flock", "-n", "-o", Lock(home), exe, "--config", config]);
  }

  function NoPullWord(o: BackupOpts): seq<string> {
    if o.pull then [] else ["--no-pull"]
  }

  function Tail(o: BackupOpts, log: string): seq<string> {
    ["pods", "backup"] + NoPullWord(o) + ["--yes", ">>", log, "2>&1"]
  }

  lemma TagsOfTail(o: BackupOpts, log: string)
    ensures var ts := Tags(Tail(o, log));
            && Quiet(ts) && Pair(ts, Pods, BackupWord)
            && (SnapshotWord in ts <==> log == "snapshot") && (NoPull in ts <==> !o.pull || log == "--no-pull")
  {
    TagsOfBackup();
    TagsOfEnd();
    TailTags(TagOf, "pods", "backup", NoPullWord(o), "--yes", ">>", log, "2>&1");
    TagsOfLog(log);
  }

  lemma TagsOfLog(log: string)
    ensures (TagOf(log) == SnapshotWord <==> log == "snapshot") && (TagOf(log) == NoPull <==> log == "--no-pull")
  {}

  lemma OthersAreQuiet(ts: seq<Tag>)
    requires AllOther(ts) || |ts| <= 1
    ensures Quiet(ts)
  {
    if |ts| > 1 {
      forall i | 0 <= i < |ts| - 1 ensures ts[i] == Other {
        assert ts[i] in ts;
      }
    }
  }

  lemma PairStays(x: seq<Tag>, y: seq<Tag>)
    requires Pair(y, Pods, BackupWord)
    ensures Pair(x + y, Pods, BackupWord)
  {
    var i :| 0 <= i < |y| - 1 && y[i] == Pods && y[i + 1] == BackupWord;
    assert (x + y)[|x| + i] == Pods && (x + y)[|x| + i + 1] == BackupWord;
  }

  /** Which job the words of a line name: the backup, unless its log or its folder is `snapshot`. */
  lemma JobOfTags(a: seq<Tag>, b: seq<Tag>, c: seq<Tag>, d: seq<Tag>)
    requires AllOther(a) && a != [] && |b| <= 1 && AllOther(c) && c != [] && Quiet(d) && Pair(d, Pods, BackupWord)
    ensures Found(a + b + c + d) == [Backup] + if SnapshotWord in b || SnapshotWord in d then [Snapshot] else []
  {
    OthersAreQuiet(a);
    OthersAreQuiet(b);
    OthersAreQuiet(c);
    assert a[|a| - 1] in a && c[0] in c && c[|c| - 1] in c;
    QuietCat(a, b);
    assert c[0] == Other;
    QuietCat(a + b, c);
    assert (a + b + c)[|a + b + c| - 1] == c[|c| - 1];
    QuietCat(a + b + c, d);
    PairStays(a + b + c, d);
    QuietFinds(a + b + c + d);
  }

  // ---- reading back -----------------------------------------------------------------------------------

  function LineWords(o: BackupOpts, exe: string, config: string, home: string, log: string): seq<string> {
    Fields(o) + (Mkdir(home, log) + Command(o, exe, config, home, log))
  }

  lemma CommandIsWords(o: BackupOpts, exe: string, config: string, home: string, log: string)
    requires WellFormed(o) && PathsAreFit(exe, config, home, log)
    ensures AreWords(Mkdir(home, log) + Command(o, exe, config, home, log))
  {
    FixedWords();
    FixedOptions();
    DirIsWord(home);
    LogDirIs(home, log);
    PathIsWord(exe);
    PathIsWord(config);
    if o.startDate.Some? {
      DateIsWord(o.startDate.value);
      DatePrefixIsWord(o.startDate.value);
    }
    assert AreWords(["mkdir", "-p", Dir(home)])
        && AreWords(["flock", "-n", "-o", Lock(home), exe, "--config", config, "pods", "backup"]);
    assert AreWords(["--yes", ">>", log, "2>&1"]);
  }

  lemma WordsOfRender(o: BackupOpts, exe: string, config: string, home: string, log: string)
    requires WellFormed(o) && PathsAreFit(exe, config, home, log)
    ensures Words(Render(o, exe, config, home, log)) == LineWords(o, exe, config, home, log)
  {
    WordsAreWords(o.schedule);
    CommandIsWords(o, exe, config, home, log);
    WordsOfMore(Fields(o), Spaced(Mkdir(home, log) + Command(o, exe, config, home, log)));
    WordsOfSpaced(Mkdir(home, log) + Command(o, exe, config, home, log));
  }

  lemma {:induction false} SpacedStarts(ws: seq<string>)
    requires ws != [] && ws[0] != ""
    ensures Spaced(ws) != "" && Spaced(ws)[0] == ws[0][0]
  {}

  lemma RenderIsNoComment(o: BackupOpts, exe: string, config: string, home: string, log: string)
    requires WellFormed(o)
    ensures !IsComment(Render(o, exe, config, home, log)) && Trim(Render(o, exe, config, home, log)) != ""
  {
    var f := Fields(o);
    WordsAreWords(o.schedule);
    SpacedStarts(f);
    var line := Render(o, exe, config, home, log);
    assert f[0] in f && f[0][0] in f[0];
    assert line[0] == f[0][0] && !IsSpace(line[0]);
    assert TrimStart(line) == line;
    TrimEndKeeps(line);
  }

  lemma {:induction false} TrimEndKeeps(s: string)
    requires s != "" && !IsSpace(s[0])
    ensures TrimEnd(s) != "" && TrimEnd(s)[0] == s[0]
  {
    if IsSpace(s[|s| - 1]) {
      TrimEndKeeps(s[..|s| - 1]);
    }
  }

  function Middle(o: BackupOpts, exe: string, config: string, home: string): seq<string> {
    ["&&"] + Front(o) + ["flock", "-n", "-o", Lock(home), exe, "--config", config]
  }

  /** A line's words, part by part. */
  lemma LineSplits(o: BackupOpts, exe: string, config: string, home: string, log: string)
    ensures LineWords(o, exe, config, home, log)
         == Fields(o) + ["mkdir", "-p", Dir(home)] + LogDir(home, log) + Middle(o, exe, config, home) + Tail(o, log)
  {
    LinesUp(Fields(o), ["mkdir", "-p", Dir(home)], LogDir(home, log), ["&&"], Front(o),
            ["flock", "-n", "-o", Lock(home), exe, "--config", config], ["pods", "backup"], NoPullWord(o),
                ["--yes", ">>", log, "2>&1"]);
    assert ["flock", "-n", "-o", Lock(home), exe, "--config", config, "pods", "backup"]
        == ["flock", "-n", "-o", Lock(home), exe, "--config", config] + ["pods", "backup"];
  }

  lemma LinesUp(f: seq<string>, h: seq<string>, l: seq<string>, a: seq<string>, d: seq<string>, m: seq<string>,
                p: seq<string>, n: seq<string>, e: seq<string>)
    ensures f + ((h + l + a) + (d + (m + p) + n + e)) == f + h + l + (a + d + m) + (p + n + e)
  {}

  lemma JobOfRender(o: BackupOpts, exe: string, config: string, home: string, log: string)
    requires WellFormed(o) && PathsAreFit(exe, config, home, log)
    ensures KindOf(Render(o, exe, config, home, log)) == Some(Backup) <==>
            log != "snapshot" && "snapshot" !in LogDir(home, log)
  {
    WordsOfRender(o, exe, config, home, log);
    RenderIsNoComment(o, exe, config, home, log);
    TagsOfParts(o, exe, config, home);
    TagsOfTail(o, log);
    var a, b, c, d := Fields(o) + ["mkdir", "-p", Dir(home)], LogDir(home, log), Middle(o, exe, config, home),
        Tail(o, log);
    LineSplits(o, exe, config, home, log);
    JobOfWords(a, b, c, d);
    SnapshotTag(b);
  }

  lemma JobOfWords(a: seq<string>, b: seq<string>, c: seq<string>, d: seq<string>)
    requires AllOther(Tags(a)) && a != [] && |b| <= 1 && AllOther(Tags(c)) && c != [] && Quiet(Tags(d))
             && Pair(Tags(d), Pods, BackupWord)
    ensures Found(Tags(a + b + c + d))
            == [Backup] + if SnapshotWord in Tags(b) || SnapshotWord in Tags(d) then [Snapshot] else []
  {
    TagsCat(a, b);
    TagsCat(a + b, c);
    TagsCat(a + b + c, d);
    JobOfTags(Tags(a), Tags(b), Tags(c), Tags(d));
  }

  lemma SnapshotTag(ws: seq<string>)
    ensures SnapshotWord in Tags(ws) <==> "snapshot" in ws
  {
    if "snapshot" in ws {
      var i :| 0 <= i < |ws| && ws[i] == "snapshot";
      assert Tags(ws)[i] == SnapshotWord;
    }
  }

  lemma {:induction false} PositionFirst(before: seq<string>, w: string, after: seq<string>)
    requires w !in before
    ensures PositionOf(before + [w] + after, w) == |before|
  {
    var ws := before + [w] + after;
    var i := PositionOf(ws, w);
    assert ws[|before|] == w;
    assert forall j | 0 <= j < i :: ws[j] == ws[..i][j];
    assert forall j | 0 <= j < |before| :: ws[j] == before[j];
  }

  lemma MkdirIsPassed(home: string, log: string, command: seq<string>)
    requires CrontabWord(home) && IsWord(log)
    ensures AfterMkdir(Mkdir(home, log) + command) == command
  {
    DirIsWord(home);
    LogDirIs(home, log);
    var all := Mkdir(home, log) + command;
    var dirs := [Dir(home)] + LogDir(home, log);
    assert all == ["mkdir", "-p"] + (dirs + ["&&"] + command);
    assert all[2..] == dirs + ["&&"] + command;
    PositionFirst(dirs, "&&", command);
    assert (dirs + ["&&"] + command)[|dirs| + 1..] == command;
  }

  lemma {:induction false} EqualsAt(name: string, rest: string)
    requires '=' !in name
    ensures IndexOfChar(name + "=" + rest, '=') == |name|
  {
    if name != "" {
      assert (name + "=" + rest)[1..] == name[1..] + "=" + rest;
      EqualsAt(name[1..], rest);
    }
  }

  lemma DateReadsBack(d: string, rest: seq<string>)
    requires ParseYmd(d).Some?
    ensures StartDateOf([DATE_PREFIX + d] + rest) == Some(d)
  {
    var name := "ARENA_START_DATE";
    assert DATE_PREFIX + d == name + "=" + d;
    EqualsAt(name, d);
    assert (DATE_PREFIX + d)[..|name|] == name && (DATE_PREFIX + d)[|DATE_PREFIX|..] == d;
    assert IsName(name);
  }

  lemma NoDate(rest: seq<string>)
    ensures StartDateOf(["flock"] + rest) == None
  {
    NoEquals("flock");
  }

  lemma {:induction false} NoEquals(s: string)
    requires '=' !in s
    ensures IndexOfChar(s, '=') == |s|
  {
    if s != "" {
      NoEquals(s[1..]);
    }
  }

  lemma PullReadsBack(o: BackupOpts, exe: string, config: string, home: string, log: string)
    requires WellFormed(o) && CrontabWord(exe) && CrontabWord(config) && CrontabWord(home)
    ensures NoPull in Tags(Command(o, exe, config, home, log)) <==> !o.pull || log == "--no-pull"
  {
    CommandSplits(o, exe, config, home, log);
    TagsOfParts(o, exe, config, home);
    TagsOfTail(o, log);
    PullIsTold("&&", Front(o), ["flock", "-n", "-o", Lock(home), exe, "--config", config], Tail(o, log));
  }

  lemma PullIsTold(then_: string, front: seq<string>, run: seq<string>, tail: seq<string>)
    requires AllOther(Tags([then_] + front + run))
    ensures NoPull in Tags(front + run + tail) <==> NoPull in Tags(tail)
  {
    assert [then_] + front + run == [then_] + (front + run);
    TagsCat([then_], front + run);
    TagsCat(front + run, tail);
    NotAmong(Tags([then_]), Tags(front + run), Tags(tail));
  }

  lemma NotAmong(a: seq<Tag>, b: seq<Tag>, c: seq<Tag>)
    requires AllOther(a + b)
    ensures NoPull in b + c <==> NoPull in c
  {
    assert forall t | t in b :: t in a + b;
  }

  lemma CommandSplits(o: BackupOpts, exe: string, config: string, home: string, log: string)
    ensures Command(o, exe, config, home, log)
            == Front(o) + ["flock", "-n", "-o", Lock(home), exe, "--config", config] + Tail(o, log)
    ensures Command(o, exe, config, home, log)
            == Front(o) + (["flock"] + (["-n", "-o", Lock(home), exe, "--config", config] + Tail(o, log)))
  {
    var m, p := ["flock", "-n", "-o", Lock(home), exe, "--config", config], ["pods", "backup"];
    assert ["flock", "-n", "-o", Lock(home), exe, "--config", config, "pods", "backup"] == m + p;
    assert m == ["flock"] + ["-n", "-o", Lock(home), exe, "--config", config];
    LinesUp([], [], [], [], Front(o), m, p, NoPullWord(o), ["--yes", ">>", log, "2>&1"]);
  }

  lemma DateOfCommand(o: BackupOpts, rest: seq<string>)
    requires o.startDate.Some? ==> ParseYmd(o.startDate.value).Some?
    ensures StartDateOf(Front(o) + (["flock"] + rest)) == o.startDate
  {
    if o.startDate.Some? {
      DateReadsBack(o.startDate.value, ["flock"] + rest);
    } else {
      NoDate(rest);
      assert Front(o) + (["flock"] + rest) == ["flock"] + rest;
    }
  }

  /** The rendered line gives its options back: exactly if its log can be told from a job's name and
      from an option. With a log in a folder given from the root it always can. */
  lemma ReadsBack(o: BackupOpts, exe: string, config: string, home: string, log: string)
    requires WellFormed(o) && PathsAreFit(exe, config, home, log)
    ensures OfLine(Render(o, exe, config, home, log)) == Some(o) <==> LogIsFit(o, home, log)
    ensures log[0] == '/' ==> LogIsFit(o, home, log)
  {
    JobOfRender(o, exe, config, home, log);
    RenderParts(o, exe, config, home, log);
    if log[0] == '/' {
      RootedIsFit(o, home, log);
    }
  }

  lemma RootedIsFit(o: BackupOpts, home: string, log: string)
    requires log != "" && log[0] == '/'
    ensures LogIsFit(o, home, log)
  {
    if LogDir(home, log) != [] {
      assert LogDir(home, log)[0][0] == '/';
    }
  }

  /** What is read of a rendered line, if it is a backup line. */
  lemma RenderParts(o: BackupOpts, exe: string, config: string, home: string, log: string)
    requires WellFormed(o) && PathsAreFit(exe, config, home, log)
    ensures var line := Render(o, exe, config, home, log);
            KindOf(line) == Some(Backup) ==> OfLine(line) == Some(o.(pull := o.pull && log != "--no-pull"))
  {
    var line, command := Render(o, exe, config, home, log), Command(o, exe, config, home, log);
    WordsOfRender(o, exe, config, home, log);
    PartsOf(o.schedule, line, Mkdir(home, log) + command);
    MkdirIsPassed(home, log, command);
    CommandParts(o, exe, config, home, log);
    if KindOf(line) == Some(Backup) {
      OfLineIs(line, o.schedule, command);
    }
  }

  lemma OfLineIs(line: string, schedule: string, words: seq<string>)
    requires LineParts(line) == Some((schedule, words)) && KindOf(line) == Some(Backup)
    ensures OfLine(line) == Some(BackupOpts(schedule, StartDateOf(words), NoPull !in Tags(words)))
  {}

  lemma CommandParts(o: BackupOpts, exe: string, config: string, home: string, log: string)
    requires WellFormed(o) && PathsAreFit(exe, config, home, log)
    ensures var words := Command(o, exe, config, home, log);
            StartDateOf(words) == o.startDate && (NoPull !in Tags(words) <==> o.pull && log != "--no-pull")
  {
    PullReadsBack(o, exe, config, home, log);
    CommandSplits(o, exe, config, home, log);
    DateOfCommand(o, ["-n", "-o", Lock(home), exe, "--config", config] + Tail(o, log));
  }

  /** Its log mistaken for the option, it gives back all but that it pulls. */
  lemma NoPullIsRead(o: BackupOpts, exe: string, config: string, home: string, log: string)
    requires WellFormed(o) && PathsAreFit(exe, config, home, log) && log == "--no-pull"
    requires KindOf(Render(o, exe, config, home, log)) == Some(Backup)
    ensures OfLine(Render(o, exe, config, home, log)) == Some(o.(pull := false))
  {
    RenderParts(o, exe, config, home, log);
  }

  lemma PartsOf(schedule: string, line: string, rest: seq<string>)
    requires WellFormedSchedule(schedule) && Words(line) == Words(schedule) + rest && rest != []
    ensures LineParts(line) == Some((schedule, AfterMkdir(rest)))
  {
    var fields := Words(schedule);
    assert (fields + rest)[..|fields|] == fields && (fields + rest)[|fields|..] == rest
        && (fields + rest)[0] == fields[0];
  }

  /** And its log. */
  lemma LogReadsBack(o: BackupOpts, exe: string, config: string, home: string, log: string)
    requires WellFormed(o) && PathsAreFit(exe, config, home, log) && log[0] !in {'>', '&'}
    ensures LogTarget(Render(o, exe, config, home, log)) == Some(log)
  {
    WordsOfRender(o, exe, config, home, log);
    EndsInLog(LineWords(o, exe, config, home, log), HeadOf(o, exe, config, home, log), log);
  }

  /** All of its words but the last three. */
  function HeadOf(o: BackupOpts, exe: string, config: string, home: string, log: string): (head: seq<string>)
    ensures LineWords(o, exe, config, home, log) == head + [">>", log, "2>&1"]
  {
    var run := Front(o) + ["flock", "-n", "-o", Lock(home), exe, "--config", config, "pods", "backup"];
    var rest := run + (if o.pull then [] else ["--no-pull"]) + ["--yes"];
    assert Command(o, exe, config, home, log) == rest + [">>", log, "2>&1"];
    Fields(o) + (Mkdir(home, log) + rest)
  }

  lemma EndsInLog(all: seq<string>, head: seq<string>, log: string)
    requires all == head + [">>", log, "2>&1"]
    ensures all[|all| - 1] == "2>&1" && all[..|all| - 1] == head + [">>", log]
  {}

  /** It is one line, not blank, no marker, no comment. */
  lemma RenderIsPlain(o: BackupOpts, exe: string, config: string, home: string, log: string)
    requires WellFormed(o) && PathsAreFit(exe, config, home, log)
    ensures IsLine(Render(o, exe, config, home, log)) && !IsMarker(Render(o, exe, config, home, log))
  {
    RenderIsNoComment(o, exe, config, home, log);
    var line := Render(o, exe, config, home, log);
    WordsAreWords(o.schedule);
    CommandIsWords(o, exe, config, home, log);
    NoNewlineInSpaced(Fields(o));
    NoNewlineInSpaced(Mkdir(home, log) + Command(o, exe, config, home, log));
    SpacedStarts(Fields(o));
    assert Fields(o)[0] in Fields(o) && Fields(o)[0][0] in Fields(o)[0];
    assert TrimStart(line) == line;
    TrimEndKeeps(line);
    assert Trim(line)[0] != '#';
    assert BEGIN[0] == '#' && END[0] == '#';
  }

  lemma {:induction false} NoNewlineInSpaced(ws: seq<string>)
    requires AreWords(ws)
    ensures IsLine(Spaced(ws))
  {
    if ws != [] {
      assert ws[0] in ws;
      assert IsSpace('\n');
      if |ws| > 1 {
        NoNewlineInSpaced(ws[1..]);
      }
    }
  }
}

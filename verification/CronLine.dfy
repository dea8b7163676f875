/** A crontab line of arena's: which job it is, what its options are, and how it is rendered from
    them. (crates/core/src/cron.rs, crates/cli/src/cron.rs, crates/core/src/schedule.rs) */
module CronLine {
  import opened Wrappers
  import opened Text
  import opened CronText

  datatype Kind = Backup | Proxy | Snapshot | ArchiveSnap | ArchiveBig | Reap | Health

  // ---- which job ----------------------------------------------------------------------------------

  /** The words a job is told by. */
  datatype Tag =
    | Pods | BackupWord | ProxyWord | Apply | SnapshotWord | Archive | Sync | Tier | Snap | Big
    | ReapWord | RunWord | Test | Deep
    | NoPull | Other

  function TagOf(w: string): Tag {
    if w == "pods" then Pods
    else if w == "backup" then BackupWord
    else if w == "proxy" then ProxyWord
    else if w == "apply" then Apply
    else if w == "snapshot" then SnapshotWord
    else if w == "archive" then Archive
    else if w == "sync" then Sync
    else if w == "--tier" then Tier
    else if w == "snap" then Snap
    else if w == "big" then Big
    else if w == "reap" then ReapWord
    else if w == "run" then RunWord
    else if w == "test" then Test
    else if w == "--deep" then Deep
    else if w == "--no-pull" then NoPull
    else Other
  }

  function TagsBy(tag: string -> Tag, ws: seq<string>): (ts: seq<Tag>)
    ensures |ts| == |ws| && forall i | 0 <= i < |ws| :: ts[i] == tag(ws[i])
  {
    seq(|ws|, i requires 0 <= i < |ws| => tag(ws[i]))
  }

  function Tags(ws: seq<string>): seq<Tag> {
    TagsBy(TagOf, ws)
  }

  predicate Pair(ts: seq<Tag>, a: Tag, b: Tag) {
    exists i | 0 <= i < |ts| - 1 :: ts[i] == a && ts[i + 1] == b
  }

  function Found(ts: seq<Tag>): seq<Kind> {
    (if Pair(ts, Pods, BackupWord) then [Backup] else [])
    + (if Pair(ts, ProxyWord, Apply) then [Proxy] else [])
    + (if SnapshotWord in ts then [Snapshot] else [])
    + (if Pair(ts, Archive, Sync) && Pair(ts, Tier, Snap) then [ArchiveSnap] else [])
    + (if Pair(ts, Archive, Sync) && Pair(ts, Tier, Big) then [ArchiveBig] else [])
    + (if Pair(ts, ReapWord, RunWord) then [Reap] else [])
    + (if Pair(ts, Pods, Test) && Deep in ts then [Health] else [])
  }

  predicate IsComment(line: string) {
    var t := TrimStart(line);
    t != "" && t[0] == '#'
  }

  /** The one job a line runs, by its whole words; a comment, or a line of none or of two, is nobody's. */
  function KindOf(line: string): Option<Kind> {
    var found := Found(Tags(Words(line)));
    if !IsComment(line) && |found| == 1 then Some(found[0]) else None
  }

  /** The words stand next to each other. */
  ghost predicate Next(ws: seq<string>, a: string, b: string) {
    exists i :: 0 <= i < |ws| - 1 && ws[i] == a && ws[i + 1] == b
  }

  /** The words that tell each job. */
  ghost predicate RunsJob(ws: seq<string>, k: Kind) {
    match k
    case Backup => Next(ws, "pods", "backup")
    case Proxy => Next(ws, "proxy", "apply")
    case Snapshot => "snapshot" in ws
    case ArchiveSnap => Next(ws, "archive", "sync") && Next(ws, "--tier", "snap")
    case ArchiveBig => Next(ws, "archive", "sync") && Next(ws, "--tier", "big")
    case Reap => Next(ws, "reap", "run")
    case Health => Next(ws, "pods", "test") && "--deep" in ws
  }

  lemma PairIs(ws: seq<string>, a: string, b: string)
    requires TagOf(a) != Other && TagOf(b) != Other
    ensures Pair(Tags(ws), TagOf(a), TagOf(b)) <==> Next(ws, a, b)
    ensures TagOf(a) in Tags(ws) <==> a in ws
  {
    OnlyWord(a);
    OnlyWord(b);
    var ts := Tags(ws);
    if Pair(ts, TagOf(a), TagOf(b)) {
      var i :| 0 <= i < |ts| - 1 && ts[i] == TagOf(a) && ts[i + 1] == TagOf(b);
      assert ws[i] == a && ws[i + 1] == b;
    }
    if Next(ws, a, b) {
      var i :| 0 <= i < |ws| - 1 && ws[i] == a && ws[i + 1] == b;
      assert ts[i] == TagOf(a) && ts[i + 1] == TagOf(b);
    }
    if TagOf(a) in ts {
      var i :| 0 <= i < |ts| && ts[i] == TagOf(a);
      assert ws[i] == a;
    }
    if a in ws {
      var i :| 0 <= i < |ws| && ws[i] == a;
      assert ts[i] == TagOf(a);
    }
  }

  lemma TagsTell(w: string, v: string)
    requires TagOf(w) == TagOf(v) != Other
    ensures w == v
  {}

  lemma OnlyWord(v: string)
    requires TagOf(v) != Other
    ensures forall w | TagOf(w) == TagOf(v) :: w == v
  {
    forall w | TagOf(w) == TagOf(v) ensures w == v {
      TagsTell(w, v);
    }
  }

  ghost predicate Told(ts: seq<Tag>, k: Kind) {
    match k
    case Backup => Pair(ts, Pods, BackupWord)
    case Proxy => Pair(ts, ProxyWord, Apply)
    case Snapshot => SnapshotWord in ts
    case ArchiveSnap => Pair(ts, Archive, Sync) && Pair(ts, Tier, Snap)
    case ArchiveBig => Pair(ts, Archive, Sync) && Pair(ts, Tier, Big)
    case Reap => Pair(ts, ReapWord, RunWord)
    case Health => Pair(ts, Pods, Test) && Deep in ts
  }

  predicate NoneTwice(ks: seq<Kind>) {
    forall i, j | 0 <= i < j < |ks| :: ks[i] != ks[j]
  }

  /** Of these kinds, those the words tell. */
  ghost function Chosen(ts: seq<Tag>, ks: seq<Kind>): seq<Kind> {
    if ks == [] then []
    else
      var n := |ks| - 1;
      Chosen(ts, ks[..n]) + if Told(ts, ks[n]) then [ks[n]] else []
  }

  lemma ChosenMore(ts: seq<Tag>, ks: seq<Kind>, k: Kind)
    ensures Chosen(ts, ks + [k]) == Chosen(ts, ks) + if Told(ts, k) then [k] else []
  {
    assert (ks + [k])[..|ks|] == ks;
  }

  lemma {:induction false} ChosenAre(ts: seq<Tag>, ks: seq<Kind>)
    requires NoneTwice(ks)
    ensures NoneTwice(Chosen(ts, ks)) && forall o :: o in Chosen(ts, ks) <==> o in ks && Told(ts, o)
  {
    if ks != [] {
      var n := |ks| - 1;
      ChosenAre(ts, ks[..n]);
      assert ks == ks[..n] + [ks[n]] && ks[n] !in ks[..n];
    }
  }

  lemma FoundIsChosen(ts: seq<Tag>)
    ensures Found(ts) == Chosen(ts, [Backup, Proxy, Snapshot, ArchiveSnap] + [ArchiveBig] + [Reap] + [Health])
  {
    FirstChosen(ts);
    ChosenMore(ts, [Backup, Proxy, Snapshot, ArchiveSnap], ArchiveBig);
    ChosenMore(ts, [Backup, Proxy, Snapshot, ArchiveSnap] + [ArchiveBig], Reap);
    ChosenMore(ts, [Backup, Proxy, Snapshot, ArchiveSnap] + [ArchiveBig] + [Reap], Health);
  }

  lemma FirstChosen(ts: seq<Tag>)
    ensures Chosen(ts, [Backup, Proxy, Snapshot, ArchiveSnap]) ==
            (if Told(ts, Backup) then [Backup] else []) + (if Told(ts, Proxy) then [Proxy] else [])
            + (if Told(ts, Snapshot) then [Snapshot] else []) + (if Told(ts, ArchiveSnap) then [ArchiveSnap] else [])
  {
    ChosenMore(ts, [], Backup);
    ChosenMore(ts, [Backup], Proxy);
    ChosenMore(ts, [Backup, Proxy], Snapshot);
    ChosenMore(ts, [Backup, Proxy, Snapshot], ArchiveSnap);
    assert [] + [Backup] == [Backup] && [Backup] + [Proxy] == [Backup, Proxy];
    assert [Backup, Proxy] + [Snapshot] == [Backup, Proxy, Snapshot];
    assert [Backup, Proxy, Snapshot] + [ArchiveSnap] == [Backup, Proxy, Snapshot, ArchiveSnap];
  }

  lemma FoundIs(ts: seq<Tag>, k: Kind)
    ensures |Found(ts)| == 1 && Found(ts)[0] == k <==> Told(ts, k) && forall o | Told(ts, o) :: o == k
  {
    var all := [Backup, Proxy, Snapshot, ArchiveSnap] + [ArchiveBig] + [Reap] + [Health];
    FoundIsChosen(ts);
    ChosenAre(ts, all);
    forall o ensures o in all {
      AnyKind(o);
    }
    OnlyOne(Found(ts), k);
  }

  lemma AnyKind(o: Kind)
    ensures o in [Backup, Proxy, Snapshot, ArchiveSnap] + [ArchiveBig] + [Reap] + [Health]
  {
    assert o == Backup || o == Proxy || o == Snapshot || o == ArchiveSnap || o == ArchiveBig || o == Reap
        || o == Health;
  }

  lemma OnlyOne(ks: seq<Kind>, k: Kind)
    requires NoneTwice(ks)
    ensures |ks| == 1 && ks[0] == k <==> k in ks && forall o | o in ks :: o == k
  {
    if k in ks && |ks| != 1 && forall o | o in ks :: o == k {
      assert ks[0] in ks && ks[1] in ks;
    }
  }

  /** A line is of a kind exactly if it is no comment and runs that job and no other. */
  lemma KindIs(line: string, k: Kind)
    ensures KindOf(line) == Some(k) <==>
            !IsComment(line) && RunsJob(Words(line), k) && forall o | RunsJob(Words(line), o) :: o == k
  {
    forall o ensures Told(Tags(Words(line)), o) <==> RunsJob(Words(line), o) {
      JobIs(Words(line), o);
    }
    FoundIs(Tags(Words(line)), k);
  }

  lemma TagsOfJobs()
    ensures TagOf("pods") == Pods && TagOf("backup") == BackupWord && TagOf("proxy") == ProxyWord
            && TagOf("apply") == Apply
    ensures TagOf("snapshot") == SnapshotWord && TagOf("reap") == ReapWord && TagOf("run") == RunWord
    ensures TagOf("test") == Test && TagOf("--deep") == Deep
  {}

  lemma TagsOfTiers()
    ensures TagOf("archive") == Archive && TagOf("sync") == Sync && TagOf("--tier") == Tier
    ensures TagOf("snap") == Snap && TagOf("big") == Big
  {}

  lemma JobIs(ws: seq<string>, k: Kind)
    ensures Told(Tags(ws), k) <==> RunsJob(ws, k)
  {
    if k == ArchiveSnap || k == ArchiveBig {
      TierIs(ws);
    } else {
      TagsOfJobs();
      match k
      case Backup => PairIs(ws, "pods", "backup");
      case Proxy => PairIs(ws, "proxy", "apply");
      case Snapshot => PairIs(ws, "snapshot", "snapshot");
      case Reap => PairIs(ws, "reap", "run");
      case Health => PairIs(ws, "pods", "test"); PairIs(ws, "--deep", "--deep");
    }
  }

  lemma TierIs(ws: seq<string>)
    ensures Told(Tags(ws), ArchiveSnap) <==> RunsJob(ws, ArchiveSnap)
    ensures Told(Tags(ws), ArchiveBig) <==> RunsJob(ws, ArchiveBig)
  {
    TagsOfTiers();
    PairIs(ws, "archive", "sync");
    PairIs(ws, "--tier", "snap");
    PairIs(ws, "--tier", "big");
  }

  // ---- its options ----------------------------------------------------------------------------------

  function PositionOf(ws: seq<string>, w: string): (i: nat)
    ensures i <= |ws| && w !in ws[..i] && (i < |ws| ==> ws[i] == w)
  {
    if ws == [] || ws[0] == w then 0
    else
      assert ws[..PositionOf(ws[1..], w) + 1] == [ws[0]] + ws[1..][..PositionOf(ws[1..], w)];
      PositionOf(ws[1..], w) + 1
  }

  /** How many words the schedule takes: five, or one `@` macro. */
  function ScheduleWords(words: seq<string>): nat {
    if words != [] && words[0] != "" && words[0][0] == '@' then 1 else 5
  }

  /** The command after the folders it makes first. */
  function AfterMkdir(command: seq<string>): seq<string> {
    if ["mkdir", "-p"] <= command then
      var dirs := command[2..];
      var i := PositionOf(dirs, "&&");
      if 0 < i < |dirs| then dirs[i + 1..] else command
    else command
  }

  /** A line's schedule and its command's words. */
  function LineParts(line: string): Option<(string, seq<string>)> {
    var words := Words(line);
    var n := ScheduleWords(words);
    if |words| <= n then None
    else Some((Spaced(words[..n]), AfterMkdir(words[n..])))
  }

  predicate IsAlpha(c: char) {
    'a' <= c <= 'z' || 'A' <= c <= 'Z'
  }

  predicate IsDigit(c: char) {
    '0' <= c <= '9'
  }

  function IndexOfChar(s: string, c: char): (i: nat)
    ensures i <= |s|
  {
    if s == "" || s[0] == c then 0 else IndexOfChar(s[1..], c) + 1
  }

  predicate IsName(name: string) {
    name != "" && (IsAlpha(name[0]) || name[0] == '_') && forall c | c in name :: IsAlpha(c) || IsDigit(c) || c == '_'
  }

  predicate IsAssignment(w: string) {
    var i := IndexOfChar(w, '=');
    i < |w| && IsName(w[..i])
  }

  /** The parts between dashes. */
  function SplitDash(s: string): (parts: seq<string>)
    ensures parts != []
  {
    var i := IndexOfChar(s, '-');
    if i < |s| then [s[..i]] + SplitDash(s[i + 1..]) else [s]
  }

  function DigitOf(c: char): nat
    requires IsDigit(c)
  {
    c as int - '0' as int
  }

  function Value(s: string): nat
    requires forall c | c in s :: IsDigit(c)
  {
    if s == "" then 0
    else
      assert s[|s| - 1] in s;
      Value(s[..|s| - 1]) * 10 + DigitOf(s[|s| - 1])
  }

  /** A number that is not negative, as `parse` reads one. */
  function ParseNum(s: string, max: nat): Option<nat> {
    var digits := if s != "" && s[0] == '+' then s[1..] else s;
    if digits != "" && (forall c | c in digits :: IsDigit(c)) && Value(digits) <= max then Some(Value(digits)) else None
  }

  const I64_MAX: nat := 0x7FFF_FFFF_FFFF_FFFF
  const U32_MAX: nat := 0xFFFF_FFFF

  function ParseYmd(s: string): Option<(nat, nat, nat)> {
    var parts := SplitDash(Trim(s));
    if |parts| != 3 then None
    else
      var y, m, d := ParseNum(parts[0], I64_MAX), ParseNum(parts[1], U32_MAX), ParseNum(parts[2], U32_MAX);
      if y.Some? && m.Some? && d.Some? && 1 <= m.value <= 12 && 1 <= d.value <= 31
      then Some((y.value, m.value, d.value))
      else None
  }

  const DATE_PREFIX := "ARENA_START_DATE="

  /** The first valid start date among the assignments before the command. */
  function StartDateOf(words: seq<string>): Option<string> {
    if words == [] || !IsAssignment(words[0]) then None
    else if DATE_PREFIX <= words[0] && ParseYmd(words[0][|DATE_PREFIX|..]).Some? then Some(words[0][|DATE_PREFIX|..])
    else StartDateOf(words[1..])
  }

  datatype BackupOpts = BackupOpts(schedule: string, startDate: Option<string>, pull: bool)

  /** The options of an installed backup line; none of a line that is not one. */
  function OfLine(line: string): Option<BackupOpts> {
    if KindOf(line) != Some(Backup) then None
    else
      var parts := LineParts(line);
      if parts.None? then None
      else Some(BackupOpts(parts.value.0, StartDateOf(parts.value.1), NoPull !in Tags(parts.value.1)))
  }

  // ---- where it logs ------------------------------------------------------------------------------

  /** The file a line appends its output to, when it ends in that. */
  function LogTarget(line: string): Option<string> {
    var all := Words(line);
    var words := if all != [] && all[|all| - 1] == "2>&1" then all[..|all| - 1] else all;
    if words == [] then None
    else
      var n := |words| - 1;
      var path := if n > 0 && words[n - 1] == ">>" then Some(words[n])
                  else if ">>" <= words[n] then Some(words[n][2..])
                  else None;
      if path.Some? && path.value != "" && path.value[0] !in {'>', '&'} then path else None
  }

  function Dir(home: string): string {
    home + "/.local/state/arena-cron"
  }

  function DefaultLog(home: string): string {
    Dir(home) + "/backup.log"
  }

  function Lock(home: string): string {
    Dir(home) + "/backup.lock"
  }

  /** The two defaults of earlier versions. */
  function OldLogs(home: string): set<string> {
    {home + "/arena-cron.log", home + "/.local/state/arena/cron/backup.log"}
  }

  /** The log an installed backup line chose itself. */
  function ChosenLog(line: string, home: string): Option<string> {
    var log := LogTarget(line);
    if log.Some? && log.value != DefaultLog(home) && log.value !in OldLogs(home) then log else None
  }

  // ---- rendering ----------------------------------------------------------------------------------

  predicate InPlainWord(c: char) {
    IsAlpha(c) || IsDigit(c) || c in "/._-+@,:=~${}"
  }

  function LastSlash(s: string): (i: int)
    ensures -1 <= i < |s| && (i >= 0 ==> s[i] == '/')
  {
    if s == "" then -1 else if s[|s| - 1] == '/' then |s| - 1 else LastSlash(s[..|s| - 1])
  }

  /** The folder of a log elsewhere, when it can be made as a plain word. */
  function LogDir(home: string, log: string): seq<string> {
    var i := LastSlash(log);
    if i > 0 && (forall c | c in log :: InPlainWord(c)) && log[..i] != Dir(home) then [log[..i]] else []
  }

  function Mkdir(home: string, log: string): seq<string> {
    ["mkdir", "-p", Dir(home)] + LogDir(home, log) + ["&&"]
  }

  /** What the backup line runs, word by word. */
  function Command(o: BackupOpts, exe: string, config: string, home: string, log: string): seq<string> {
    (if o.startDate.Some? then [DATE_PREFIX + o.startDate.value] else [])
    + ["flock", "-n", "-o", Lock(home), exe, "--config", config, "pods", "backup"]
    + (if o.pull then [] else ["--no-pull"])
    + ["--yes", ">>", log, "2>&1"]
  }

  function Render(o: BackupOpts, exe: string, config: string, home: string, log: string): string {
    o.schedule + " " + Spaced(Mkdir(home, log) + Command(o, exe, config, home, log))
  }

  predicate InCronPath(c: char) {
    IsAlpha(c) || IsDigit(c) || c in "./_+@:,=-"
  }

  /** What `crontab_word` lets into a line unquoted. */
  predicate CrontabWord(w: string) {
    w != "" && w[0] == '/' && forall c | c in w :: InCronPath(c)
  }

  // ---- options a re-install keeps --------------------------------------------------------------------

  const DEFAULT_SCHEDULE := "*/15 * * * *"

  datatype BackupFlags = BackupFlags(schedule: Option<string>, startDate: Option<string>, noStartDate: bool,
      pull: bool, noPull: bool)

  const NO_FLAGS := BackupFlags(None, None, false, false, false)

  /** Each option from its flag, else from the installed line, else the default. */
  function ResolveOpts(installed: Option<BackupOpts>, f: BackupFlags): BackupOpts {
    BackupOpts(
      if f.schedule.Some? then f.schedule.value
      else if installed.Some? then installed.value.schedule else DEFAULT_SCHEDULE,
      if f.startDate.Some? then f.startDate
      else if f.noStartDate || installed.None? then None else installed.value.startDate,
      if f.pull then true else if f.noPull || installed.None? then false else installed.value.pull)
  }
}

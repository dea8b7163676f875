/** `cron install` of the backup line, end to end: exactly when installing again without flags
    changes nothing, and what an install leaves alone. */
module CronInstall {
  import opened Wrappers
  import opened Text
  import opened CronText
  import opened CronLine
  import opened CronReadBack
  import opened CronMerge

  function FirstBackup(ls: seq<string>): Option<string> {
    if ls == [] then None else if KindOf(ls[0]) == Some(Backup) then Some(ls[0]) else FirstBackup(ls[1..])
  }

  function ReadInstalled(before: seq<string>): Option<BackupOpts> {
    var installed := FirstBackup(before);
    if installed.Some? then OfLine(installed.value) else None
  }

  /** The log the installed line chose, else today's default. */
  function LogFor(before: seq<string>, home: string): string {
    var installed := FirstBackup(before);
    if installed.Some? && ChosenLog(installed.value, home).Some? then ChosenLog(installed.value, home).value
        else DefaultLog(home)
  }

  /** Where arena is, for the line. */
  datatype Places = Places(exe: string, config: string, home: string)

  function LineFor(before: seq<string>, f: BackupFlags, at: Places): string {
    Render(ResolveOpts(ReadInstalled(before), f), at.exe, at.config, at.home, LogFor(before, at.home))
  }

  /** The crontab after an install of the backup line. */
  function Install(existing: string, f: BackupFlags, at: Places): string {
    var before := Managed(existing);
    With(existing, Merge(KindOf, before, {Backup}, [(Backup, LineFor(before, f, at))]))
  }

  /** What the install is told and what it finds can be written into a line. */
  predicate Renders(before: seq<string>, f: BackupFlags, at: Places) {
    WellFormed(ResolveOpts(ReadInstalled(before), f))
        && PathsAreFit(at.exe, at.config, at.home, LogFor(before, at.home))
  }

  /** And told apart in it. */
  predicate Installable(before: seq<string>, f: BackupFlags, at: Places) {
    Renders(before, f, at) && LogIsFit(ResolveOpts(ReadInstalled(before), f), at.home, LogFor(before, at.home))
  }

  lemma RestFrom(a: Addition, placed: set<Kind>, l: string)
    ensures l in Rest([a], placed) ==> l == a.1
  {
    assert [a][1..] == [];
    assert Rest([a][1..], placed) == [] && Rest([a][1..], placed + {a.0}) == [];
  }

  predicate Managing(ls: seq<string>) {
    Plain(ls) && forall l | l in ls :: Trim(l) != ""
  }

  lemma {:induction false} InsideIsPlain(ls: seq<string>, inBlock: bool)
    requires AreLines(ls)
    ensures Plain(Inside(ls, inBlock))
  {
    if ls != [] {
      InsideIsPlain(ls[1..], if IsMarker(ls[0]) then Trim(ls[0]) == BEGIN else inBlock);
    }
  }

  lemma {:induction false} NonBlankIs(ls: seq<string>)
    ensures forall l :: l in NonBlank(ls) <==> l in ls && Trim(l) != ""
  {
    if ls != [] {
      NonBlankIs(ls[1..]);
      assert ls == [ls[0]] + ls[1..];
    }
  }

  lemma ManagedIs(existing: string)
    ensures Managing(Managed(existing))
  {
    LinesAreLines(existing);
    InsideIsPlain(Lines(existing), false);
    NonBlankIs(Inside(Lines(existing), false));
  }

  /** What an install leaves in the block can be in a block. */
  lemma AfterIs(before: seq<string>, line: string)
    requires Managing(before) && Managing([line])
    ensures Managing(Merge(KindOf, before, {Backup}, [(Backup, line)]))
  {
    var add := [(Backup, line)];
    var after := Merge(KindOf, before, {Backup}, add);
    assert line in [line];
    forall l | l in after ensures l in before || l == line {
      BodyFrom(KindOf, before, {Backup}, (Backup, line), l);
      RestFrom((Backup, line), Placed(KindOf, before, {Backup}, add), l);
    }
  }

  lemma {:induction false} FirstIsOfKind(ls: seq<string>)
    ensures FirstBackup(ls) == var of := OfKind(KindOf, ls, Backup); if of == [] then None else Some(of[0])
  {
    if ls != [] {
      assert ls == [ls[0]] + ls[1..];
      OfKindCat(KindOf, [ls[0]], ls[1..], Backup);
      OfKindMore(KindOf, [], ls[0], Backup);
      assert [] + [ls[0]] == [ls[0]];
      FirstIsOfKind(ls[1..]);
    }
  }

  /** After an install the block's backup line is the one written. */
  lemma InstalledIs(before: seq<string>, line: string)
    requires KindOf(line) == Some(Backup)
    ensures FirstBackup(Merge(KindOf, before, {Backup}, [(Backup, line)])) == Some(line)
  {
    var add := [(Backup, line)];
    MergeIsTargeted(KindOf, before, {Backup}, add, Backup);
    FirstIsOfKind(Merge(KindOf, before, {Backup}, add));
  }

  lemma LogIsAPath(before: seq<string>, home: string)
    requires CrontabWord(home)
    ensures LogFor(before, home) != "" && LogFor(before, home)[0] !in {'>', '&'}
  {
    DirIsWord(home);
  }

  /** The line read back resolves, without flags, to itself. */
  lemma ResolvesToItself(before: seq<string>, f: BackupFlags, at: Places)
    requires Installable(before, f, at)
    ensures var line := LineFor(before, f, at);
            && KindOf(line) == Some(Backup)
            && ResolveOpts(OfLine(line), NO_FLAGS) == ResolveOpts(ReadInstalled(before), f)
            && (if ChosenLog(line, at.home).Some? then ChosenLog(line, at.home).value else DefaultLog(at.home))
               == LogFor(before, at.home)
  {
    var o, log := ResolveOpts(ReadInstalled(before), f), LogFor(before, at.home);
    LogIsAPath(before, at.home);
    JobOfRender(o, at.exe, at.config, at.home, log);
    ReadsBack(o, at.exe, at.config, at.home, log);
    LogReadsBack(o, at.exe, at.config, at.home, log);
  }

  lemma SameLineAgain(before: seq<string>, f: BackupFlags, at: Places)
    requires Installable(before, f, at)
    ensures var line := LineFor(before, f, at);
            LineFor(Merge(KindOf, before, {Backup}, [(Backup, line)]), NO_FLAGS, at) == line
                && KindOf(line) == Some(Backup)
  {
    ResolvesToItself(before, f, at);
    InstalledIs(before, LineFor(before, f, at));
  }

  lemma LineIsManaging(before: seq<string>, f: BackupFlags, at: Places)
    requires Renders(before, f, at)
    ensures Managing([LineFor(before, f, at)])
  {
    var o, log := ResolveOpts(ReadInstalled(before), f), LogFor(before, at.home);
    RenderIsPlain(o, at.exe, at.config, at.home, log);
    RenderIsNoComment(o, at.exe, at.config, at.home, log);
  }

  /** What an install leaves in the block. */
  function After(before: seq<string>, f: BackupFlags, at: Places): seq<string> {
    Merge(KindOf, before, {Backup}, [(Backup, LineFor(before, f, at))])
  }

  lemma AfterIsManaged(existing: string, f: BackupFlags, at: Places)
    requires Renders(Managed(existing), f, at)
    ensures Managed(Install(existing, f, at)) == After(Managed(existing), f, at)
    ensures Strip(Install(existing, f, at)) == Strip(existing)
  {
    var before := Managed(existing);
    ManagedIs(existing);
    LineIsManaging(before, f, at);
    AfterIs(before, LineFor(before, f, at));
    WithReadsBack(existing, After(before, f, at));
    ManagedIsWritten(existing, After(before, f, at));
  }

  lemma ReinstallWhenFit(existing: string, f: BackupFlags, at: Places)
    requires Installable(Managed(existing), f, at)
    ensures Install(Install(existing, f, at), NO_FLAGS, at) == Install(existing, f, at)
  {
    var before := Managed(existing);
    var line := LineFor(before, f, at);
    var add := [(Backup, line)];
    AfterIsManaged(existing, f, at);
    ManagedIs(Install(existing, f, at));
    SameLineAgain(before, f, at);
    MergeTwice(KindOf, before, {Backup}, add);
    WithTwice(existing, After(before, f, at), After(before, f, at));
  }

  // ---- a line that is nobody's --------------------------------------------------------------------

  /** Of a line that is no backup line, the block has one more of nobody's after it than before. */
  predicate NobodysIn(before: seq<string>, line: string) {
    var add := [(Backup, line)];
    var body := Body(KindOf, before, {Backup}, add);
    && OfKind(KindOf, body, Backup) == []
    && |Untouched(KindOf, body, {Backup})|
       == |Untouched(KindOf, before, {Backup})| + |Placed(KindOf, before, {Backup}, add)|
  }

  lemma {:induction false} NobodysBody(before: seq<string>, line: string)
    requires KindOf(line) != Some(Backup)
    ensures NobodysIn(before, line)
  {
    if before != [] {
      var n := |before| - 1;
      NobodysBody(before[..n], line);
      NobodysNext(before[..n], before[n], line, before);
    }
  }

  lemma NobodysNext(before: seq<string>, x: string, line: string, all: seq<string>)
    requires KindOf(line) != Some(Backup) && NobodysIn(before, line) && all == before + [x]
    ensures NobodysIn(all, line)
  {
    if KindOf(x) == Some(Backup) {
      NobodysReplaces(before, x, line);
    } else {
      NobodysKeeps(before, x, line);
    }
  }

  lemma NobodysReplaces(before: seq<string>, x: string, line: string)
    requires KindOf(line) != Some(Backup) && KindOf(x) == Some(Backup) && NobodysIn(before, line)
    ensures NobodysIn(before + [x], line)
  {
    BodyMore(KindOf, before, x, {Backup}, [(Backup, line)]);
    NobodysMore(before, x);
    NobodysMore(Body(KindOf, before, {Backup}, [(Backup, line)]), line);
  }

  lemma NobodysKeeps(before: seq<string>, x: string, line: string)
    requires KindOf(line) != Some(Backup) && KindOf(x) != Some(Backup) && NobodysIn(before, line)
    ensures NobodysIn(before + [x], line)
  {
    BodyMore(KindOf, before, x, {Backup}, [(Backup, line)]);
    NobodysMore(before, x);
    NobodysMore(Body(KindOf, before, {Backup}, [(Backup, line)]), x);
  }

  lemma NobodysMore(body: seq<string>, l: string)
    ensures KindOf(l) != Some(Backup) ==> OfKind(KindOf, body + [l], Backup) == OfKind(KindOf, body, Backup)
    ensures KindOf(l) != Some(Backup) ==>
            Untouched(KindOf, body + [l], {Backup}) == Untouched(KindOf, body, {Backup}) + [l]
    ensures KindOf(l) == Some(Backup) ==>
            Untouched(KindOf, body + [l], {Backup}) == Untouched(KindOf, body, {Backup})
  {
    assert (body + [l])[..|body|] == body;
  }

  lemma PlacedAtMost(before: seq<string>, line: string)
    ensures var placed := Placed(KindOf, before, {Backup}, [(Backup, line)]);
            placed <= {Backup} && |placed| == if Backup in placed then 1 else 0
  {
    var placed := Placed(KindOf, before, {Backup}, [(Backup, line)]);
    assert placed <= {Backup};
    assert placed == (if Backup in placed then {Backup} else {});
  }

  lemma NobodysAfter(before: seq<string>, line: string)
    requires KindOf(line) != Some(Backup)
    ensures var after := Merge(KindOf, before, {Backup}, [(Backup, line)]);
            && OfKind(KindOf, after, Backup) == []
            && |Untouched(KindOf, after, {Backup})| == |Untouched(KindOf, before, {Backup})| + 1
  {
    var add := [(Backup, line)];
    var body, placed := Body(KindOf, before, {Backup}, add), Placed(KindOf, before, {Backup}, add);
    NobodysBody(before, line);
    NobodysMore(body, line);
    PlacedAtMost(before, line);
    assert [add[0]][1..] == [] && body + [] == body;
    assert Rest(add, placed) == if Backup in placed then [] else [line];
  }

  // ---- exactly when ---------------------------------------------------------------------------------

  /** After one, the next install finds no backup line, and adds another. */
  lemma NobodysLineGrows(existing: string, f: BackupFlags, at: Places)
    requires Renders(Managed(existing), f, at) && KindOf(LineFor(Managed(existing), f, at)) != Some(Backup)
    ensures Install(Install(existing, f, at), NO_FLAGS, at) != Install(existing, f, at)
  {
    var first := Install(existing, f, at);
    var after := After(Managed(existing), f, at);
    AfterIsManaged(existing, f, at);
    NobodysAfter(Managed(existing), LineFor(Managed(existing), f, at));
    NextAdds(after, at);
    AfterIsManaged(first, NO_FLAGS, at);
  }

  lemma NextAdds(after: seq<string>, at: Places)
    requires OfKind(KindOf, after, Backup) == []
    requires CrontabWord(at.exe) && CrontabWord(at.config) && CrontabWord(at.home)
    ensures Renders(after, NO_FLAGS, at) && OfKind(KindOf, After(after, NO_FLAGS, at), Backup) != []
  {
    FirstIsOfKind(after);
    DefaultsInstall(after, at);
    MergeIsTargeted(KindOf, after, {Backup}, [(Backup, LineFor(after, NO_FLAGS, at))], Backup);
  }

  /** The line the next install writes is another one, so the crontab is. */
  lemma OtherLineOther(existing: string, f: BackupFlags, at: Places)
    requires Renders(Managed(existing), f, at)
    requires var line := LineFor(Managed(existing), f, at);
             var after := After(Managed(existing), f, at);
             && KindOf(line) == Some(Backup) && Renders(after, NO_FLAGS, at)
             && KindOf(LineFor(after, NO_FLAGS, at)) == Some(Backup) && LineFor(after, NO_FLAGS, at) != line
    ensures Install(Install(existing, f, at), NO_FLAGS, at) != Install(existing, f, at)
  {
    var before, after := Managed(existing), After(Managed(existing), f, at);
    AfterIsManaged(existing, f, at);
    AfterIsManaged(Install(existing, f, at), NO_FLAGS, at);
    MergeIsTargeted(KindOf, before, {Backup}, [(Backup, LineFor(before, f, at))], Backup);
    MergeIsTargeted(KindOf, after, {Backup}, [(Backup, LineFor(after, NO_FLAGS, at))], Backup);
  }

  /** A log that reads as `--no-pull`: what the next install writes. */
  lemma NextDoesNotPull(before: seq<string>, f: BackupFlags, at: Places)
    requires Renders(before, f, at) && KindOf(LineFor(before, f, at)) == Some(Backup)
    requires ResolveOpts(ReadInstalled(before), f).pull && LogFor(before, at.home) == "--no-pull"
    ensures var o' := ResolveOpts(ReadInstalled(before), f).(pull := false);
            && ResolveOpts(ReadInstalled(After(before, f, at)), NO_FLAGS) == o'
            && LogFor(After(before, f, at), at.home) == "--no-pull" && Renders(After(before, f, at), NO_FLAGS, at)
  {
    InstalledIs(before, LineFor(before, f, at));
    LogIsAPath(before, at.home);
    DashIsNoDefault(at.home);
    NoPullIsRead(ResolveOpts(ReadInstalled(before), f), at.exe, at.config, at.home, "--no-pull");
    LogReadsBack(ResolveOpts(ReadInstalled(before), f), at.exe, at.config, at.home, "--no-pull");
  }

  lemma DashIsNoDefault(home: string)
    requires CrontabWord(home)
    ensures DefaultLog(home) != "--no-pull" && "--no-pull" !in OldLogs(home)
  {
    assert DefaultLog(home)[0] == '/';
    assert forall l | l in OldLogs(home) :: l[0] == '/';
  }

  lemma PullIsTurnedOff(existing: string, f: BackupFlags, at: Places)
    requires Renders(Managed(existing), f, at) && KindOf(LineFor(Managed(existing), f, at)) == Some(Backup)
    requires ResolveOpts(ReadInstalled(Managed(existing)), f).pull && LogFor(Managed(existing), at.home) == "--no-pull"
    ensures Install(Install(existing, f, at), NO_FLAGS, at) != Install(existing, f, at)
  {
    var o := ResolveOpts(ReadInstalled(Managed(existing)), f);
    NextDoesNotPull(Managed(existing), f, at);
    JobOfRender(o, at.exe, at.config, at.home, "--no-pull");
    JobOfRender(o.(pull := false), at.exe, at.config, at.home, "--no-pull");
    OneWordMore(o, at.exe, at.config, at.home, "--no-pull");
    OtherLineOther(existing, f, at);
  }

  lemma OneWordMore(o: BackupOpts, exe: string, config: string, home: string, log: string)
    requires WellFormed(o) && PathsAreFit(exe, config, home, log) && o.pull
    ensures Render(o.(pull := false), exe, config, home, log) != Render(o, exe, config, home, log)
  {
    WordsOfRender(o, exe, config, home, log);
    WordsOfRender(o.(pull := false), exe, config, home, log);
  }

  /** Where its line can be written, installing again without flags changes nothing exactly if the
      line can be read back: whatever the crontab was, whatever the flags of the first install. */
  lemma ReinstallChangesNothing(existing: string, f: BackupFlags, at: Places)
    requires Renders(Managed(existing), f, at)
    ensures Install(Install(existing, f, at), NO_FLAGS, at) == Install(existing, f, at) <==>
            Installable(Managed(existing), f, at)
  {
    var before := Managed(existing);
    JobOfRender(ResolveOpts(ReadInstalled(before), f), at.exe, at.config, at.home, LogFor(before, at.home));
    if Installable(before, f, at) {
      ReinstallWhenFit(existing, f, at);
    } else if KindOf(LineFor(before, f, at)) != Some(Backup) {
      NobodysLineGrows(existing, f, at);
    } else {
      PullIsTurnedOff(existing, f, at);
    }
  }

  /** The rest of the crontab is left alone, and so are the block's other lines, byte for byte and in
      order, exactly if the line written is of the backup kind: otherwise it becomes one of them. */
  lemma InstallIsTargeted(existing: string, f: BackupFlags, at: Places)
    requires Renders(Managed(existing), f, at)
    ensures Strip(Install(existing, f, at)) == Strip(existing)
    ensures Untouched(KindOf, Managed(Install(existing, f, at)), {Backup})
            == Untouched(KindOf, Managed(existing), {Backup}) <==>
            KindOf(LineFor(Managed(existing), f, at)) == Some(Backup)
  {
    var before := Managed(existing);
    var line := LineFor(before, f, at);
    AfterIsManaged(existing, f, at);
    if KindOf(line) == Some(Backup) {
      MergeIsTargeted(KindOf, before, {Backup}, [(Backup, line)], Backup);
    } else {
      NobodysAfter(before, line);
    }
  }

  // ---- what an install puts there -----------------------------------------------------------------------

  /** The options of the line an install writes: each as its flag says, else as in the block's first backup
      line before, else by default. */
  predicate GivesOptions(o: BackupOpts, was: Option<BackupOpts>, f: BackupFlags) {
    && o.schedule == (if f.schedule.Some? then f.schedule.value else if was.Some? then was.value.schedule
       else "*/15 * * * *")
    && o.startDate == (if f.startDate.Some? then f.startDate
                       else if was.None? || f.noStartDate then None else was.value.startDate)
    && (o.pull <==> f.pull || (!f.noPull && was.Some? && was.value.pull))
  }

  /** The options of the block's first backup line. */
  function OptionsOf(block: seq<string>): Option<BackupOpts> {
    var lines := OfKind(KindOf, block, Backup);
    if lines == [] then None else OfLine(lines[0])
  }

  /** And its log: as in that line, if it is none of the defaults there have been, else today's. */
  predicate GivesLog(log: string, block: seq<string>, home: string) {
    var lines := OfKind(KindOf, block, Backup);
    var was := if lines == [] then None else LogTarget(lines[0]);
    var today := home + "/.local/state/arena-cron/backup.log";
    var before := {home + "/arena-cron.log", home + "/.local/state/arena/cron/backup.log"};
    log == if was.Some? && was.value !in before then was.value else today
  }

  /** After an install the block has one backup line, and it reads as the flags and the line before say. */
  lemma InstallGives(existing: string, f: BackupFlags, at: Places)
    requires Installable(Managed(existing), f, at)
    ensures var lines := OfKind(KindOf, Managed(Install(existing, f, at)), Backup);
            && |lines| == 1 && OfLine(lines[0]).Some? && LogTarget(lines[0]).Some?
            && GivesOptions(OfLine(lines[0]).value, OptionsOf(Managed(existing)), f)
            && GivesLog(LogTarget(lines[0]).value, Managed(existing), at.home)
  {
    var before := Managed(existing);
    AfterIsManaged(existing, f, at);
    WritesOne(before, f, at);
    ReadsInstalled(before, f);
    ChoosesLog(before, at.home);
  }

  lemma WritesOne(before: seq<string>, f: BackupFlags, at: Places)
    requires Installable(before, f, at)
    ensures var line := LineFor(before, f, at);
            && OfKind(KindOf, After(before, f, at), Backup) == [line]
            && OfLine(line) == Some(ResolveOpts(ReadInstalled(before), f))
               && LogTarget(line) == Some(LogFor(before, at.home))
  {
    var o, log := ResolveOpts(ReadInstalled(before), f), LogFor(before, at.home);
    ResolvesToItself(before, f, at);
    MergeIsTargeted(KindOf, before, {Backup}, [(Backup, LineFor(before, f, at))], Backup);
    ReadsBack(o, at.exe, at.config, at.home, log);
    LogIsAPath(before, at.home);
    LogReadsBack(o, at.exe, at.config, at.home, log);
  }

  lemma ReadsInstalled(before: seq<string>, f: BackupFlags)
    ensures GivesOptions(ResolveOpts(ReadInstalled(before), f), OptionsOf(before), f)
  {
    FirstIsOfKind(before);
    ResolvesAsGiven(ReadInstalled(before), f);
  }

  lemma ResolvesAsGiven(was: Option<BackupOpts>, f: BackupFlags)
    ensures GivesOptions(ResolveOpts(was, f), was, f)
  {}

  lemma ChoosesLog(before: seq<string>, home: string)
    ensures GivesLog(LogFor(before, home), before, home)
  {
    FirstIsOfKind(before);
    DefaultLogIs(home);
  }

  lemma DefaultLogIs(home: string)
    ensures DefaultLog(home) == home + "/.local/state/arena-cron/backup.log"
  {
    assert Dir(home) + "/backup.log" == home + ("/.local/state/arena-cron" + "/backup.log");
  }

  // ---- the first install ------------------------------------------------------------------------------

  const DEFAULT_FIELDS: seq<string> := ["*/15", "*", "*", "*", "*"]

  lemma StarsSpaced()
    ensures Spaced(["*", "*", "*", "*"]) == "* * * *"
  {
    assert ["*", "*"][1..] == ["*"] && ["*", "*", "*"][1..] == ["*", "*"];
    assert ["*", "*", "*", "*"][1..] == ["*", "*", "*"];
    assert Spaced(["*", "*"]) == "* *";
    assert Spaced(["*", "*", "*"]) == "* * *";
  }

  lemma DefaultFieldsSpaced()
    ensures Spaced(DEFAULT_FIELDS) == DEFAULT_SCHEDULE
  {
    StarsSpaced();
    assert DEFAULT_FIELDS[1..] == ["*", "*", "*", "*"];
  }

  lemma DefaultFieldsAreWords()
    ensures AreWords(DEFAULT_FIELDS) && forall f | f in DEFAULT_FIELDS :: TagOf(f) == Other
  {
    StarIsNoJob();
    assert forall f | f in DEFAULT_FIELDS :: f == "*/15" || f == "*";
  }

  lemma DefaultScheduleIsWellFormed()
    ensures WellFormedSchedule(DEFAULT_SCHEDULE)
  {
    DefaultFieldsSpaced();
    DefaultFieldsAreWords();
    WordsOfSpaced(DEFAULT_FIELDS);
  }

  lemma StarIsNoJob()
    ensures TagOf("*/15") == TagOf("*") == Other
  {}

  /** Where there is no backup line, the defaults can be written, and read back. */
  lemma DefaultsInstall(before: seq<string>, at: Places)
    requires FirstBackup(before) == None
    requires CrontabWord(at.exe) && CrontabWord(at.config) && CrontabWord(at.home)
    ensures Installable(before, NO_FLAGS, at) && KindOf(LineFor(before, NO_FLAGS, at)) == Some(Backup)
  {
    DefaultScheduleIsWellFormed();
    DirIsWord(at.home);
    var o := ResolveOpts(None, NO_FLAGS);
    ReadsBack(o, at.exe, at.config, at.home, DefaultLog(at.home));
    JobOfRender(o, at.exe, at.config, at.home, DefaultLog(at.home));
  }

  /** A first install, where `crontab_word` accepts the paths, can always be read back. */
  lemma FirstInstall(existing: string, at: Places)
    requires FirstBackup(Managed(existing)) == None
    requires CrontabWord(at.exe) && CrontabWord(at.config) && CrontabWord(at.home)
    ensures Installable(Managed(existing), NO_FLAGS, at)
    ensures Install(Install(existing, NO_FLAGS, at), NO_FLAGS, at) == Install(existing, NO_FLAGS, at)
  {
    DefaultsInstall(Managed(existing), at);
    ReinstallWhenFit(existing, NO_FLAGS, at);
  }
}

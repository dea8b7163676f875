/** What an installed backup line says, as one text: the folders it makes, the lock it waits for nobody
    on, and what it runs. (crates/cli/src/cron.rs, crates/core/src/cron.rs) */
module CronCommand {
  import opened Wrappers
  import opened Text
  import opened CronLine

  /** Each word and a space. */
  function Each(ws: seq<string>): string {
    if ws == [] then "" else ws[0] + " " + Each(ws[1..])
  }

  lemma {:induction false} EachOfBoth(a: seq<string>, b: seq<string>)
    ensures Each(a + b) == Each(a) + Each(b)
  {
    if a == [] {
      assert a + b == b && "" + Each(b) == Each(b);
    } else {
      assert (a + b)[1..] == a[1..] + b;
      EachOfBoth(a[1..], b);
      Regroup(a[0] + " ", Each(a[1..]), Each(b));
    }
  }

  lemma {:induction false} SpacedIsEach(ws: seq<string>, last: string)
    ensures Spaced(ws + [last]) == Each(ws) + last
  {
    if ws == [] {
      assert ws + [last] == [last] && "" + last == last;
    } else {
      assert (ws + [last])[1..] == ws[1..] + [last];
      SpacedIsEach(ws[1..], last);
      Regroup(ws[0] + " ", Each(ws[1..]), last);
    }
  }

  lemma EachOfOne(w: string)
    ensures Each([w]) == w + " "
  {
    assert [w][1..] == [] && w + " " + "" == w + " ";
  }

  lemma MkdirWords(home: string)
    ensures Each(["mkdir", "-p", Dir(home)]) == "mkdir -p " + (home + "/.local/state/arena-cron") + " "
  {
    EachOfBoth(["mkdir"] + ["-p"], [Dir(home)]);
    EachOfBoth(["mkdir"], ["-p"]);
    EachOfOne("mkdir");
    EachOfOne("-p");
    EachOfOne(Dir(home));
    assert ["mkdir", "-p", Dir(home)] == ["mkdir"] + ["-p"] + [Dir(home)];
    Regroup("mkdir -p ", Dir(home), " ");
  }

  lemma FlockWords(home: string)
    ensures Each(["flock", "-n", "-o", Lock(home)])
            == "flock -n -o " + (home + "/.local/state/arena-cron/backup.lock") + " "
  {
    EachOfBoth(["flock"] + ["-n"] + ["-o"], [Lock(home)]);
    EachOfBoth(["flock"] + ["-n"], ["-o"]);
    EachOfBoth(["flock"], ["-n"]);
    EachOfOne("flock");
    EachOfOne("-n");
    EachOfOne("-o");
    EachOfOne(Lock(home));
    assert ["flock", "-n", "-o", Lock(home)] == ["flock"] + ["-n"] + ["-o"] + [Lock(home)];
    assert Lock(home) == home + ("/.local/state/arena-cron" + "/backup.lock");
    Regroup("flock -n -o ", Lock(home), " ");
  }

  lemma ConfigWords(exe: string, config: string)
    ensures Each([exe, "--config", config]) == exe + " --config " + config + " "
  {
    EachOfBoth([exe] + ["--config"], [config]);
    EachOfBoth([exe], ["--config"]);
    EachOfOne(exe);
    EachOfOne("--config");
    EachOfOne(config);
    assert [exe, "--config", config] == [exe] + ["--config"] + [config];
    Regroup(exe, " ", "--config ");
    Regroup(exe + " --config ", config, " ");
  }

  lemma JobWords()
    ensures Each(["pods", "backup"]) == "pods backup " && Each(["--no-pull"]) == "--no-pull " && Each(["&&"]) == "&& "
  {
    EachOfBoth(["pods"], ["backup"]);
    EachOfOne("pods");
    EachOfOne("backup");
    EachOfOne("--no-pull");
    EachOfOne("&&");
    assert ["pods", "backup"] == ["pods"] + ["backup"];
  }

  lemma LogWords(log: string)
    ensures Each(["--yes", ">>", log]) + "2>&1" == "--yes >> " + log + " 2>&1"
  {
    EachOfBoth(["--yes"] + [">>"], [log]);
    EachOfBoth(["--yes"], [">>"]);
    EachOfOne("--yes");
    EachOfOne(">>");
    EachOfOne(log);
    assert ["--yes", ">>", log] == ["--yes"] + [">>"] + [log];
    Regroup("--yes >> ", log + " ", "2>&1");
    Regroup("--yes >> ", log, " 2>&1");
    Regroup(log, " ", "2>&1");
  }

  function DateWords(o: BackupOpts): seq<string> {
    if o.startDate.Some? then [DATE_PREFIX + o.startDate.value] else []
  }

  function PullWords(o: BackupOpts): seq<string> {
    if o.pull then [] else ["--no-pull"]
  }

  /** The words up to those of the log. */
  function Front(o: BackupOpts, exe: string, config: string, home: string, log: string): seq<string> {
    ["mkdir", "-p", Dir(home)] + LogDir(home, log) + ["&&"] + DateWords(o) + ["flock", "-n", "-o", Lock(home)]
    + [exe, "--config", config] + ["pods", "backup"] + PullWords(o)
  }

  lemma FrontIs(o: BackupOpts, exe: string, config: string, home: string, log: string)
    ensures Mkdir(home, log) + Command(o, exe, config, home, log) ==
            Front(o, exe, config, home, log) + ["--yes", ">>", log] + ["2>&1"]
  {}

  lemma FrontText(o: BackupOpts, exe: string, config: string, home: string, log: string)
    ensures Each(Front(o, exe, config, home, log)) ==
            Each(["mkdir", "-p", Dir(home)]) + Each(LogDir(home, log)) + Each(["&&"]) + Each(DateWords(o))
            + Each(["flock", "-n", "-o", Lock(home)]) + Each([exe, "--config", config]) + Each(["pods", "backup"])
            + Each(PullWords(o))
  {
    var a := ["mkdir", "-p", Dir(home)];
    var b := a + LogDir(home, log);
    var c := b + ["&&"];
    var d := c + DateWords(o);
    var e := d + ["flock", "-n", "-o", Lock(home)];
    var f := e + [exe, "--config", config];
    var g := f + ["pods", "backup"];
    EachOfBoth(g, PullWords(o));
    EachOfBoth(f, ["pods", "backup"]);
    EachOfBoth(e, [exe, "--config", config]);
    EachOfBoth(d, ["flock", "-n", "-o", Lock(home)]);
    EachOfBoth(c, DateWords(o));
    EachOfBoth(b, ["&&"]);
    EachOfBoth(a, LogDir(home, log));
  }

  /** The line, as one text: at its schedule it makes its folders, and runs the backup under the job's lock,
      or not at all if another tick has that; the date is set for it alone, and both outputs are appended
      to the log. */
  lemma RenderIs(o: BackupOpts, exe: string, config: string, home: string, log: string)
    ensures Render(o, exe, config, home, log) ==
            o.schedule + " " + (
              "mkdir -p " + (home + "/.local/state/arena-cron") + " "
              + (if LogDir(home, log) == [] then "" else LogDir(home, log)[0] + " ")
              + "&& "
              + (if o.startDate.None? then "" else "ARENA_START_DATE=" + o.startDate.value + " ")
              + ("flock -n -o " + (home + "/.local/state/arena-cron/backup.lock") + " ")
              + (exe + " --config " + config + " ") + "pods backup " + (if o.pull then "" else "--no-pull ")
              + ("--yes >> " + log + " 2>&1"))
  {
    FrontIs(o, exe, config, home, log);
    SpacedIsEach(Front(o, exe, config, home, log) + ["--yes", ">>", log], "2>&1");
    EachOfBoth(Front(o, exe, config, home, log), ["--yes", ">>", log]);
    Regroup(Each(Front(o, exe, config, home, log)), Each(["--yes", ">>", log]), "2>&1");
    FrontText(o, exe, config, home, log);
    MkdirWords(home);
    FlockWords(home);
    ConfigWords(exe, config);
    JobWords();
    LogWords(log);
    OptionalWords(o, home, log);
  }

  lemma OptionalWords(o: BackupOpts, home: string, log: string)
    ensures Each(LogDir(home, log)) == if LogDir(home, log) == [] then "" else LogDir(home, log)[0] + " "
    ensures Each(DateWords(o)) == if o.startDate.None? then "" else "ARENA_START_DATE=" + o.startDate.value + " "
    ensures Each(PullWords(o)) == if o.pull then "" else "--no-pull "
  {
    JobWords();
    if o.startDate.Some? {
      EachOfOne(DATE_PREFIX + o.startDate.value);
    }
    if LogDir(home, log) != [] {
      EachOfOne(LogDir(home, log)[0]);
    }
  }

  lemma {:induction false} LastSlashIs(s: string)
    ensures '/' !in s[LastSlash(s) + 1..]
  {
    if s != "" && s[|s| - 1] != '/' {
      var n := |s| - 1;
      LastSlashIs(s[..n]);
      var i := LastSlash(s[..n]);
      assert s[i + 1..] == s[..n][i + 1..] + [s[n]];
    }
  }

  lemma NoSlashFrom(s: string, i: nat)
    requires i <= |s| && '/' !in s[i..]
    ensures forall k | i <= k < |s| :: s[k] != '/'
  {
    forall k | i <= k < |s| ensures s[k] != '/' {
      assert s[k] == s[i..][k - i];
    }
  }

  /** The folder the line makes for a log elsewhere: the one the log is in, if it is a plain word. */
  lemma FolderOfLog(home: string, log: string, folder: string)
    ensures LogDir(home, log) == [folder] <==>
            && folder != "" && folder != home + "/.local/state/arena-cron" && (forall c | c in log :: InPlainWord(c))
            && |folder| < |log| && log[..|folder|] == folder && log[|folder|] == '/' && '/' !in log[|folder| + 1..]
    ensures |LogDir(home, log)| <= 1
  {
    LastSlashIs(log);
    NoSlashFrom(log, LastSlash(log) + 1);
    if |folder| < |log| && '/' !in log[|folder| + 1..] {
      NoSlashFrom(log, |folder| + 1);
    }
  }
}

/**
 * What `deploy/deploy_dashboard.py` guarantees, stated over the
 * specification functions of the `Deploy` module: how the reload falls
 * back, what a delivery of artifacts sends and leaves behind, and how a
 * whole run of `main` opens, proceeds and ends.
 */
module DeployFacts {
  import opened Options
  import opened Session
  import opened DeployPaths
  import opened DeployRewrite
  import opened PosixPath
  import opened Deploy
  import LegacyDeploy

  // ---------------------------------------------------------------------
  // Reload

  /** The command-line chain only depends on how the command-line reload commands end. */
  lemma {:induction false} CliChainDependsOnCli(o1: Oracle, o2: Oracle, cmds: seq<CliReload>)
    requires forall i :: 0 <= i < |cmds| ==> o1.exec(Cli(cmds[i])) == o2.exec(Cli(cmds[i]))
    ensures CliChain(o1, cmds) == CliChain(o2, cmds)
    decreases |cmds|
  {
    if cmds != [] {
      assert o1.exec(Cli(cmds[0])) == o2.exec(Cli(cmds[0]));
      assert forall i :: 0 <= i < |cmds[1..]| ==> o1.exec(Cli(cmds[1..][i])) == o2.exec(Cli(cmds[1..][i])) by {
        forall i | 0 <= i < |cmds[1..]| ensures o1.exec(Cli(cmds[1..][i])) == o2.exec(Cli(cmds[1..][i])) {
          assert cmds[1..][i] == cmds[i + 1];
        }
      }
      CliChainDependsOnCli(o1, o2, cmds[1..]);
    }
  }

  /**
   * With a token the REST API is tried first; without one only the
   * command-line reload commands are tried, in their listed order.
   */
  lemma {:induction false} ReloadApiFirst(token: Option<string>, o: Oracle)
    ensures var a := ReloadSpec(token, o).attempts;
      && (Given(token) ==> |a| > 0 && a[0] == ApiReload(token.value))
      && (!Given(token) ==> forall i :: 0 <= i < |a| ==> a[i] == Cli(CliReloadCommands[i]))
  {
    CliChainStopsAtFirstSuccess(o, CliReloadCommands);
  }

  /** The browsers are refreshed exactly when a token is given and the REST API reload succeeded. */
  lemma {:induction false} ReloadRefreshIff(token: Option<string>, o: Oracle)
    ensures var a := ReloadSpec(token, o).attempts;
      (exists i :: 0 <= i < |a| && a[i].BrowserRefresh?)
        <==> Given(token) && Succeeded(o.exec(ApiReload(token.value)))
  {
    var a := ReloadSpec(token, o).attempts;
    var cli := CliChain(o, CliReloadCommands).attempts;
    CliChainStopsAtFirstSuccess(o, CliReloadCommands);
    if Given(token) && Succeeded(o.exec(ApiReload(token.value))) {
      assert a[1].BrowserRefresh?;
    } else if Given(token) {
      assert forall i :: 0 <= i < |a| ==> !a[i].BrowserRefresh? by {
        forall i | 0 <= i < |a| ensures !a[i].BrowserRefresh? {
          if i > 0 {
            assert a[i] == cli[i - 1];
          }
        }
      }
    } else {
      assert a == cli;
    }
  }

  /**
   * The reload succeeds exactly when the REST API reload succeeds or, failing
   * that, some command-line reload command exits with status 0.
   */
  lemma {:induction false} ReloadOkIff(token: Option<string>, o: Oracle)
    ensures ReloadSpec(token, o).ok <==>
      || (Given(token) && Succeeded(o.exec(ApiReload(token.value))))
      || (exists i :: 0 <= i < |CliReloadCommands| && Succeeded(o.exec(Cli(CliReloadCommands[i]))))
  {
    CliChainOkIff(o, CliReloadCommands);
  }

  /** A failed reload has tried every command-line reload command, last of all. */
  lemma {:induction false} ReloadFailureTriedAll(token: Option<string>, o: Oracle)
    requires !ReloadSpec(token, o).ok
    ensures var a := ReloadSpec(token, o).attempts;
      |a| >= 3 && a[|a| - 3..] == Clis(CliReloadCommands)
  {
    var cli := CliChain(o, CliReloadCommands);
    CliChainStopsAtFirstSuccess(o, CliReloadCommands);
    assert cli.attempts == Clis(CliReloadCommands);
    if Given(token) {
      var a := ReloadSpec(token, o).attempts;
      assert a == [ApiReload(token.value)] + cli.attempts;
      assert a[|a| - 3..] == cli.attempts;
    }
  }

  /** Whether the browser refresh succeeds changes nothing about the reload. */
  lemma {:induction false} ReloadIgnoresRefreshOutcome(token: Option<string>, o1: Oracle, o2: Oracle)
    requires forall c: Command :: !c.BrowserRefresh? ==> o1.exec(c) == o2.exec(c)
    ensures ReloadSpec(token, o1) == ReloadSpec(token, o2)
  {
    CliChainDependsOnCli(o1, o2, CliReloadCommands);
  }

  /**
   * A token whose REST API call fails, a Supervisor CLI that fails and a
   * virtual-env install that reloads: the Docker command is never tried.
   */
  lemma {:induction false} ReloadFallsBackInOrder(token: Option<string>, o: Oracle)
    requires Given(token) && !Succeeded(o.exec(ApiReload(token.value)))
    requires !Succeeded(o.exec(Cli(HassioCli))) && Succeeded(o.exec(Cli(VenvCli)))
    ensures ReloadSpec(token, o) == Reload([ApiReload(token.value), Cli(HassioCli), Cli(VenvCli)], true)
  {
    assert CliReloadCommands[1..] == [VenvCli, DockerCli];
    assert CliChain(o, CliReloadCommands) == Reload([Cli(HassioCli), Cli(VenvCli)], true);
  }

  // ---------------------------------------------------------------------
  // Delivering the artifacts

  /** An artifact that delivers: its local file can be read and the server accepts the upload. */
  predicate Deliverable(o: Oracle, local: map<string, string>, a: Artifact)
  {
    a.source.path in local && o.put(a.remote)
  }

  /** The labels of the artifacts, in order. */
  function Names(plan: seq<Artifact>): (ns: seq<Label>)
    ensures |ns| == |plan| && forall i :: 0 <= i < |plan| ==> ns[i] == plan[i].name
  {
    seq(|plan|, i requires 0 <= i < |plan| => plan[i].name)
  }

  /**
   * One artifact completes exactly when it is deliverable; otherwise it
   * ends with `sys.exit(1)` or, for a staged artifact whose local file is
   * missing, an uncaught exception; only a completed artifact is listed.
   */
  lemma {:induction false} DeliverOneOutcome(noBackup: bool, o: Oracle, local: map<string, string>, a: Artifact,
                                             files: map<string, string>)
    ensures var d := DeliverOne(noBackup, o, local, a, files);
      && (d.status == Completed <==> Deliverable(o, local, a))
      && (d.status == Uncaught <==> a.source.Staged? && a.source.path !in local)
      && (d.status == Completed || d.status == Aborted(1) || d.status == Uncaught)
      && d.deployed == if d.status == Completed then [a.name] else []
  {
  }

  /**
   * The artifacts are deployed in order up to the first that is not
   * deliverable: the deployed labels are those of the artifacts before
   * it, and the delivery completes exactly when there is no such artifact.
   */
  lemma {:induction false} DeliverStopsAtFirstFailure(noBackup: bool, o: Oracle, local: map<string, string>,
                                                      plan: seq<Artifact>, files: map<string, string>)
    ensures var d := Deliver(noBackup, o, local, plan, files);
      var k := |d.deployed|;
      && k <= |plan| && d.deployed == Names(plan[..k])
      && (forall j :: 0 <= j < k ==> Deliverable(o, local, plan[j]))
      && (d.status == Completed <==> k == |plan|)
      && (k < |plan| ==> !Deliverable(o, local, plan[k]))
      && (d.status == Completed || d.status == Aborted(1) || d.status == Uncaught)
    decreases |plan|
  {
    if plan != [] {
      var first := DeliverOne(noBackup, o, local, plan[0], files);
      DeliverOneOutcome(noBackup, o, local, plan[0], files);
      if first.status == Completed {
        var rest := Deliver(noBackup, o, local, plan[1..], first.files);
        DeliverStopsAtFirstFailure(noBackup, o, local, plan[1..], first.files);
        assert Deliver(noBackup, o, local, plan, files).deployed == [plan[0].name] + rest.deployed;
        NamesCons(plan, rest.deployed);
        var k := |rest.deployed| + 1;
        if k < |plan| {
          assert plan[k] == plan[1..][k - 1];
        }
      } else {
        assert plan[..0] == [];
      }
    }
  }

  lemma {:induction false} NamesCons(plan: seq<Artifact>, tail: seq<Label>)
    requires plan != [] && |tail| < |plan| && tail == Names(plan[1..][..|tail|])
    ensures [plan[0].name] + tail == Names(plan[..|tail| + 1])
    ensures forall j :: 0 < j <= |tail| ==> plan[j] == plan[1..][j - 1]
  {
    var ns := [plan[0].name] + tail;
    forall j | 0 < j < |ns| ensures ns[j] == plan[j].name {
      assert ns[j] == tail[j - 1] == plan[1..][j - 1].name;
    }
  }

  /** Every request a delivery sends is a backup command or an upload. */
  predicate BackupsAndUploads(es: seq<Effect>)
  {
    forall i :: 0 <= i < |es| ==> es[i].Put? || (es[i].Exec? && es[i].cmd.BackupCmd?)
  }

  /** Every upload directly follows the backup command for the same path. */
  predicate BackedUpFirst(es: seq<Effect>)
  {
    forall i :: 0 <= i < |es| && es[i].Put? ==> i > 0 && es[i - 1] == Exec(BackupCmd(es[i].path))
  }

  predicate UploadsOnly(es: seq<Effect>)
  {
    forall i :: 0 <= i < |es| ==> es[i].Put?
  }

  /** The three properties of delivery requests carry over to concatenations. */
  lemma {:induction false} DeliveryEffectsAppend(a: seq<Effect>, b: seq<Effect>)
    ensures BackupsAndUploads(a) && BackupsAndUploads(b) ==> BackupsAndUploads(a + b)
    ensures BackedUpFirst(a) && BackedUpFirst(b) ==> BackedUpFirst(a + b)
    ensures UploadsOnly(a) && UploadsOnly(b) ==> UploadsOnly(a + b)
  {
    var c := a + b;
    forall i | |a| <= i < |c| ensures c[i] == b[i - |a|] {
    }
  }

  lemma {:induction false} DeliverOneEffects(noBackup: bool, o: Oracle, local: map<string, string>, a: Artifact,
                                             files: map<string, string>)
    ensures var es := DeliverOne(noBackup, o, local, a, files).effects;
      && BackupsAndUploads(es)
      && (!noBackup ==> BackedUpFirst(es))
      && (noBackup ==> UploadsOnly(es))
  {
  }

  /**
   * A delivery sends only backup commands and uploads; with backups on,
   * each upload is directly preceded by the backup of the same remote
   * path; with `--no-backup` no backup command is sent at all.
   */
  lemma {:induction false} DeliverBacksUpFirst(noBackup: bool, o: Oracle, local: map<string, string>,
                                               plan: seq<Artifact>, files: map<string, string>)
    ensures var es := Deliver(noBackup, o, local, plan, files).effects;
      && BackupsAndUploads(es)
      && (!noBackup ==> BackedUpFirst(es))
      && (noBackup ==> UploadsOnly(es))
    decreases |plan|
  {
    if plan != [] {
      var first := DeliverOne(noBackup, o, local, plan[0], files);
      DeliverOneEffects(noBackup, o, local, plan[0], files);
      if first.status == Completed {
        DeliverBacksUpFirst(noBackup, o, local, plan[1..], first.files);
        DeliveryEffectsAppend(first.effects, Deliver(noBackup, o, local, plan[1..], first.files).effects);
      }
    }
  }

  /** Backup commands and uploads are requests within the session. */
  lemma {:induction false} DeliveryInSession(es: seq<Effect>)
    requires BackupsAndUploads(es)
    ensures AllInSession(es)
  {
  }

  // ---------------------------------------------------------------------
  // A whole run of `main`

  /** The argument checks `main` makes before connecting. */
  predicate ArgumentsValid(cfg: Config, local: map<string, string>)
  {
    && (Given(cfg.key) || Given(cfg.password))
    && cfg.local in local
    && ((cfg.theme || cfg.mode == Promote) ==> cfg.themeLocal in local)
  }

  function ConnectRequest(cfg: Config): Effect
  {
    Connect(cfg.host, cfg.user, cfg.port, LoginOf(cfg.key, cfg.password))
  }

  /** The requests of the reload that follows a completed delivery. */
  function ReloadRequests(cfg: Config, o: Oracle, d: Delivery): seq<Effect>
  {
    if d.status == Completed && !cfg.noReload then Execs(ReloadSpec(cfg.token, o).attempts) else []
  }

  /** A connected run is the delivery of the plan, the reload and the disconnect, after the connection. */
  lemma {:induction false} ConnectedRunShape(cfg: Config, local: map<string, string>, o: Oracle,
                                             files: map<string, string>)
    requires ArgumentsValid(cfg, local) && o.connects
    ensures var d := Deliver(cfg.noBackup, o, local, Plan(cfg), files);
      RunSpec(cfg, local, o, files)
        == Outcome(d.status, Remote(d.files, [ConnectRequest(cfg)] + d.effects + ReloadRequests(cfg, o, d) + [Disconnect]),
                   d.deployed)
  {
    var r1 := Remote(files, []).Send(ConnectRequest(cfg));
    assert r1.log == [ConnectRequest(cfg)];
    assert RunSpec(cfg, local, o, files) == ConnectedRun(cfg, local, o, r1);
  }

  /** Invalid arguments exit with 1 before anything is sent. */
  lemma {:induction false} RunRejectsBeforeConnecting(cfg: Config, local: map<string, string>, o: Oracle,
                                                      files: map<string, string>)
    requires !ArgumentsValid(cfg, local)
    ensures RunSpec(cfg, local, o, files) == Outcome(Aborted(1), Remote(files, []), [])
  {
  }

  /** A failed connection exits with 1 having sent only the connection attempt. */
  lemma {:induction false} RunConnectFailure(cfg: Config, local: map<string, string>, o: Oracle,
                                             files: map<string, string>)
    requires ArgumentsValid(cfg, local) && !o.connects
    ensures RunSpec(cfg, local, o, files) == Outcome(Aborted(1), Remote(files, [ConnectRequest(cfg)]), [])
  {
  }

  /** The reload sends at least one request, and never a backup command or an upload. */
  lemma {:induction false} ReloadRequestsShape(token: Option<string>, o: Oracle)
    ensures var a := ReloadSpec(token, o).attempts;
      |a| > 0 && forall i :: 0 <= i < |a| ==> !a[i].BackupCmd?
  {
    var a := ReloadSpec(token, o).attempts;
    var cli := CliChain(o, CliReloadCommands).attempts;
    CliChainStopsAtFirstSuccess(o, CliReloadCommands);
    assert |cli| > 0;
    if Given(token) && !Succeeded(o.exec(ApiReload(token.value))) {
      forall i | 0 < i < |a| ensures !a[i].BackupCmd? {
        assert a[i] == cli[i - 1];
      }
    }
  }

  /**
   * Whatever happens after the connection, the run ends with the
   * disconnect of the `finally` block, and sends nothing but remote
   * commands and uploads in between.
   */
  lemma {:induction false} RunSessionClosed(cfg: Config, local: map<string, string>, o: Oracle,
                                            files: map<string, string>)
    requires ArgumentsValid(cfg, local) && o.connects
    ensures var log := RunSpec(cfg, local, o, files).remote.log;
      && |log| >= 2 && log[0] == ConnectRequest(cfg) && log[|log| - 1] == Disconnect
      && forall i :: 0 < i < |log| - 1 ==> InSession(log[i])
  {
    var d := Deliver(cfg.noBackup, o, local, Plan(cfg), files);
    ConnectedRunShape(cfg, local, o, files);
    DeliverBacksUpFirst(cfg.noBackup, o, local, Plan(cfg), files);
    DeliveryInSession(d.effects);
    ExecsInSession(ReloadSpec(cfg.token, o).attempts);
    var log := RunSpec(cfg, local, o, files).remote.log;
    var reload := ReloadRequests(cfg, o, d);
    assert log == [ConnectRequest(cfg)] + d.effects + reload + [] + [Disconnect];
    SessionLog(log, ConnectRequest(cfg), d.effects, reload, []);
  }

  /**
   * The run exits with 0 exactly when it completes, and otherwise with 1;
   * it completes exactly when the arguments are valid, the connection
   * comes up and every artifact of the plan is deliverable. Backups and
   * the reload never change the exit status.
   */
  lemma {:induction false} RunExitStatus(cfg: Config, local: map<string, string>, o: Oracle,
                                         files: map<string, string>)
    ensures var out := RunSpec(cfg, local, o, files);
      && (ExitCode(out.status) == 0 || ExitCode(out.status) == 1)
      && (ExitCode(out.status) == 0 <==> out.status == Completed)
      && (out.status == Completed <==>
            ArgumentsValid(cfg, local) && o.connects
            && forall i :: 0 <= i < |Plan(cfg)| ==> Deliverable(o, local, Plan(cfg)[i]))
  {
    if ArgumentsValid(cfg, local) && o.connects {
      ConnectedRunShape(cfg, local, o, files);
      DeliverStopsAtFirstFailure(cfg.noBackup, o, local, Plan(cfg), files);
    }
  }

  /**
   * The deployed list holds the labels of the plan's artifacts in order,
   * up to the first that failed; on completion it is the whole plan.
   */
  lemma {:induction false} RunDeployedList(cfg: Config, local: map<string, string>, o: Oracle,
                                           files: map<string, string>)
    ensures var out := RunSpec(cfg, local, o, files);
      && |out.deployed| <= |Plan(cfg)|
      && out.deployed == Names(Plan(cfg)[..|out.deployed|])
      && (out.status == Completed ==> out.deployed == Names(Plan(cfg)))
  {
    if ArgumentsValid(cfg, local) && o.connects {
      ConnectedRunShape(cfg, local, o, files);
      DeliverStopsAtFirstFailure(cfg.noBackup, o, local, Plan(cfg), files);
      assert Plan(cfg)[..|Plan(cfg)|] == Plan(cfg);
    } else {
      assert Plan(cfg)[..0] == [];
    }
  }

  /**
   * A remote command other than a backup (that is, a reload request) is
   * sent exactly when every artifact was deployed and `--no-reload` is
   * not set.
   */
  lemma {:induction false} RunReloadsIff(cfg: Config, local: map<string, string>, o: Oracle,
                                         files: map<string, string>)
    requires ArgumentsValid(cfg, local) && o.connects
    ensures var out := RunSpec(cfg, local, o, files);
      var log := out.remote.log;
      (exists i :: 0 <= i < |log| && log[i].Exec? && !log[i].cmd.BackupCmd?)
        <==> out.status == Completed && !cfg.noReload
  {
    var d := Deliver(cfg.noBackup, o, local, Plan(cfg), files);
    ConnectedRunShape(cfg, local, o, files);
    DeliverBacksUpFirst(cfg.noBackup, o, local, Plan(cfg), files);
    var log := RunSpec(cfg, local, o, files).remote.log;
    var head := [ConnectRequest(cfg)] + d.effects;
    assert forall i :: 0 <= i < |head| ==> !(head[i].Exec? && !head[i].cmd.BackupCmd?) by {
      forall i | 0 < i < |head| ensures head[i] == d.effects[i - 1] {
      }
    }
    if d.status == Completed && !cfg.noReload {
      var a := ReloadSpec(cfg.token, o).attempts;
      ReloadRequestsShape(cfg.token, o);
      assert log == head + Execs(a) + [Disconnect];
      assert log[|head|] == Exec(a[0]);
    } else {
      assert log == head + [Disconnect];
    }
  }

  /** The log of a connected run keeps the delivery's backup-before-upload order. */
  lemma {:induction false} LogBackedUpFirst(c: Effect, es: seq<Effect>, reload: seq<Command>)
    requires !c.Put? && BackedUpFirst(es)
    ensures BackedUpFirst([c] + es + Execs(reload) + [Disconnect])
  {
    DeliveryEffectsAppend([c], es);
    DeliveryEffectsAppend([c] + es, Execs(reload));
    DeliveryEffectsAppend([c] + es + Execs(reload), [Disconnect]);
  }

  /** The log of a connected run without backups holds no backup command. */
  lemma {:induction false} LogWithoutBackups(c: Effect, es: seq<Effect>, reload: seq<Command>)
    requires !c.Exec? && UploadsOnly(es) && forall i :: 0 <= i < |reload| ==> !reload[i].BackupCmd?
    ensures var log := [c] + es + Execs(reload) + [Disconnect];
      forall i :: 0 <= i < |log| ==> !(log[i].Exec? && log[i].cmd.BackupCmd?)
  {
    var log := [c] + es + Execs(reload) + [Disconnect];
    forall i | 0 <= i < |log| ensures !(log[i].Exec? && log[i].cmd.BackupCmd?) {
      if 0 < i <= |es| {
        assert log[i] == es[i - 1];
      } else if |es| < i < |log| - 1 {
        assert log[i] == Execs(reload)[i - 1 - |es|];
      }
    }
  }

  /**
   * Over the whole run, every upload directly follows the backup of the
   * same remote path, unless `--no-backup` is set, in which case no backup
   * command is sent at all.
   */
  lemma {:induction false} RunBacksUpBeforeUpload(cfg: Config, local: map<string, string>, o: Oracle,
                                                  files: map<string, string>)
    ensures var log := RunSpec(cfg, local, o, files).remote.log;
      && (!cfg.noBackup ==> BackedUpFirst(log))
      && (cfg.noBackup ==> forall i :: 0 <= i < |log| ==> !(log[i].Exec? && log[i].cmd.BackupCmd?))
  {
    if ArgumentsValid(cfg, local) && o.connects {
      var d := Deliver(cfg.noBackup, o, local, Plan(cfg), files);
      var reload := if d.status == Completed && !cfg.noReload then ReloadSpec(cfg.token, o).attempts else [];
      assert RunSpec(cfg, local, o, files).remote.log == [ConnectRequest(cfg)] + d.effects + Execs(reload) + [Disconnect] by {
        ConnectedRunShape(cfg, local, o, files);
      }
      DeliverBacksUpFirst(cfg.noBackup, o, local, Plan(cfg), files);
      if cfg.noBackup {
        ReloadRequestsShape(cfg.token, o);
        LogWithoutBackups(ConnectRequest(cfg), d.effects, reload);
      } else {
        LogBackedUpFirst(ConnectRequest(cfg), d.effects, reload);
      }
    }
  }

  // ---------------------------------------------------------------------
  // What a delivery writes

  /** What an artifact uploads: the local file, renamed when staged. */
  function Content(local: map<string, string>, a: Artifact): string
    requires a.source.path in local
  {
    match a.source
    case LocalFile(p) => local[p]
    case Staged(p, isTheme) => StagedContent(local[p], isTheme)
  }

  /** The remote paths a delivery may write: each artifact's path and, with backups on, its backup path. */
  function Targets(noBackup: bool, plan: seq<Artifact>): set<string>
    decreases |plan|
  {
    if plan == [] then {}
    else {plan[0].remote} + (if noBackup then {} else {BackupPath(plan[0].remote)}) + Targets(noBackup, plan[1..])
  }

  /** Two maps that agree outside `a` agree outside any larger set. */
  lemma {:induction false} AgreeOutside(m1: map<string, string>, m2: map<string, string>, a: set<string>, b: set<string>)
    requires m1 - a == m2 - a
    ensures m1 - (a + b) == m2 - (a + b)
  {
    forall p | p !in a ensures (p in m1 <==> p in m2) && (p in m1 ==> m1[p] == m2[p]) {
      assert p in m1 - a <==> p in m2 - a;
      if p in m1 {
        assert (m1 - a)[p] == (m2 - a)[p];
      }
    }
  }

  /** One artifact writes only its own path and, with backups on, its backup path. */
  lemma {:induction false} DeliverOneTouchesOnly(noBackup: bool, o: Oracle, local: map<string, string>, a: Artifact,
                                                 files: map<string, string>)
    ensures var t := {a.remote} + (if noBackup then {} else {BackupPath(a.remote)});
      DeliverOne(noBackup, o, local, a, files).files - t == files - t
  {
    var t := {a.remote} + (if noBackup then {} else {BackupPath(a.remote)});
    if !(a.source.Staged? && a.source.path !in local) {
      var b := if noBackup then Step(true, files, []) else Backup(o, files, a.remote);
      var u := Upload(o, local, b.files, a);
      assert u.files - {a.remote} == b.files - {a.remote};
      AgreeOutside(u.files, b.files, {a.remote}, t);
      assert {a.remote} + t == t;
      if !noBackup {
        AgreeOutside(b.files, files, {BackupPath(a.remote)}, t);
        assert {BackupPath(a.remote)} + t == t;
      }
    }
  }

  /** A delivery leaves every file outside its targets as it was. */
  lemma {:induction false} DeliverTouchesOnly(noBackup: bool, o: Oracle, local: map<string, string>,
                                              plan: seq<Artifact>, files: map<string, string>)
    ensures var t := Targets(noBackup, plan);
      Deliver(noBackup, o, local, plan, files).files - t == files - t
    decreases |plan|
  {
    if plan != [] {
      var a := plan[0];
      var t1 := {a.remote} + (if noBackup then {} else {BackupPath(a.remote)});
      var rest := Targets(noBackup, plan[1..]);
      var t := Targets(noBackup, plan);
      assert t == t1 + rest;
      var first := DeliverOne(noBackup, o, local, a, files);
      DeliverOneTouchesOnly(noBackup, o, local, a, files);
      AgreeOutside(first.files, files, t1, rest);
      if first.status == Completed {
        var second := Deliver(noBackup, o, local, plan[1..], first.files);
        DeliverTouchesOnly(noBackup, o, local, plan[1..], first.files);
        AgreeOutside(second.files, first.files, rest, t1);
        assert rest + t1 == t;
      }
    }
  }

  /** A completed artifact's remote path holds what it uploads. */
  lemma {:induction false} DeliverOneWrites(noBackup: bool, o: Oracle, local: map<string, string>, a: Artifact,
                                            files: map<string, string>)
    requires DeliverOne(noBackup, o, local, a, files).status == Completed
    ensures a.source.path in local
    ensures var after := DeliverOne(noBackup, o, local, a, files).files;
      a.remote in after && after[a.remote] == Content(local, a)
  {
  }

  /**
   * After a completed delivery, each artifact's remote path holds what it
   * uploaded, unless a later artifact may have written the same path.
   */
  lemma {:induction false} DeliverWritesContent(noBackup: bool, o: Oracle, local: map<string, string>,
                                                plan: seq<Artifact>, files: map<string, string>, j: nat)
    requires Deliver(noBackup, o, local, plan, files).status == Completed
    requires j < |plan| && plan[j].remote !in Targets(noBackup, plan[j + 1..])
    ensures plan[j].source.path in local
    ensures var after := Deliver(noBackup, o, local, plan, files).files;
      plan[j].remote in after && after[plan[j].remote] == Content(local, plan[j])
    decreases |plan|
  {
    var first := DeliverOne(noBackup, o, local, plan[0], files);
    var rest := Deliver(noBackup, o, local, plan[1..], first.files);
    assert first.status == Completed;
    assert Deliver(noBackup, o, local, plan, files).files == rest.files;
    if j == 0 {
      DeliverOneWrites(noBackup, o, local, plan[0], files);
      DeliverTouchesOnly(noBackup, o, local, plan[1..], first.files);
      var t := Targets(noBackup, plan[1..]);
      assert plan[0].remote in first.files - t;
      assert (rest.files - t)[plan[0].remote] == (first.files - t)[plan[0].remote];
    } else {
      assert plan[1..][j - 1] == plan[j] && plan[1..][j - 1 + 1..] == plan[j + 1..];
      DeliverWritesContent(noBackup, o, local, plan[1..], first.files, j - 1);
    }
  }

  /**
   * A completed delivery of two artifacts leaves the second's content at
   * its path, and the first's at its path unless the second's upload or
   * backup landed there.
   */
  lemma {:induction false} PairWritesContent(noBackup: bool, o: Oracle, local: map<string, string>,
                                             a1: Artifact, a2: Artifact, files: map<string, string>)
    requires Deliver(noBackup, o, local, [a1, a2], files).status == Completed
    ensures a1.source.path in local && a2.source.path in local
    ensures var after := Deliver(noBackup, o, local, [a1, a2], files).files;
      && a2.remote in after && after[a2.remote] == Content(local, a2)
      && (a1.remote != a2.remote && (!noBackup ==> a1.remote != BackupPath(a2.remote)) ==>
            a1.remote in after && after[a1.remote] == Content(local, a1))
  {
    var plan := [a1, a2];
    assert plan[2..] == [] && plan[1..] == [a2];
    assert Targets(noBackup, plan[1..]) == {a2.remote} + (if noBackup then {} else {BackupPath(a2.remote)});
    DeliverWritesContent(noBackup, o, local, plan, files, 1);
    if a1.remote !in Targets(noBackup, plan[1..]) {
      DeliverWritesContent(noBackup, o, local, plan, files, 0);
    }
  }

  // ---------------------------------------------------------------------
  // The modes

  /**
   * `--stage` uploads both files, renamed, to the `-staging` variants of
   * the production paths, never to the production paths themselves, and
   * `--theme` makes no difference to it.
   */
  lemma {:induction false} StagePlanShape(cfg: Config)
    requires cfg.mode == Stage
    ensures var remote := DashboardRemote(cfg.remote);
      var themeRemote := ThemeRemote(cfg.themeRemote, remote, cfg.themeLocal);
      var plan := Plan(cfg);
      && |plan| == 2
      && plan[0] == Artifact(StagingDashboardLabel, StagingPath(remote), Staged(cfg.local, false))
      && plan[1] == Artifact(StagingThemeLabel, StagingPath(themeRemote), Staged(cfg.themeLocal, true))
      && plan[0].remote != remote && plan[1].remote != themeRemote
      && Plan(cfg.(theme := !cfg.theme)) == plan
  {
    var remote := DashboardRemote(cfg.remote);
    StagingPathDiffers(remote);
    StagingPathDiffers(ThemeRemote(cfg.themeRemote, remote, cfg.themeLocal));
  }

  /**
   * A production run (default or `--promote`) uploads the local files
   * unchanged to the production paths: the dashboard, then the theme
   * exactly when `--theme` or `--promote` is given.
   */
  lemma {:induction false} ProductionPlanShape(cfg: Config)
    requires cfg.mode != Stage
    ensures var remote := DashboardRemote(cfg.remote);
      var plan := Plan(cfg);
      && |plan| == (if cfg.theme || cfg.mode == Promote then 2 else 1)
      && plan[0] == Artifact(DashboardLabel, remote, LocalFile(cfg.local))
      && (|plan| == 2 ==>
            plan[1] == Artifact(ThemeLabel, ThemeRemote(cfg.themeRemote, remote, cfg.themeLocal), LocalFile(cfg.themeLocal)))
  {
  }

  /** Whatever happens, a run changes no remote file outside the plan's targets. */
  lemma {:induction false} RunTouchesOnlyPlan(cfg: Config, local: map<string, string>, o: Oracle,
                                              files: map<string, string>)
    ensures var t := Targets(cfg.noBackup, Plan(cfg));
      RunSpec(cfg, local, o, files).remote.files - t == files - t
  {
    if ArgumentsValid(cfg, local) && o.connects {
      ConnectedRunShape(cfg, local, o, files);
      DeliverTouchesOnly(cfg.noBackup, o, local, Plan(cfg), files);
    }
  }

  /**
   * With the default remote paths, the production dashboard
   * `/config/lovelace/my-dashboard.yaml` and its staging variant both lie in
   * `/config/lovelace`; they are 34 and 42 characters long, and their ninth
   * character is the 'l' of `lovelace`.
   */
  lemma {:induction false} DefaultDashboardPaths()
    ensures var pd := DashboardRemote(None);
      var sd := StagingPath(pd);
      && Dirname(pd) == DefaultDashboardsDir && Dirname(sd) == DefaultDashboardsDir
      && |pd| == 34 && |sd| == 42 && pd[8] == 'l' && sd[8] == 'l'
  {
    var pd := DashboardRemote(None);
    DefaultStagingDashboard();
    DashboardsDirShape();
    JoinShape(DefaultDashboardsDir, DefaultDashboardFile);
    JoinShape(DefaultDashboardsDir, "my-dashboard-staging.yaml");
    DirnameOfJoin(DefaultDashboardsDir, DefaultDashboardFile);
    StagingKeepsDirectory(pd);
  }

  /** Literal facts about the default dashboard names, proved apart from any context that would slow the solver. */
  lemma {:induction false} DashboardsDirShape()
    ensures |DefaultDashboardsDir| == 16 && DefaultDashboardsDir[8] == 'l'
    ensures DefaultDashboardsDir[1] != '/' && DefaultDashboardsDir[15] != '/'
    ensures '/' !in DefaultDashboardFile
  {
  }

  /** Joining keeps the characters of the directory and adds the separator's and the name's. */
  lemma {:induction false} JoinShape(d: string, f: string)
    requires |d| > 8
    ensures |d + "/" + f| == |d| + 1 + |f| && (d + "/" + f)[8] == d[8]
  {
  }

  /** Literal facts about the default themes directory, proved apart from any context that would slow the solver. */
  lemma {:induction false} ThemesDirShape()
    ensures |DefaultThemesDir| == 14 && DefaultThemesDir[8] == 't'
    ensures DefaultThemesDir[1] != '/' && DefaultThemesDir[13] != '/'
  {
  }

  /**
   * With the default remote paths, the production theme
   * `/config/themes/<f>` and its staging variant both lie in
   * `/config/themes`; the staging one is eight characters longer, and the
   * ninth character of both is the 't' of `themes`.
   */
  lemma {:induction false} DefaultThemePaths(f: string)
    requires '/' !in f
    ensures var pt := DefaultThemesDir + "/" + f;
      var st := StagingPath(pt);
      && Dirname(pt) == DefaultThemesDir && Dirname(st) == DefaultThemesDir
      && |pt| == 15 + |f| && |st| == |pt| + 8 && pt[8] == 't' && st[8] == 't'
  {
    ThemesDirShape();
    StagingOfJoin(DefaultThemesDir, f);
    JoinShape(DefaultThemesDir, f);
    JoinShape(DefaultThemesDir, Splitext(f).0 + "-staging" + Splitext(f).1);
    DirnameOfJoin(DefaultThemesDir, f);
    StagingKeepsDirectory(DefaultThemesDir + "/" + f);
  }

  /** Neither production path is a staging target or the backup of one. */
  lemma {:induction false} NotStagingTarget(p: string, pd: string, sd: string, pt: string, st: string, t: set<string>)
    requires |pd| == 34 && |sd| == 42 && pd[8] == 'l' && sd[8] == 'l'
    requires |pt| >= 15 && |st| == |pt| + 8 && pt[8] == 't' && st[8] == 't'
    requires p == pd || p == pt
    requires t <= {sd, BackupPath(sd), st, BackupPath(st)}
    ensures p !in t
  {
    assert BackupPath(sd)[8] == 'l' && BackupPath(st)[8] == 't';
    assert p != sd && p != BackupPath(sd) && p != st && p != BackupPath(st);
  }

  lemma {:induction false} TargetsOfPair(noBackup: bool, a1: Artifact, a2: Artifact)
    ensures Targets(noBackup, [a1, a2]) <= {a1.remote, BackupPath(a1.remote), a2.remote, BackupPath(a2.remote)}
  {
    assert [a1, a2][1..] == [a2] && [a2][1..] == [];
    assert Targets(noBackup, [a2][1..]) == {};
  }

  /**
   * With the default remote paths, `--stage` never writes, nor backs up
   * onto, the production dashboard `/config/lovelace/my-dashboard.yaml` or
   * the production theme `/config/themes/<local theme file name>`: each is
   * present afterwards exactly when it was before, with the same content.
   */
  lemma {:induction false} DefaultStageLeavesProduction(cfg: Config, local: map<string, string>, o: Oracle,
                                                        files: map<string, string>)
    requires cfg.mode == Stage && !Given(cfg.remote) && !Given(cfg.themeRemote)
    ensures var after := RunSpec(cfg, local, o, files).remote.files;
      forall p | p == DashboardRemote(None) || p == DefaultThemesDir + "/" + Basename(cfg.themeLocal) ::
        (p in after <==> p in files) && (p in files ==> after[p] == files[p])
  {
    var t := Targets(cfg.noBackup, Plan(cfg));
    DefaultStageTargets(cfg);
    RunTouchesOnlyPlan(cfg, local, o, files);
    AgreeAt(RunSpec(cfg, local, o, files).remote.files, files, t, DashboardRemote(None));
    AgreeAt(RunSpec(cfg, local, o, files).remote.files, files, t, DefaultThemesDir + "/" + Basename(cfg.themeLocal));
  }

  /** Two maps that agree outside `t` agree at any key outside `t`. */
  lemma {:induction false} AgreeAt(m1: map<string, string>, m2: map<string, string>, t: set<string>, p: string)
    requires m1 - t == m2 - t && p !in t
    ensures (p in m1 <==> p in m2) && (p in m1 ==> m1[p] == m2[p])
  {
    assert p in m1 - t <==> p in m2 - t;
    if p in m1 {
      assert (m1 - t)[p] == (m2 - t)[p];
    }
  }

  /** With the default remote paths, neither production path is a `--stage` target or the backup of one. */
  lemma {:induction false} DefaultStageTargets(cfg: Config)
    requires cfg.mode == Stage && !Given(cfg.remote) && !Given(cfg.themeRemote)
    ensures var t := Targets(cfg.noBackup, Plan(cfg));
      DashboardRemote(None) !in t && DefaultThemesDir + "/" + Basename(cfg.themeLocal) !in t
  {
    var f := Basename(cfg.themeLocal);
    var pd, pt := DashboardRemote(None), DefaultThemesDir + "/" + f;
    var plan := Plan(cfg);
    var t := Targets(cfg.noBackup, plan);
    assert t <= {plan[0].remote, BackupPath(plan[0].remote), plan[1].remote, BackupPath(plan[1].remote)} by {
      StagePlanShape(cfg);
      assert plan == [plan[0], plan[1]];
      TargetsOfPair(cfg.noBackup, plan[0], plan[1]);
    }
    assert plan[0].remote == StagingPath(pd) && plan[1].remote == StagingPath(pt) by {
      StagePlanShape(cfg);
      assert DashboardRemote(cfg.remote) == pd;
      assert ThemeRemote(cfg.themeRemote, pd, cfg.themeLocal) == ThemeRemote(None, pd, cfg.themeLocal);
      DefaultThemeRemote(cfg.themeLocal);
    }
    DefaultDashboardPaths();
    BasenameIsLastComponent(cfg.themeLocal);
    DefaultThemePaths(f);
    NotStagingTarget(pd, pd, plan[0].remote, pt, plan[1].remote, t);
    NotStagingTarget(pt, pd, plan[0].remote, pt, plan[1].remote, t);
  }

  /**
   * A completed `--stage` run leaves the renamed dashboard at the staging
   * dashboard path and the renamed theme at the staging theme path (the
   * dashboard's only if the theme's upload or backup did not land on the
   * same path).
   */
  lemma {:induction false} StageWritesRenamedCopies(cfg: Config, local: map<string, string>, o: Oracle,
                                                    files: map<string, string>)
    requires cfg.mode == Stage && RunSpec(cfg, local, o, files).status == Completed
    ensures cfg.local in local && cfg.themeLocal in local
    ensures var remote := DashboardRemote(cfg.remote);
      var dashboard := StagingPath(remote);
      var theme := StagingPath(ThemeRemote(cfg.themeRemote, remote, cfg.themeLocal));
      var after := RunSpec(cfg, local, o, files).remote.files;
      && theme in after && after[theme] == StageTheme(local[cfg.themeLocal])
      && (dashboard != theme && (!cfg.noBackup ==> dashboard != BackupPath(theme)) ==>
            dashboard in after && after[dashboard] == StageDashboard(local[cfg.local]))
  {
    RunExitStatus(cfg, local, o, files);
    ConnectedRunShape(cfg, local, o, files);
    StagePlanShape(cfg);
    var plan := Plan(cfg);
    assert plan == [plan[0], plan[1]];
    PairWritesContent(cfg.noBackup, o, local, plan[0], plan[1], files);
  }

  /**
   * A completed production run leaves the local dashboard at the dashboard
   * path (unless the theme landed on it) and, with `--theme` or
   * `--promote`, the local theme at the theme path.
   */
  lemma {:induction false} ProductionWritesFiles(cfg: Config, local: map<string, string>, o: Oracle,
                                                 files: map<string, string>)
    requires cfg.mode != Stage && RunSpec(cfg, local, o, files).status == Completed
    ensures cfg.local in local && (cfg.theme || cfg.mode == Promote ==> cfg.themeLocal in local)
    ensures var remote := DashboardRemote(cfg.remote);
      var theme := ThemeRemote(cfg.themeRemote, remote, cfg.themeLocal);
      var withTheme := cfg.theme || cfg.mode == Promote;
      var after := RunSpec(cfg, local, o, files).remote.files;
      && (withTheme ==> theme in after && after[theme] == local[cfg.themeLocal])
      && (!withTheme || (remote != theme && (!cfg.noBackup ==> remote != BackupPath(theme))) ==>
            remote in after && after[remote] == local[cfg.local])
  {
    RunExitStatus(cfg, local, o, files);
    ConnectedRunShape(cfg, local, o, files);
    ProductionPlanShape(cfg);
    var plan := Plan(cfg);
    if |plan| == 2 {
      assert plan == [plan[0], plan[1]];
      PairWritesContent(cfg.noBackup, o, local, plan[0], plan[1], files);
    } else {
      assert plan == [plan[0]];
      DeliverSingle(cfg.noBackup, o, local, plan[0], files);
      DeliverOneWrites(cfg.noBackup, o, local, plan[0], files);
    }
  }

  /**
   * `--stage` checks for the local theme file only when reading it, after
   * the dashboard is uploaded: with the theme file missing, the staging
   * dashboard is written and listed, then the run ends with an uncaught
   * exception (exit status 1) and disconnects.
   */
  lemma {:induction false} StageMissingThemeAfterDashboard(cfg: Config, local: map<string, string>, o: Oracle,
                                                           files: map<string, string>)
    requires cfg.mode == Stage && !cfg.theme && (Given(cfg.key) || Given(cfg.password))
    requires cfg.local in local && cfg.themeLocal !in local && o.connects
    requires o.put(StagingPath(DashboardRemote(cfg.remote)))
    ensures var out := RunSpec(cfg, local, o, files);
      var dashboard := StagingPath(DashboardRemote(cfg.remote));
      && out.status == Uncaught && ExitCode(out.status) == 1
      && out.deployed == [StagingDashboardLabel]
      && dashboard in out.remote.files && out.remote.files[dashboard] == StageDashboard(local[cfg.local])
      && out.remote.log[|out.remote.log| - 1] == Disconnect
  {
    ConnectedRunShape(cfg, local, o, files);
    StagePlanShape(cfg);
    var plan := Plan(cfg);
    DeliverPair(cfg.noBackup, o, local, plan[0], plan[1], files);
    assert plan == [plan[0], plan[1]];
  }

  // ---------------------------------------------------------------------
  // The two versions

  /** The first version's arguments for a second-version invocation. */
  function LegacyConfig(cfg: Config): LegacyDeploy.Config
  {
    LegacyDeploy.Config(cfg.host, cfg.user, cfg.key, cfg.password, cfg.port, cfg.local, cfg.remote,
                        cfg.noReload, cfg.noBackup)
  }

  /**
   * Run in production mode without `--theme` and without a token, the
   * second version given the first version's dashboard path as `--remote`
   * (their defaults differ) does exactly what the first does: the same
   * requests in the same order, the same files afterwards and the same exit
   * status. So every guarantee of the second version holds for the first.
   */
  lemma {:induction false} LegacyAgreesWithProduction(cfg: Config, local: map<string, string>, o: Oracle,
                                                      files: map<string, string>)
    requires cfg.mode == Production && !cfg.theme && !Given(cfg.token)
    ensures var v1 := LegacyDeploy.RunSpec(LegacyConfig(cfg), local, o, files);
      var v2 := RunSpec(cfg.(remote := Some(LegacyDeploy.DashboardRemote(cfg.remote))), local, o, files);
      v1.remote == v2.remote && v1.exitCode == ExitCode(v2.status)
  {
    var c2 := cfg.(remote := Some(LegacyDeploy.DashboardRemote(cfg.remote)));
    LegacyDeploy.DashboardRemoteDefault(cfg.remote);
    assert Given(c2.remote);
    assert LegacyDeploy.DashboardRemote(LegacyConfig(c2).remote) == LegacyDeploy.DashboardRemote(LegacyConfig(cfg).remote);
    LegacySameDashboard(LegacyConfig(cfg), LegacyConfig(c2), local, o, files);
    LegacyAgreesGivenRemote(c2, local, o, files);
  }

  /** The first version reads `--remote` only through the dashboard path it selects. */
  lemma {:induction false} LegacySameDashboard(c1: LegacyDeploy.Config, c2: LegacyDeploy.Config,
                                               local: map<string, string>, o: Oracle, files: map<string, string>)
    requires c2 == c1.(remote := c2.remote)
    requires LegacyDeploy.DashboardRemote(c1.remote) == LegacyDeploy.DashboardRemote(c2.remote)
    ensures LegacyDeploy.RunSpec(c1, local, o, files) == LegacyDeploy.RunSpec(c2, local, o, files)
  {
  }

  /** The agreement when the remote path is given, so both versions read it alike. */
  lemma {:induction false} LegacyAgreesGivenRemote(cfg: Config, local: map<string, string>, o: Oracle,
                                                      files: map<string, string>)
    requires cfg.mode == Production && !cfg.theme && !Given(cfg.token) && Given(cfg.remote)
    ensures var v1 := LegacyDeploy.RunSpec(LegacyConfig(cfg), local, o, files);
      var v2 := RunSpec(cfg, local, o, files);
      v1.remote == v2.remote && v1.exitCode == ExitCode(v2.status)
  {
    if ArgumentsValid(cfg, local) && o.connects {
      ConnectedRunShape(cfg, local, o, files);
      var plan := Plan(cfg);
      assert plan == [Artifact(DashboardLabel, cfg.remote.value, LocalFile(cfg.local))];
      DeliverSingle(cfg.noBackup, o, local, plan[0], files);
      var r1 := Remote(files, []).Send(ConnectRequest(cfg));
      assert LegacyDeploy.RunSpec(LegacyConfig(cfg), local, o, files) == LegacyDeploy.ConnectedRun(LegacyConfig(cfg), local, o, r1);
      assert r1.log == [ConnectRequest(cfg)];
    }
  }
}

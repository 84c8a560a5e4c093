/**
 * `deploy/deploy_dashboard.py`: the deployer object that holds the SSH and
 * SFTP clients, its remote operations, and `main`, which validates the
 * arguments, connects, uploads the artifacts of the selected mode (each
 * after a backup), reloads the configuration and disconnects.
 */
module Deploy {
  import opened Options
  import opened Session
  import opened DeployPaths
  import opened DeployRewrite

  /**
   * The reload strategy: the REST API when a token is given (a success is
   * followed by a browser refresh and ends the reload), otherwise or after
   * an API failure the command-line chain.
   */
  function ReloadSpec(token: Option<string>, o: Oracle): Reload
  {
    if Given(token) then
      if Succeeded(o.exec(ApiReload(token.value))) then
        Reload([ApiReload(token.value), BrowserRefresh(token.value)], true)
      else
        var cli := CliChain(o, CliReloadCommands);
        Reload([ApiReload(token.value)] + cli.attempts, cli.ok)
    else
      CliChain(o, CliReloadCommands)
  }

  /** The requests a reload sends, branch by branch. */
  lemma {:induction false} ReloadSpecSends(token: Option<string>, o: Oracle)
    ensures Given(token) && Succeeded(o.exec(ApiReload(token.value))) ==>
      Execs(ReloadSpec(token, o).attempts) == [Exec(ApiReload(token.value)), Exec(BrowserRefresh(token.value))]
    ensures Given(token) && !Succeeded(o.exec(ApiReload(token.value))) ==>
      Execs(ReloadSpec(token, o).attempts) == [Exec(ApiReload(token.value))] + Execs(CliChain(o, CliReloadCommands).attempts)
    ensures !Given(token) ==> ReloadSpec(token, o) == CliChain(o, CliReloadCommands)
  {
    if Given(token) {
      var api := ApiReload(token.value);
      if !Succeeded(o.exec(api)) {
        ExecsAppend([api], CliChain(o, CliReloadCommands).attempts);
      }
    }
  }

  /** The SSH deployer: its settings and the two client handles `connect` opens and `disconnect` closes. */
  class Deployer {
    const host: string
    const username: string
    const keyFile: Option<string>
    const password: Option<string>
    const port: int
    const token: Option<string>
    var sshClient: Handle
    var sftpClient: Handle

    constructor(host: string, username: string, keyFile: Option<string>, password: Option<string>,
                port: int, token: Option<string>)
      ensures this.host == host && this.username == username && this.keyFile == keyFile
      ensures this.password == password && this.port == port && this.token == token
      ensures sshClient == Unset && sftpClient == Unset
    {
      this.host := host;
      this.username := username;
      this.keyFile := keyFile;
      this.password := password;
      this.port := port;
      this.token := token;
      sshClient := Unset;
      sftpClient := Unset;
    }

    /**
     * Creates the SSH client, logs in with the key file if one is given
     * and otherwise with the password, and opens SFTP. The SSH client
     * exists afterwards even when the connection failed.
     */
    method Connect(o: Oracle, r: Remote) returns (ok: bool, r': Remote)
      modifies this
      ensures ok == o.connects
      ensures sshClient == Open
      ensures sftpClient == if ok then Open else old(sftpClient)
      ensures r' == r.Send(Effect.Connect(host, username, port, LoginOf(keyFile, password)))
    {
      sshClient := Open;
      r' := r.Send(Effect.Connect(host, username, port, LoginOf(keyFile, password)));
      if o.connects {
        sftpClient := Open;
        ok := true;
      } else {
        ok := false;
      }
    }

    /** Closes whichever clients exist. */
    method Disconnect(r: Remote) returns (r': Remote)
      modifies this
      ensures sftpClient == if old(sftpClient) == Unset then Unset else Closed
      ensures sshClient == if old(sshClient) == Unset then Unset else Closed
      ensures r' == if old(sshClient) == Unset && old(sftpClient) == Unset then r else r.Send(Effect.Disconnect)
    {
      r' := r;
      if sftpClient != Unset || sshClient != Unset {
        r' := r.Send(Effect.Disconnect);
      }
      if sftpClient != Unset {
        sftpClient := Closed;
      }
      if sshClient != Unset {
        sshClient := Closed;
      }
    }

    /**
     * Runs the backup command for `remotePath`. Without an open SSH client
     * the call raises, which is caught and reported as a failure.
     */
    method BackupFile(o: Oracle, r: Remote, remotePath: string) returns (ok: bool, r': Remote)
      ensures sshClient == Open ==> ok == Backup(o, r.files, remotePath).ok && r' == r.Apply(Backup(o, r.files, remotePath))
      ensures sshClient != Open ==> !ok && r' == r
    {
      if sshClient != Open {
        return false, r;
      }
      var s := Backup(o, r.files, remotePath);
      ok := s.ok;
      r' := r.Apply(s);
    }

    /** Uploads a local file; a missing local file or a missing SFTP client is reported as a failure. */
    method DeployFile(o: Oracle, local: map<string, string>, r: Remote, localFile: string, remotePath: string)
      returns (ok: bool, r': Remote)
      ensures localFile !in local || sftpClient != Open ==> !ok && r' == r
      ensures localFile in local && sftpClient == Open ==>
        ok == o.put(remotePath) && r' == r.Apply(Transfer(o, r.files, remotePath, local[localFile]))
    {
      if localFile !in local || sftpClient != Open {
        return false, r;
      }
      var s := Transfer(o, r.files, remotePath, local[localFile]);
      ok := s.ok;
      r' := r.Apply(s);
    }

    /** Uploads text held in memory. */
    method DeployContent(o: Oracle, r: Remote, content: string, remotePath: string) returns (ok: bool, r': Remote)
      ensures sftpClient != Open ==> !ok && r' == r
      ensures sftpClient == Open ==> ok == o.put(remotePath) && r' == r.Apply(Transfer(o, r.files, remotePath, content))
    {
      if sftpClient != Open {
        return false, r;
      }
      var s := Transfer(o, r.files, remotePath, content);
      ok := s.ok;
      r' := r.Apply(s);
    }

    /** Asks Browser Mod to refresh every browser; the outcome is ignored. */
    method RefreshBrowsers(o: Oracle, r: Remote) returns (r': Remote)
      ensures Given(token) && sshClient == Open ==> r' == r.Send(Exec(BrowserRefresh(token.value)))
      ensures !(Given(token) && sshClient == Open) ==> r' == r
    {
      if !Given(token) || sshClient != Open {
        return r;
      }
      r' := r.Send(Exec(BrowserRefresh(token.value)));
    }

    /**
     * Reloads the YAML configuration as `ReloadSpec` describes and sends
     * exactly the commands it attempts. Without an open SSH client every
     * attempt raises and is skipped, so nothing is sent and the reload fails.
     */
    method ReloadYamlConfig(o: Oracle, r: Remote) returns (ok: bool, r': Remote)
      ensures sshClient == Open ==>
        ok == ReloadSpec(token, o).ok && r' == Remote(r.files, r.log + Execs(ReloadSpec(token, o).attempts))
      ensures sshClient != Open ==> !ok && r' == r
    {
      if sshClient != Open {
        return false, r;
      }
      if Given(token) {
        var apiOk;
        apiOk, r' := ReloadViaApi(o, r);
        if apiOk {
          return true, r';
        }
        ok, r' := ReloadViaCli(o, r', CliReloadCommands);
      } else {
        ok, r' := ReloadViaCli(o, r, CliReloadCommands);
      }
      ReloadSpecSends(token, o);
    }

    /**
     * The REST API attempt: on success the browsers are refreshed; on failure
     * or an exception only the attempt itself was sent.
     */
    method ReloadViaApi(o: Oracle, r: Remote) returns (ok: bool, r': Remote)
      requires sshClient == Open && Given(token)
      ensures ok == Succeeded(o.exec(ApiReload(token.value)))
      ensures ok ==> r' == Remote(r.files, r.log + [Exec(ApiReload(token.value)), Exec(BrowserRefresh(token.value))])
      ensures !ok ==> r' == r.Send(Exec(ApiReload(token.value)))
    {
      var api := ApiReload(token.value);
      r' := r.Send(Exec(api));
      ok := Succeeded(o.exec(api));
      if ok {
        r' := RefreshBrowsers(o, r');
      }
    }

    /**
     * Tries the command-line reload commands in order until one exits with
     * status 0; an attempt that raises counts as a failure.
     */
    method ReloadViaCli(o: Oracle, r: Remote, commands: seq<CliReload>) returns (ok: bool, r': Remote)
      requires sshClient == Open
      ensures ok == CliChain(o, commands).ok
      ensures r' == Remote(r.files, r.log + Execs(CliChain(o, commands).attempts))
    {
      r' := r;
      var i := 0;
      while i < |commands|
        invariant 0 <= i <= |commands|
        invariant r'.files == r.files
        invariant r'.log == r.log + Execs(Clis(commands[..i]))
        invariant CliChain(o, commands).attempts == Clis(commands[..i]) + CliChain(o, commands[i..]).attempts
        invariant CliChain(o, commands).ok == CliChain(o, commands[i..]).ok
      {
        CliLogStep(r.log, commands, i);
        CliChainStep(o, commands, i);
        r' := r'.Send(Exec(Cli(commands[i])));
        if Succeeded(o.exec(Cli(commands[i]))) {
          return true, r';
        }
        i := i + 1;
      }
      CliChainExhausted(o, commands);
      ok := false;
    }
  }

  // ---------------------------------------------------------------------
  // main

  /** The mutually exclusive `--stage` / `--promote` group; neither is a production deployment. */
  datatype Mode = Production | Stage | Promote

  /** The parsed arguments; local files are identified by path. */
  datatype Config = Config(
    host: string, user: string, key: Option<string>, password: Option<string>, port: int,
    local: string, remote: Option<string>, theme: bool, themeLocal: string, themeRemote: Option<string>,
    mode: Mode, token: Option<string>, noReload: bool, noBackup: bool)

  /** How the script ends: normally, through `sys.exit(code)`, or with an uncaught exception. */
  datatype Status = Completed | Aborted(code: int) | Uncaught

  /** The process exit status; an uncaught exception exits with 1. */
  function ExitCode(s: Status): int
  {
    match s
    case Completed => 0
    case Aborted(c) => c
    case Uncaught => 1
  }

  /** Where an artifact's content comes from: a local file uploaded as is, or a local file renamed for staging. */
  datatype Source = LocalFile(path: string) | Staged(path: string, isTheme: bool)

  /** The artifact labels `main` prints and lists in its summary. */
  datatype Label = DashboardLabel | ThemeLabel | StagingDashboardLabel | StagingThemeLabel

  function LabelText(l: Label): string
  {
    match l
    case DashboardLabel => "dashboard"
    case ThemeLabel => "theme"
    case StagingDashboardLabel => "staging dashboard"
    case StagingThemeLabel => "staging theme"
  }

  datatype Artifact = Artifact(name: Label, remote: string, source: Source)

  /** The artifacts `main` deploys, in order, for the given arguments. */
  function Plan(cfg: Config): seq<Artifact>
  {
    var remote := DashboardRemote(cfg.remote);
    var themeRemote := ThemeRemote(cfg.themeRemote, remote, cfg.themeLocal);
    if cfg.mode == Stage then StagingPlan(cfg, remote, themeRemote) else ProductionPlan(cfg, remote, themeRemote)
  }

  function StagedContent(text: string, isTheme: bool): string
  {
    if isTheme then StageTheme(text) else StageDashboard(text)
  }

  /** The upload of one artifact over an open session. */
  function Upload(o: Oracle, local: map<string, string>, files: map<string, string>, a: Artifact): Step
  {
    match a.source
    case LocalFile(p) =>
      if p in local then Transfer(o, files, a.remote, local[p]) else Step(false, files, [])
    case Staged(p, isTheme) =>
      if p in local then Transfer(o, files, a.remote, StagedContent(local[p], isTheme)) else Step(false, files, [])
  }

  /** The state after the artifacts are delivered: how it ended, the files, the requests sent and the labels deployed. */
  datatype Delivery = Delivery(status: Status, files: map<string, string>, effects: seq<Effect>, deployed: seq<Label>)

  /**
   * One artifact of `main`: a staged artifact whose local file cannot be
   * read raises before anything is sent; otherwise the remote path is
   * backed up (unless `--no-backup`) and the artifact uploaded, and a failed
   * upload exits with status 1.
   */
  function DeliverOne(noBackup: bool, o: Oracle, local: map<string, string>, a: Artifact,
                      files: map<string, string>): Delivery
  {
    if a.source.Staged? && a.source.path !in local then Delivery(Uncaught, files, [], [])
    else
      var b := if noBackup then Step(true, files, []) else Backup(o, files, a.remote);
      var u := Upload(o, local, b.files, a);
      Delivery(if u.ok then Completed else Aborted(1), u.files, b.effects + u.effects, if u.ok then [a.name] else [])
  }

  /** One delivery followed by another: the requests and labels of both, and the state the second left. */
  function Then(first: Delivery, second: Delivery): Delivery
  {
    Delivery(second.status, second.files, first.effects + second.effects, first.deployed + second.deployed)
  }

  /** Delivers the artifacts in order, stopping at the first that does not complete. */
  function Deliver(noBackup: bool, o: Oracle, local: map<string, string>, plan: seq<Artifact>,
                   files: map<string, string>): Delivery
    decreases |plan|
  {
    if plan == [] then Delivery(Completed, files, [], [])
    else
      var first := DeliverOne(noBackup, o, local, plan[0], files);
      if first.status != Completed then first
      else Then(first, Deliver(noBackup, o, local, plan[1..], first.files))
  }

  /**
   * Delivering `p + q` delivers `p`, and, only if that completed, delivers
   * `q` on the files `p` left behind.
   */
  lemma {:induction false} DeliverAppend(noBackup: bool, o: Oracle, local: map<string, string>,
                                         p: seq<Artifact>, q: seq<Artifact>, files: map<string, string>)
    ensures var first := Deliver(noBackup, o, local, p, files);
      Deliver(noBackup, o, local, p + q, files)
        == if first.status != Completed then first else Then(first, Deliver(noBackup, o, local, q, first.files))
    decreases |p|
  {
    if p == [] {
      assert p + q == q;
    } else {
      assert (p + q)[0] == p[0] && (p + q)[1..] == p[1..] + q;
      var first := DeliverOne(noBackup, o, local, p[0], files);
      if first.status == Completed {
        DeliverAppend(noBackup, o, local, p[1..], q, first.files);
        var rest := Deliver(noBackup, o, local, p[1..], first.files);
        if rest.status == Completed {
          ThenAssoc(first, rest, Deliver(noBackup, o, local, q, rest.files));
        }
      }
    }
  }

  lemma {:induction false} ThenAssoc(x: Delivery, y: Delivery, z: Delivery)
    ensures Then(x, Then(y, z)) == Then(Then(x, y), z)
  {
    assert x.effects + (y.effects + z.effects) == x.effects + y.effects + z.effects;
    assert x.deployed + (y.deployed + z.deployed) == x.deployed + y.deployed + z.deployed;
  }

  /** A plan of one artifact is delivered as that artifact. */
  lemma {:induction false} DeliverSingle(noBackup: bool, o: Oracle, local: map<string, string>, a: Artifact, files: map<string, string>)
    ensures Deliver(noBackup, o, local, [a], files) == DeliverOne(noBackup, o, local, a, files)
  {
    assert [a][1..] == [];
  }

  /** A plan of two artifacts: the second is delivered only when the first completed. */
  lemma {:induction false} DeliverPair(noBackup: bool, o: Oracle, local: map<string, string>, a1: Artifact, a2: Artifact,
                    files: map<string, string>)
    ensures var first := DeliverOne(noBackup, o, local, a1, files);
      Deliver(noBackup, o, local, [a1, a2], files)
        == if first.status != Completed then first else Then(first, DeliverOne(noBackup, o, local, a2, first.files))
  {
    assert [a1, a2] == [a1] + [a2];
    DeliverAppend(noBackup, o, local, [a1], [a2], files);
    DeliverSingle(noBackup, o, local, a1, files);
    DeliverSingle(noBackup, o, local, a2, DeliverOne(noBackup, o, local, a1, files).files);
  }

  /** What a run of `main` produces: how it ended, the server afterwards and the artifacts deployed. */
  datatype Outcome = Outcome(status: Status, remote: Remote, deployed: seq<Label>)

  /**
   * The whole run: missing credentials or local files exit with 1 before
   * connecting; a failed connection exits with 1; otherwise the artifacts
   * are delivered, the configuration is reloaded if everything was
   * deployed and `--no-reload` is not set, and the session is closed on
   * every path.
   */
  function RunSpec(cfg: Config, local: map<string, string>, o: Oracle, files: map<string, string>): Outcome
  {
    var r0 := Remote(files, []);
    if !Given(cfg.key) && !Given(cfg.password) then Outcome(Aborted(1), r0, [])
    else if cfg.local !in local then Outcome(Aborted(1), r0, [])
    else if (cfg.theme || cfg.mode == Promote) && cfg.themeLocal !in local then Outcome(Aborted(1), r0, [])
    else
      var r1 := r0.Send(Connect(cfg.host, cfg.user, cfg.port, LoginOf(cfg.key, cfg.password)));
      if !o.connects then Outcome(Aborted(1), r1, []) else ConnectedRun(cfg, local, o, r1)
  }

  /**
   * The part of `main` inside its `try`: the artifacts are delivered, the
   * configuration is reloaded if everything was deployed and `--no-reload`
   * is not set, and the `finally` closes the session whatever happened.
   */
  function ConnectedRun(cfg: Config, local: map<string, string>, o: Oracle, r: Remote): Outcome
  {
    var d := Deliver(cfg.noBackup, o, local, Plan(cfg), r.files);
    var reload := if d.status == Completed && !cfg.noReload then Execs(ReloadSpec(cfg.token, o).attempts) else [];
    Outcome(d.status, Remote(d.files, r.log + d.effects + reload + [Disconnect]), d.deployed)
  }

  /**
   * The block `main` repeats for each artifact: a staged artifact is read
   * and renamed in memory; the remote path is backed up unless
   * `--no-backup`; the artifact is uploaded, and a failed upload ends the
   * deployment with status 1.
   */
  method DeployOne(deployer: Deployer, noBackup: bool, local: map<string, string>, o: Oracle, r: Remote,
                   a: Artifact)
    returns (status: Status, deployed: seq<Label>, r': Remote)
    requires deployer.sshClient == Open && deployer.sftpClient == Open
    ensures var d := DeliverOne(noBackup, o, local, a, r.files);
      status == d.status && deployed == d.deployed && r' == Remote(d.files, r.log + d.effects)
  {
    deployed := [];
    r' := r;
    var content := "";
    if a.source.Staged? {
      if a.source.path !in local {
        return Uncaught, deployed, r';
      }
      content := if a.source.isTheme then StageTheme(local[a.source.path]) else StageDashboard(local[a.source.path]);
    }
    var backedUp, ok;
    if !noBackup {
      backedUp, r' := deployer.BackupFile(o, r', a.remote);
    }
    if a.source.Staged? {
      ok, r' := deployer.DeployContent(o, r', content, a.remote);
    } else {
      ok, r' := deployer.DeployFile(o, local, r', a.source.path, a.remote);
    }
    if !ok {
      return Aborted(1), deployed, r';
    }
    deployed := deployed + [a.name];
    status := Completed;
  }

  /** The artifacts of `--stage`: both local files, renamed, to the `-staging` variants of the remote paths. */
  function StagingPlan(cfg: Config, remote: string, themeRemote: string): seq<Artifact>
  {
    [Artifact(StagingDashboardLabel, StagingPath(remote), Staged(cfg.local, false)),
     Artifact(StagingThemeLabel, StagingPath(themeRemote), Staged(cfg.themeLocal, true))]
  }

  /** The artifacts of a production run: the dashboard, then the theme with `--theme` or `--promote`. */
  function ProductionPlan(cfg: Config, remote: string, themeRemote: string): seq<Artifact>
  {
    [Artifact(DashboardLabel, remote, LocalFile(cfg.local))]
    + (if cfg.theme || cfg.mode == Promote then [Artifact(ThemeLabel, themeRemote, LocalFile(cfg.themeLocal))] else [])
  }

  /**
   * The `--stage` branch of `main`, once the staging paths are derived: the
   * dashboard and then, if it succeeded, the theme are uploaded, renamed.
   */
  method DeployStaging(deployer: Deployer, noBackup: bool, local: map<string, string>, o: Oracle, r: Remote,
                       dashboard: Artifact, theme: Artifact)
    returns (status: Status, deployed: seq<Label>, r': Remote)
    requires deployer.sshClient == Open && deployer.sftpClient == Open
    ensures var d := Deliver(noBackup, o, local, [dashboard, theme], r.files);
      status == d.status && deployed == d.deployed && r' == Remote(d.files, r.log + d.effects)
  {
    DeliverPair(noBackup, o, local, dashboard, theme, r.files);
    ghost var first := DeliverOne(noBackup, o, local, dashboard, r.files);
    status, deployed, r' := DeployOne(deployer, noBackup, local, o, r, dashboard);
    if status != Completed {
      return;
    }
    ghost var second := DeliverOne(noBackup, o, local, theme, first.files);
    var more;
    status, more, r' := DeployOne(deployer, noBackup, local, o, r', theme);
    deployed := deployed + more;
    assert r.log + first.effects + second.effects == r.log + (first.effects + second.effects);
  }

  /**
   * The production branch of `main` (default or `--promote`): the dashboard
   * file is uploaded, then, if that succeeded and `--theme` or `--promote`
   * is set, the theme file.
   */
  method DeployProduction(deployer: Deployer, noBackup: bool, local: map<string, string>, o: Oracle, r: Remote,
                          dashboard: Artifact, theme: Artifact, withTheme: bool)
    returns (status: Status, deployed: seq<Label>, r': Remote)
    requires deployer.sshClient == Open && deployer.sftpClient == Open
    ensures var d := Deliver(noBackup, o, local, [dashboard] + (if withTheme then [theme] else []), r.files);
      status == d.status && deployed == d.deployed && r' == Remote(d.files, r.log + d.effects)
  {
    if withTheme {
      assert [dashboard] + [theme] == [dashboard, theme];
      DeliverPair(noBackup, o, local, dashboard, theme, r.files);
    } else {
      assert [dashboard] + [] == [dashboard];
      DeliverSingle(noBackup, o, local, dashboard, r.files);
    }
    ghost var first := DeliverOne(noBackup, o, local, dashboard, r.files);
    status, deployed, r' := DeployOne(deployer, noBackup, local, o, r, dashboard);
    if status != Completed || !withTheme {
      return;
    }
    ghost var second := DeliverOne(noBackup, o, local, theme, first.files);
    var more;
    status, more, r' := DeployOne(deployer, noBackup, local, o, r', theme);
    deployed := deployed + more;
    assert r.log + first.effects + second.effects == r.log + (first.effects + second.effects);
  }

  /** `main`, statement by statement, over the deployer object. */
  method RunDeployment(cfg: Config, local: map<string, string>, o: Oracle, files: map<string, string>)
    returns (out: Outcome)
    ensures out == RunSpec(cfg, local, o, files)
  {
    var r := Remote(files, []);
    if !Given(cfg.key) && !Given(cfg.password) {
      return Outcome(Aborted(1), r, []);
    }
    if cfg.local !in local {
      return Outcome(Aborted(1), r, []);
    }
    if (cfg.theme || cfg.mode == Promote) && cfg.themeLocal !in local {
      return Outcome(Aborted(1), r, []);
    }
    var deployer := new Deployer(cfg.host, cfg.user, cfg.key, cfg.password, cfg.port, cfg.token);
    var ok;
    ok, r := deployer.Connect(o, r);
    if !ok {
      return Outcome(Aborted(1), r, []);
    }
    out := DeployConnected(deployer, cfg, local, o, r);
  }

  /** The `try`/`finally` block of `main`, over a connected deployer. */
  method DeployConnected(deployer: Deployer, cfg: Config, local: map<string, string>, o: Oracle, r: Remote)
    returns (out: Outcome)
    requires deployer.sshClient == Open && deployer.sftpClient == Open && deployer.token == cfg.token
    modifies deployer
    ensures out == ConnectedRun(cfg, local, o, r)
    ensures deployer.sshClient == Closed && deployer.sftpClient == Closed
  {
    var remote := DashboardRemote(cfg.remote);
    var themeRemote := ThemeRemote(cfg.themeRemote, remote, cfg.themeLocal);
    ghost var d := Deliver(cfg.noBackup, o, local, Plan(cfg), r.files);
    var status, deployed, r';
    if cfg.mode == Stage {
      var stagingDashboard := StagingPath(remote);
      var stagingTheme := StagingPath(themeRemote);
      status, deployed, r' := DeployStaging(deployer, cfg.noBackup, local, o, r,
        Artifact(StagingDashboardLabel, stagingDashboard, Staged(cfg.local, false)),
        Artifact(StagingThemeLabel, stagingTheme, Staged(cfg.themeLocal, true)));
    } else {
      status, deployed, r' := DeployProduction(deployer, cfg.noBackup, local, o, r,
        Artifact(DashboardLabel, remote, LocalFile(cfg.local)),
        Artifact(ThemeLabel, themeRemote, LocalFile(cfg.themeLocal)),
        cfg.theme || cfg.mode == Promote);
    }
    assert status == d.status && deployed == d.deployed && r' == Remote(d.files, r.log + d.effects);
    r' := Finish(deployer, cfg, o, status, r');
    return Outcome(status, r', deployed);
  }

  /** The summary's reload (when everything was deployed and `--no-reload` is not set) and the `finally`'s disconnect. */
  method Finish(deployer: Deployer, cfg: Config, o: Oracle, status: Status, r: Remote) returns (r': Remote)
    requires deployer.sshClient == Open && deployer.token == cfg.token
    modifies deployer
    ensures var reload := if status == Completed && !cfg.noReload then Execs(ReloadSpec(cfg.token, o).attempts) else [];
      r' == Remote(r.files, r.log + reload + [Disconnect])
    ensures deployer.sshClient == Closed
    ensures deployer.sftpClient == if old(deployer.sftpClient) == Unset then Unset else Closed
  {
    r' := r;
    if status == Completed && !cfg.noReload {
      var reloaded;
      reloaded, r' := deployer.ReloadYamlConfig(o, r');
    }
    r' := deployer.Disconnect(r');
  }
}

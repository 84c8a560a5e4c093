/**
 * `deploy_dashboard.py` at the repository root, the first version of the
 * deployment script: one dashboard file is backed up and uploaded over
 * SSH, then the YAML configuration is reloaded through the command-line
 * reload commands only (there is no REST API token and no theme).
 */
module LegacyDeploy {
  import opened Options
  import opened Session

  const DefaultDashboardsDir: string := "/config/lovelace"
  const DefaultDashboardFile: string := "ui-lovelace.yaml"

  /** `--remote`, or the default dashboard path when it is absent or empty. */
  function DashboardRemote(remote: Option<string>): string
  {
    if Given(remote) then remote.value else DefaultDashboardsDir + "/" + DefaultDashboardFile
  }

  /** Without `--remote` the dashboard goes to `/config/lovelace/ui-lovelace.yaml`; with it, exactly there. */
  lemma {:induction false} DashboardRemoteDefault(remote: Option<string>)
    ensures !Given(remote) ==> DashboardRemote(remote) == "/config/lovelace/ui-lovelace.yaml"
    ensures Given(remote) ==> DashboardRemote(remote) == remote.value
  {
    DefaultDashboardPath();
  }

  lemma {:induction false} DefaultDashboardPath()
    ensures DefaultDashboardsDir + "/" + DefaultDashboardFile == "/config/lovelace/ui-lovelace.yaml"
  {
  }

  /** The first deployer: the SSH settings and the two client handles. */
  class Deployer {
    const host: string
    const username: string
    const keyFile: Option<string>
    const password: Option<string>
    const port: int
    var sshClient: Handle
    var sftpClient: Handle

    constructor(host: string, username: string, keyFile: Option<string>, password: Option<string>, port: int)
      ensures this.host == host && this.username == username && this.keyFile == keyFile
      ensures this.password == password && this.port == port
      ensures sshClient == Unset && sftpClient == Unset
    {
      this.host := host;
      this.username := username;
      this.keyFile := keyFile;
      this.password := password;
      this.port := port;
      sshClient := Unset;
      sftpClient := Unset;
    }

    /**
     * Creates the SSH client, logs in with the RSA key read from the key
     * file if one is given and otherwise with the password, and opens SFTP.
     */
    method Connect(o: Oracle, r: Remote) returns (ok: bool, r': Remote)
      modifies this
      ensures ok == o.connects
      ensures sshClient == Open
      ensures sftpClient == if ok then Open else old(sftpClient)
      ensures r' == r.Send(Effect.Connect(host, username, port, LoginOf(keyFile, password)))
    {
      sshClient := Open;
      r' := r.Send(Effect.Connect(host, username, port, LoginOf(keyFile, password)));
      if o.connects {
        sftpClient := Open;
        ok := true;
      } else {
        ok := false;
      }
    }

    /** Closes whichever clients exist. */
    method Disconnect(r: Remote) returns (r': Remote)
      modifies this
      ensures sftpClient == if old(sftpClient) == Unset then Unset else Closed
      ensures sshClient == if old(sshClient) == Unset then Unset else Closed
      ensures r' == if old(sshClient) == Unset && old(sftpClient) == Unset then r else r.Send(Effect.Disconnect)
    {
      r' := r;
      if sftpClient != Unset || sshClient != Unset {
        r' := r.Send(Effect.Disconnect);
      }
      if sftpClient != Unset {
        sftpClient := Closed;
      }
      if sshClient != Unset {
        sshClient := Closed;
      }
    }

    /** Uploads the dashboard file; a missing local file or a missing SFTP client is reported as a failure. */
    method DeployDashboard(o: Oracle, local: map<string, string>, r: Remote, localFile: string, remotePath: string)
      returns (ok: bool, r': Remote)
      ensures localFile !in local || sftpClient != Open ==> !ok && r' == r
      ensures localFile in local && sftpClient == Open ==>
        ok == o.put(remotePath) && r' == r.Apply(Transfer(o, r.files, remotePath, local[localFile]))
    {
      if localFile !in local || sftpClient != Open {
        return false, r;
      }
      var s := Transfer(o, r.files, remotePath, local[localFile]);
      ok := s.ok;
      r' := r.Apply(s);
    }

    /**
     * Tries the command-line reload commands in order, setting a success
     * flag and leaving the loop at the first one that exits with status 0;
     * an attempt that raises (including one without an open SSH client) is
     * skipped.
     */
    method ReloadYamlConfig(o: Oracle, r: Remote) returns (ok: bool, r': Remote)
      ensures sshClient == Open ==>
        ok == CliChain(o, CliReloadCommands).ok
        && r' == Remote(r.files, r.log + Execs(CliChain(o, CliReloadCommands).attempts))
      ensures sshClient != Open ==> !ok && r' == r
    {
      var commands := CliReloadCommands;
      r' := r;
      var success := false;
      var i := 0;
      while i < |commands|
        invariant 0 <= i <= |commands|
        invariant sshClient != Open ==> r' == r
        invariant sshClient == Open ==>
          && r'.files == r.files
          && r'.log == r.log + Execs(Clis(commands[..i]))
          && CliChain(o, commands).attempts == Clis(commands[..i]) + CliChain(o, commands[i..]).attempts
          && CliChain(o, commands).ok == CliChain(o, commands[i..]).ok
      {
        if sshClient == Open {
          CliLogStep(r.log, commands, i);
          CliChainStep(o, commands, i);
          r' := r'.Send(Exec(Cli(commands[i])));
          if Succeeded(o.exec(Cli(commands[i]))) {
            success := true;
            break;
          }
        }
        i := i + 1;
      }
      if !success && sshClient == Open {
        CliChainExhausted(o, commands);
      }
      ok := success;
    }

    /**
     * Runs the backup command for `remotePath`. Without an open SSH client
     * the call raises, which is caught and reported as a failure.
     */
    method BackupExistingDashboard(o: Oracle, r: Remote, remotePath: string) returns (ok: bool, r': Remote)
      ensures sshClient == Open ==> ok == Backup(o, r.files, remotePath).ok && r' == r.Apply(Backup(o, r.files, remotePath))
      ensures sshClient != Open ==> !ok && r' == r
    {
      if sshClient != Open {
        return false, r;
      }
      var s := Backup(o, r.files, remotePath);
      ok := s.ok;
      r' := r.Apply(s);
    }
  }

  // ---------------------------------------------------------------------
  // main

  /** The parsed arguments; the local dashboard is identified by its path. */
  datatype Config = Config(
    host: string, user: string, key: Option<string>, password: Option<string>, port: int,
    local: string, remote: Option<string>, noReload: bool, noBackup: bool)

  /** What a run produces: the process exit status and the server afterwards. */
  datatype Outcome = Outcome(exitCode: int, remote: Remote)

  /**
   * The whole run: missing credentials or a missing local file exit with 1
   * before connecting, and a failed connection exits with 1. Otherwise the
   * remote dashboard is backed up (unless `--no-backup`) and replaced; a
   * failed upload exits with 1, a successful one is followed by the reload
   * (unless `--no-reload`), whose result does not change the exit status;
   * the session is closed on both paths.
   */
  function RunSpec(cfg: Config, local: map<string, string>, o: Oracle, files: map<string, string>): Outcome
  {
    var r0 := Remote(files, []);
    if !Given(cfg.key) && !Given(cfg.password) then Outcome(1, r0)
    else if cfg.local !in local then Outcome(1, r0)
    else
      var r1 := r0.Send(Connect(cfg.host, cfg.user, cfg.port, LoginOf(cfg.key, cfg.password)));
      if !o.connects then Outcome(1, r1) else ConnectedRun(cfg, local, o, r1)
  }

  /** The `try`/`finally` block of `main`, once connected. */
  function ConnectedRun(cfg: Config, local: map<string, string>, o: Oracle, r: Remote): Outcome
    requires cfg.local in local
  {
    var remote := DashboardRemote(cfg.remote);
    var b := if cfg.noBackup then Step(true, r.files, []) else Backup(o, r.files, remote);
    var u := Transfer(o, b.files, remote, local[cfg.local]);
    var reload := if u.ok && !cfg.noReload then Execs(CliChain(o, CliReloadCommands).attempts) else [];
    Outcome(if u.ok then 0 else 1, Remote(u.files, r.log + b.effects + u.effects + reload + [Disconnect]))
  }

  /** `main`, statement by statement, over the deployer object. */
  method RunDeployment(cfg: Config, local: map<string, string>, o: Oracle, files: map<string, string>)
    returns (out: Outcome)
    ensures out == RunSpec(cfg, local, o, files)
  {
    var r := Remote(files, []);
    if !Given(cfg.key) && !Given(cfg.password) {
      return Outcome(1, r);
    }
    var remote := DashboardRemote(cfg.remote);
    if cfg.local !in local {
      return Outcome(1, r);
    }
    var deployer := new Deployer(cfg.host, cfg.user, cfg.key, cfg.password, cfg.port);
    var ok;
    ok, r := deployer.Connect(o, r);
    if !ok {
      return Outcome(1, r);
    }
    out := DeployConnected(deployer, cfg, local, o, r, remote);
  }

  /** The `try`/`finally` block of `main`, over a connected deployer. */
  method DeployConnected(deployer: Deployer, cfg: Config, local: map<string, string>, o: Oracle, r: Remote,
                         remote: string)
    returns (out: Outcome)
    requires deployer.sshClient == Open && deployer.sftpClient == Open
    requires cfg.local in local && remote == DashboardRemote(cfg.remote)
    modifies deployer
    ensures out == ConnectedRun(cfg, local, o, r)
    ensures deployer.sshClient == Closed && deployer.sftpClient == Closed
  {
    var r' := r;
    if !cfg.noBackup {
      var backedUp;
      backedUp, r' := deployer.BackupExistingDashboard(o, r', remote);
    }
    var deployed;
    deployed, r' := deployer.DeployDashboard(o, local, r', cfg.local, remote);
    var exitCode := 1;
    if deployed {
      exitCode := 0;
      if !cfg.noReload {
        var reloaded;
        reloaded, r' := deployer.ReloadYamlConfig(o, r');
      }
    }
    r' := deployer.Disconnect(r');
    return Outcome(exitCode, r');
  }

  // ---------------------------------------------------------------------
  // What a run does

  /** Runs that pass the argument checks and reach the server. */
  predicate Connected(cfg: Config, local: map<string, string>, o: Oracle)
  {
    (Given(cfg.key) || Given(cfg.password)) && cfg.local in local && o.connects
  }

  /** Missing credentials or a missing local dashboard exit with 1 before anything is sent. */
  lemma {:induction false} RejectedBeforeConnecting(cfg: Config, local: map<string, string>, o: Oracle,
                                                    files: map<string, string>)
    requires (!Given(cfg.key) && !Given(cfg.password)) || cfg.local !in local
    ensures RunSpec(cfg, local, o, files) == Outcome(1, Remote(files, []))
  {
  }

  /** A failed connection exits with 1 having sent only the connection attempt. */
  lemma {:induction false} ConnectFailure(cfg: Config, local: map<string, string>, o: Oracle, files: map<string, string>)
    requires (Given(cfg.key) || Given(cfg.password)) && cfg.local in local && !o.connects
    ensures RunSpec(cfg, local, o, files)
      == Outcome(1, Remote(files, [Connect(cfg.host, cfg.user, cfg.port, LoginOf(cfg.key, cfg.password))]))
  {
  }

  /**
   * The exit status is 0 or 1, and it is 0 exactly when the arguments are
   * valid, the connection comes up and the upload succeeds; the backup and
   * the reload do not affect it.
   */
  lemma {:induction false} ExitStatus(cfg: Config, local: map<string, string>, o: Oracle, files: map<string, string>)
    ensures var code := RunSpec(cfg, local, o, files).exitCode;
      && (code == 0 || code == 1)
      && (code == 0 <==> Connected(cfg, local, o) && o.put(DashboardRemote(cfg.remote)))
  {
  }

  /**
   * A connected run opens with the connection, ends with the disconnect,
   * and sends only remote commands and uploads in between.
   */
  lemma {:induction false} SessionAlwaysClosed(cfg: Config, local: map<string, string>, o: Oracle,
                                               files: map<string, string>)
    requires Connected(cfg, local, o)
    ensures var log := RunSpec(cfg, local, o, files).remote.log;
      && |log| >= 2
      && log[0] == Connect(cfg.host, cfg.user, cfg.port, LoginOf(cfg.key, cfg.password))
      && log[|log| - 1] == Disconnect
      && forall i :: 0 < i < |log| - 1 ==> InSession(log[i])
  {
    var r1 := Remote(files, []).Send(Connect(cfg.host, cfg.user, cfg.port, LoginOf(cfg.key, cfg.password)));
    var remote := DashboardRemote(cfg.remote);
    var b := if cfg.noBackup then Step(true, files, []) else Backup(o, files, remote);
    var u := Transfer(o, b.files, remote, local[cfg.local]);
    var reload := if u.ok && !cfg.noReload then Execs(CliChain(o, CliReloadCommands).attempts) else [];
    ExecsInSession(CliChain(o, CliReloadCommands).attempts);
    assert r1.log == [r1.log[0]];
    assert RunSpec(cfg, local, o, files) == ConnectedRun(cfg, local, o, r1);
    SessionLog(RunSpec(cfg, local, o, files).remote.log, r1.log[0], b.effects, u.effects, reload);
  }

  /**
   * After a successful run the remote dashboard holds the local file; if a
   * backup was taken of an existing dashboard, `<remote>.backup` holds
   * its previous content, and otherwise `<remote>.backup` is untouched too;
   * no other file changes.
   */
  lemma {:induction false} SuccessfulDeploy(cfg: Config, local: map<string, string>, o: Oracle,
                                            files: map<string, string>)
    requires RunSpec(cfg, local, o, files).exitCode == 0
    ensures var remote := DashboardRemote(cfg.remote);
      var after := RunSpec(cfg, local, o, files).remote.files;
      && cfg.local in local
      && remote in after && after[remote] == local[cfg.local]
      && (!cfg.noBackup && o.exec(BackupCmd(remote)) != Raised && remote in files ==>
            BackupPath(remote) in after && after[BackupPath(remote)] == files[remote])
      && after - {remote, BackupPath(remote)} == files - {remote, BackupPath(remote)}
      && (cfg.noBackup || o.exec(BackupCmd(remote)) == Raised || remote !in files ==>
            after - {remote} == files - {remote})
  {
    ExitStatus(cfg, local, o, files);
    var remote := DashboardRemote(cfg.remote);
    if !cfg.noBackup {
      BackupThenTransfer(o, files, remote, local[cfg.local]);
    }
  }

  /**
   * A failed upload exits with 1, leaves the remote dashboard as it was
   * (only its backup may have been written) and reloads nothing.
   */
  lemma {:induction false} FailedUpload(cfg: Config, local: map<string, string>, o: Oracle, files: map<string, string>)
    requires Connected(cfg, local, o) && !o.put(DashboardRemote(cfg.remote))
    ensures var remote := DashboardRemote(cfg.remote);
      var out := RunSpec(cfg, local, o, files);
      && out.exitCode == 1
      && out.remote.files - {BackupPath(remote)} == files - {BackupPath(remote)}
      && forall i :: 0 <= i < |out.remote.log| ==> !(out.remote.log[i].Exec? && out.remote.log[i].cmd.Cli?)
  {
    var remote := DashboardRemote(cfg.remote);
    var b := if cfg.noBackup then Step(true, files, []) else Backup(o, files, remote);
    var out := RunSpec(cfg, local, o, files);
    assert out.remote.log == [Connect(cfg.host, cfg.user, cfg.port, LoginOf(cfg.key, cfg.password))]
      + b.effects + [Put(remote, local[cfg.local])] + [Disconnect];
  }

  /**
   * A command-line reload is attempted exactly when the upload succeeded
   * and `--no-reload` is not set, and then the commands are tried in their
   * listed order up to the first that succeeds.
   */
  lemma {:induction false} ReloadOnlyAfterUpload(cfg: Config, local: map<string, string>, o: Oracle,
                                                 files: map<string, string>)
    requires Connected(cfg, local, o)
    ensures var log := RunSpec(cfg, local, o, files).remote.log;
      (exists i :: 0 <= i < |log| && log[i].Exec? && log[i].cmd.Cli?)
        <==> o.put(DashboardRemote(cfg.remote)) && !cfg.noReload
  {
    var remote := DashboardRemote(cfg.remote);
    var b := if cfg.noBackup then Step(true, files, []) else Backup(o, files, remote);
    var u := Transfer(o, b.files, remote, local[cfg.local]);
    var first := [Connect(cfg.host, cfg.user, cfg.port, LoginOf(cfg.key, cfg.password))] + b.effects + u.effects;
    var r1 := Remote(files, []).Send(first[0]);
    assert r1.log == [first[0]];
    assert RunSpec(cfg, local, o, files) == ConnectedRun(cfg, local, o, r1);
    var log := RunSpec(cfg, local, o, files).remote.log;
    assert forall i :: 0 <= i < |first| ==> !(first[i].Exec? && first[i].cmd.Cli?) by {
      forall i | 0 <= i < |first| ensures !(first[i].Exec? && first[i].cmd.Cli?) {
        if i > |b.effects| {
          assert first[i] == u.effects[i - 1 - |b.effects|];
        } else if i > 0 {
          assert first[i] == b.effects[i - 1];
        }
      }
    }
    if o.put(remote) && !cfg.noReload {
      var attempts := CliChain(o, CliReloadCommands).attempts;
      CliChainStopsAtFirstSuccess(o, CliReloadCommands);
      assert |attempts| > 0;
      assert log == first + Execs(attempts) + [Disconnect];
      assert log[|first|] == Exec(attempts[0]);
    } else {
      assert log == first + [Disconnect];
    }
  }
}

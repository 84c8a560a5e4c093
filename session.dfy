/**
 * What the deployment scripts do over their SSH session, with the network
 * taken out: the server's answers are an `Oracle` given as input, the
 * server's files are a map from remote path to content, and every request
 * the script sends is recorded, in order, as an `Effect`.
 */
module Session {
  import opened Options

  /** Python truthiness of an optional string argument: `None` and `""` are both false. */
  predicate Given(arg: Option<string>)
  {
    arg.Some? && arg.value != ""
  }

  /** A paramiko client field: never created (`None`), created, or closed. */
  datatype Handle = Unset | Open | Closed

  /** How a remote command ends: with an exit status, or with an exception from the SSH layer. */
  datatype ExecOutcome = Exited(status: int) | Raised

  predicate Succeeded(e: ExecOutcome)
  {
    e == Exited(0)
  }

  /** The remote commands the scripts run; their shell text is opaque here. */
  datatype Command =
    | BackupCmd(path: string)        // `test -f p && cp p p.backup || echo ...`
    | ApiReload(token: string)       // `curl ... /api/services/homeassistant/reload_core_config`
    | BrowserRefresh(token: string)  // `curl ... /api/services/browser_mod/refresh`
    | Cli(reload: CliReload)         // one of the command-line reload commands

  /** How the client authenticates: with a key file, or with the (possibly absent) password. */
  datatype Login = KeyFile(path: string) | Password(password: Option<string>)

  /** One request sent to the server. */
  datatype Effect =
    | Connect(host: string, user: string, port: int, login: Login)
    | Exec(cmd: Command)
    | Put(path: string, content: string)
    | Disconnect

  /** The login `connect` uses: the key file when one is given, otherwise the password. */
  function LoginOf(keyFile: Option<string>, password: Option<string>): Login
  {
    if Given(keyFile) then KeyFile(keyFile.value) else Password(password)
  }

  /** A request made within an open session: a remote command or an upload. */
  predicate InSession(e: Effect)
  {
    e.Exec? || e.Put?
  }

  predicate AllInSession(es: seq<Effect>)
  {
    forall i :: 0 <= i < |es| ==> InSession(es[i])
  }

  lemma {:induction false} AllInSessionAppend(a: seq<Effect>, b: seq<Effect>)
    requires AllInSession(a) && AllInSession(b)
    ensures AllInSession(a + b)
  {
    forall i | 0 <= i < |a + b| ensures InSession((a + b)[i]) {
      if i >= |a| {
        assert (a + b)[i] == b[i - |a|];
      }
    }
  }

  /**
   * A log made of a connection, three runs of requests within the session
   * and a disconnect opens and closes the session once each.
   */
  lemma {:induction false} SessionLog(log: seq<Effect>, c: Effect, m1: seq<Effect>, m2: seq<Effect>, m3: seq<Effect>)
    requires log == [c] + m1 + m2 + m3 + [Disconnect]
    requires AllInSession(m1) && AllInSession(m2) && AllInSession(m3)
    ensures |log| >= 2 && log[0] == c && log[|log| - 1] == Disconnect
    ensures forall i :: 0 < i < |log| - 1 ==> InSession(log[i])
  {
    AllInSessionAppend(m1, m2);
    AllInSessionAppend(m1 + m2, m3);
    forall i | 0 < i < |log| - 1 ensures InSession(log[i]) {
      assert log[i] == (m1 + m2 + m3)[i - 1];
    }
  }

  /**
   * The server's behaviour: whether the connection (SSH and SFTP) comes up,
   * how each command ends, and whether an upload to a path succeeds.
   */
  datatype Oracle = Oracle(connects: bool, exec: Command -> ExecOutcome, put: string -> bool)

  /** The outcome of one operation: its result, the server's files afterwards and the requests it sent. */
  datatype Step = Step(ok: bool, files: map<string, string>, effects: seq<Effect>)

  /** The server as the script sees it: its files and every request sent so far. */
  datatype Remote = Remote(files: map<string, string>, log: seq<Effect>)
  {
    function Apply(s: Step): Remote
    {
      Remote(s.files, log + s.effects)
    }

    function Send(e: Effect): Remote
    {
      Remote(files, log + [e])
    }
  }

  function BackupPath(p: string): (b: string)
    ensures |b| == |p| + 7 && b[..|p|] == p
  {
    p + ".backup"
  }

  /**
   * The backup command: if `p` exists it is copied to `p.backup`. The
   * operation reports success whenever the command could be sent, whether
   * or not there was anything to copy.
   */
  function Backup(o: Oracle, files: map<string, string>, p: string): (s: Step)
    ensures s.effects == [Exec(BackupCmd(p))]
    ensures s.ok <==> o.exec(BackupCmd(p)) != Raised
    ensures s.files - {BackupPath(p)} == files - {BackupPath(p)}
    ensures s.ok && p in files ==> BackupPath(p) in s.files && s.files[BackupPath(p)] == files[p]
    ensures !(s.ok && p in files) ==> s.files == files
  {
    var ok := o.exec(BackupCmd(p)) != Raised;
    Step(ok, if ok && p in files then files[BackupPath(p) := files[p]] else files, [Exec(BackupCmd(p))])
  }

  /** An SFTP upload of `content` to `p`, which replaces `p` when the server accepts it. */
  function Transfer(o: Oracle, files: map<string, string>, p: string, content: string): (s: Step)
    ensures s.effects == [Put(p, content)]
    ensures s.ok == o.put(p)
    ensures s.files - {p} == files - {p}
    ensures s.ok ==> p in s.files && s.files[p] == content
    ensures !s.ok ==> s.files == files
  {
    Step(o.put(p), if o.put(p) then files[p := content] else files, [Put(p, content)])
  }

  /** The backup file of `p` is never `p` itself. */
  lemma {:induction false} BackupPathDiffers(p: string)
    ensures BackupPath(p) != p
  {
    assert |BackupPath(p)| != |p|;
  }

  /** A backup never touches the file it backs up. */
  lemma {:induction false} BackupKeepsSource(o: Oracle, files: map<string, string>, p: string)
    ensures p in Backup(o, files, p).files <==> p in files
    ensures p in files ==> Backup(o, files, p).files[p] == files[p]
  {
    BackupPathDiffers(p);
    var s := Backup(o, files, p);
    assert p in s.files - {BackupPath(p)} <==> p in files - {BackupPath(p)};
    if p in files {
      assert (s.files - {BackupPath(p)})[p] == (files - {BackupPath(p)})[p];
    }
  }

  /**
   * Backup followed by a successful upload of the same path: the path holds
   * the new content and its backup holds the content it had before.
   */
  lemma {:induction false} BackupThenTransfer(o: Oracle, files: map<string, string>, p: string, content: string)
    requires o.put(p)
    ensures var after := Transfer(o, Backup(o, files, p).files, p, content).files;
      && after[p] == content
      && (o.exec(BackupCmd(p)) != Raised && p in files ==> BackupPath(p) in after && after[BackupPath(p)] == files[p])
  {
    BackupPathDiffers(p);
    var b := Backup(o, files, p).files;
    var after := Transfer(o, b, p, content).files;
    if o.exec(BackupCmd(p)) != Raised && p in files {
      assert BackupPath(p) in b - {p};
      assert BackupPath(p) in after - {p};
      assert (after - {p})[BackupPath(p)] == (b - {p})[BackupPath(p)];
    }
  }

  // ---------------------------------------------------------------------
  // Reloading through the command line

  /** The command-line reload commands: the Supervisor CLI, a Python virtual-env install, and Docker. */
  datatype CliReload = HassioCli | VenvCli | DockerCli

  /** The shell text of each command-line reload command. */
  function CliLine(c: CliReload): string
  {
    match c
    case HassioCli => "hassio homeassistant reload core_config"
    case VenvCli => "sudo -u homeassistant -H /srv/homeassistant/bin/homeassistant --script reload_core_config"
    case DockerCli => "docker exec homeassistant homeassistant --script reload_core_config"
  }

  /** The command-line reload commands, in the order they are tried. */
  const CliReloadCommands: seq<CliReload> := [HassioCli, VenvCli, DockerCli]

  /** A reload: the commands attempted, in order, and whether the configuration was reloaded. */
  datatype Reload = Reload(attempts: seq<Command>, ok: bool)

  /** Tries the commands in order and stops at the first one that exits with status 0. */
  function CliChain(o: Oracle, cmds: seq<CliReload>): (r: Reload)
    ensures |r.attempts| <= |cmds|
    decreases |cmds|
  {
    if cmds == [] then Reload([], false)
    else if Succeeded(o.exec(Cli(cmds[0]))) then Reload([Cli(cmds[0])], true)
    else
      var rest := CliChain(o, cmds[1..]);
      Reload([Cli(cmds[0])] + rest.attempts, rest.ok)
  }

  /** The requests that running `cmds` sends. */
  function Execs(cmds: seq<Command>): (es: seq<Effect>)
    ensures |es| == |cmds|
    ensures forall i :: 0 <= i < |cmds| ==> es[i] == Exec(cmds[i])
  {
    seq(|cmds|, i requires 0 <= i < |cmds| => Exec(cmds[i]))
  }

  lemma {:induction false} ExecsInSession(cmds: seq<Command>)
    ensures AllInSession(Execs(cmds))
  {
  }

  /**
   * The chain attempts a prefix of the commands in their listed order; every
   * attempt but the last failed; a successful chain ends with a successful
   * attempt, and a failed one attempted every command.
   */
  lemma {:induction false} CliChainStopsAtFirstSuccess(o: Oracle, cmds: seq<CliReload>)
    ensures var r := CliChain(o, cmds);
      && (forall i :: 0 <= i < |r.attempts| ==> r.attempts[i] == Cli(cmds[i]))
      && (forall i :: 0 <= i < |r.attempts| - 1 ==> !Succeeded(o.exec(Cli(cmds[i]))))
      && (r.ok ==> r.attempts != [] && Succeeded(o.exec(r.attempts[|r.attempts| - 1])))
      && (!r.ok ==> |r.attempts| == |cmds|)
    decreases |cmds|
  {
    if cmds != [] && !Succeeded(o.exec(Cli(cmds[0]))) {
      CliChainStopsAtFirstSuccess(o, cmds[1..]);
    }
  }

  /** The chain reloads exactly when some command in the list exits with status 0. */
  lemma {:induction false} CliChainOkIff(o: Oracle, cmds: seq<CliReload>)
    ensures CliChain(o, cmds).ok <==> exists i :: 0 <= i < |cmds| && Succeeded(o.exec(Cli(cmds[i])))
    decreases |cmds|
  {
    if cmds != [] && !Succeeded(o.exec(Cli(cmds[0]))) {
      CliChainOkIff(o, cmds[1..]);
      if CliChain(o, cmds[1..]).ok {
        var i :| 0 <= i < |cmds[1..]| && Succeeded(o.exec(Cli(cmds[1..][i])));
        assert Succeeded(o.exec(Cli(cmds[i + 1])));
      }
      if exists i :: 0 <= i < |cmds| && Succeeded(o.exec(Cli(cmds[i]))) {
        var i :| 0 <= i < |cmds| && Succeeded(o.exec(Cli(cmds[i])));
        assert cmds[1..][i - 1] == cmds[i];
      }
    } else if cmds != [] {
      assert Succeeded(o.exec(Cli(cmds[0])));
    }
  }

  /** `[Cli(c) | c in cmds]`. */
  function Clis(cmds: seq<CliReload>): (cs: seq<Command>)
    ensures |cs| == |cmds|
    ensures forall i :: 0 <= i < |cmds| ==> cs[i] == Cli(cmds[i])
  {
    seq(|cmds|, i requires 0 <= i < |cmds| => Cli(cmds[i]))
  }

  lemma {:induction false} ExecsAppend(a: seq<Command>, b: seq<Command>)
    ensures Execs(a + b) == Execs(a) + Execs(b)
  {
  }

  /** Sending one more command extends the log by its request. */
  lemma {:induction false} CliLogStep(log: seq<Effect>, cmds: seq<CliReload>, i: nat)
    requires i < |cmds|
    ensures log + Execs(Clis(cmds[..i])) + [Exec(Cli(cmds[i]))] == log + Execs(Clis(cmds[..i + 1]))
  {
    assert Clis(cmds[..i + 1]) == Clis(cmds[..i]) + [Cli(cmds[i])];
    ExecsAppend(Clis(cmds[..i]), [Cli(cmds[i])]);
  }

  /**
   * With `cmds[..i]` all failed, the chain over `cmds` is those attempts
   * followed by the chain over `cmds[i..]`; after attempt `i` it either
   * ends there with success or goes on with `cmds[i + 1..]`.
   */
  lemma {:induction false} CliChainStep(o: Oracle, cmds: seq<CliReload>, i: nat)
    requires i < |cmds|
    requires CliChain(o, cmds).attempts == Clis(cmds[..i]) + CliChain(o, cmds[i..]).attempts
    requires CliChain(o, cmds).ok == CliChain(o, cmds[i..]).ok
    ensures Succeeded(o.exec(Cli(cmds[i]))) ==> CliChain(o, cmds) == Reload(Clis(cmds[..i + 1]), true)
    ensures !Succeeded(o.exec(Cli(cmds[i]))) ==>
      && CliChain(o, cmds).attempts == Clis(cmds[..i + 1]) + CliChain(o, cmds[i + 1..]).attempts
      && CliChain(o, cmds).ok == CliChain(o, cmds[i + 1..]).ok
  {
    var t := cmds[i..];
    assert t[0] == cmds[i] && t[1..] == cmds[i + 1..];
    var tried := Clis(cmds[..i]);
    assert Clis(cmds[..i + 1]) == tried + [Cli(cmds[i])];
    if Succeeded(o.exec(Cli(cmds[i]))) {
      assert CliChain(o, t) == Reload([Cli(cmds[i])], true);
    } else {
      var rest := CliChain(o, cmds[i + 1..]);
      assert CliChain(o, t) == Reload([Cli(cmds[i])] + rest.attempts, rest.ok);
      assert tried + ([Cli(cmds[i])] + rest.attempts) == tried + [Cli(cmds[i])] + rest.attempts;
    }
  }

  /** Once every command has failed, the chain attempted them all and failed. */
  lemma {:induction false} CliChainExhausted(o: Oracle, cmds: seq<CliReload>)
    requires CliChain(o, cmds).attempts == Clis(cmds[..|cmds|]) + CliChain(o, cmds[|cmds|..]).attempts
    requires CliChain(o, cmds).ok == CliChain(o, cmds[|cmds|..]).ok
    ensures CliChain(o, cmds) == Reload(Clis(cmds[..|cmds|]), false)
  {
    assert cmds[|cmds|..] == [];
    assert Clis(cmds[..|cmds|]) + [] == Clis(cmds[..|cmds|]);
  }
}

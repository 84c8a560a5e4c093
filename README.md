# Home Assistant dashboard deployment, modelled in Dafny

The repository ships two versions of one Python script. Each pushes a Home
Assistant dashboard, and in the later version optionally a theme, to a server
over SSH:

- `deploy/deploy_dashboard.py` is the current version. It has a production
  mode, a `--stage` mode that uploads renamed copies, a `--promote` mode,
  a REST-API reload with a browser refresh, and command-line reload fallbacks.
- `deploy_dashboard.py` is the original single-file version: backup, upload,
  then the command-line reload chain.

The model removes paramiko, printing and argparse. What remains is the
scripts' decision logic over strings and a sequence of requests:

- **The server** is a value `Remote(files, log)`:
  - `files` maps each remote path to its content;
  - `log` records every request in order (connect, remote command, upload, disconnect).

  Whatever the server answers is an `Oracle` given as input: whether the
  connection succeeds, how each remote command ends (an exit status or an
  exception), and whether each upload succeeds.
- **The local file system** is a map from path to content. A missing key is a missing file.
- **`os.path`** (`basename`, `dirname`, `splitext`) and **`str.replace`**
  (replace-all, and replace-first via count 1) are written out as Python computes them
  (`PosixPath`, `TextReplace`).
- **The deployer object** of each version is a Dafny `class`. Its `ssh_client`
  and `sftp_client` fields are `Handle`s that `Connect` opens and `Disconnect`
  closes. Every method is proved against a specification function:
  - `Backup` and `Transfer` for the backup and upload effects;
  - `CliChain` and `ReloadSpec` for the reload strategy.

  `ReloadViaCli` and the first version's `ReloadYamlConfig` keep the source's
  loop over the command list.
- **`main`** of each version is a method (`Deploy.RunDeployment`,
  `LegacyDeploy.RunDeployment`), statement by statement over the deployer
  object. It is proved equal to a function (`RunSpec`), and the lemmas in
  `DeployFacts` and `LegacyDeploy` state the scripts' guarantees about that function:
  - arguments are validated before connecting;
  - each upload is preceded by a backup of the same path;
  - the run stops at the first failed upload;
  - it reloads exactly when everything was deployed and `--no-reload` is absent;
  - it always disconnects after connecting;
  - it writes only the planned paths, and the exit status follows from all of this.

Modules:

- `Options`: the option type.
- `PosixPath`: `basename`, `dirname`, `splitext`.
- `TextReplace`: `str.find`, `str.count`, `str.replace`.
- `Session`: the server, the oracle, the requests, backups, uploads, the command-line reload chain.
- `DeployPaths`: the remote paths of the current version.
- `DeployRewrite`: the staging rewrites of the theme name.
- `Deploy`: the current version's deployer class and `main`.
- `LegacyDeploy`: the original version, with its guarantees.
- `DeployFacts`: the current version's guarantees, and its agreement with the original version.

Four points of the code shape the model:

- The backup name is always `<path>.backup` (deploy/deploy_dashboard.py:217).
- A failed upload exits with status 1 at once (deploy/deploy_dashboard.py:355-399).
- The staging theme is the production theme file, renamed in memory (deploy/deploy_dashboard.py:365-370).
- No argument check rejects paths starting with `~` (deploy/deploy_dashboard.py:295-315).

## Model

| member | source | states |
|---|---|---|
| PosixPath.RFind | deploy/deploy_dashboard.py:336-346 | The index of the last separator is -1 or a valid index (the search `basename`/`dirname`/`splitext` share) |
| PosixPath.RFindLast | deploy/deploy_dashboard.py:336-346 | The index found holds the character and no later index does; -1 means the character is absent |
| PosixPath.BasenameIsLastComponent | deploy/deploy_dashboard.py:338 | `basename` is the longest '/'-free suffix of the path, preceded by a '/' when shorter than the path |
| PosixPath.RStripSlashes | deploy/deploy_dashboard.py:336-337 | Stripping trailing slashes never lengthens the string |
| PosixPath.RStripSlashesSpec | deploy/deploy_dashboard.py:336-337 | The stripped string is a prefix that does not end in '/', and only slashes were removed |
| PosixPath.DirnameSpec | deploy/deploy_dashboard.py:336-337 | `dirname` is a prefix stopping before the base name with only slashes in between; it is empty exactly when the path has no '/'; it ends in '/' only if it is all slashes; when everything before the base name is slashes, all of them are kept |
| PosixPath.SplitextSpec | deploy/deploy_dashboard.py:339 | `splitext` parts concatenate to the path; a non-empty extension is a '.' followed by neither '.' nor '/', with a non-dot character of the last component before it; conversely, whenever the last '.' lies in the last component after a non-dot character, the split happens at that '.' |
| PosixPath.RFindOfJoin | deploy/deploy_dashboard.py:306 | In `d/f` with `f` free of '/', the last '/' is the joining one |
| PosixPath.BasenameOfJoin | deploy/deploy_dashboard.py:305-306 | `basename(d/f)` is `f` when `f` has no '/' |
| PosixPath.DirnameOfJoin | deploy/deploy_dashboard.py:304 | `dirname(d/f)` is `d` when `d` is non-empty and does not end in '/' |
| PosixPath.NoSlash | deploy/deploy_dashboard.py:336-338 | A path without '/' is its own base name and has an empty directory |
| PosixPath.SplitextOfName | deploy/deploy_dashboard.py:339 | `stem.ext` with a non-dot-leading stem splits into `stem` and `.ext` |
| TextReplace.Find | deploy/deploy_dashboard.py:366-370 | A found match lies within the text |
| TextReplace.FindLeftmost | deploy/deploy_dashboard.py:366-370 | `find` returns the leftmost occurrence, and nothing exactly when the pattern does not occur |
| TextReplace.CountPositive | deploy/deploy_dashboard.py:349-353 | The non-overlapping count is positive exactly when the pattern occurs |
| TextReplace.ReplaceAllNoMatch | deploy/deploy_dashboard.py:349-353 | Replace-all leaves text without a match unchanged |
| TextReplace.ReplaceAllAtFirst | deploy/deploy_dashboard.py:349-353 | Replace-all rewrites the leftmost match and continues after it, so matches never overlap |
| TextReplace.ReplaceAllAbsent | deploy/deploy_dashboard.py:349-353 | Text that does not contain the pattern is returned unchanged |
| TextReplace.CountAtFirst | deploy/deploy_dashboard.py:349-353 | The count is one more than the count after the leftmost match |
| TextReplace.ReplaceFirstAgreesWithAll | deploy/deploy_dashboard.py:366-370 | With at most one occurrence, replace-first and replace-all agree |
| TextReplace.ReplaceFirstAgreesAt | deploy/deploy_dashboard.py:366-370 | Replace-first equals replace-all when nothing after the first match would be replaced |
| TextReplace.ReplaceFirstAtLeftmost | deploy/deploy_dashboard.py:366-370 | Replace-first rewrites exactly the leftmost occurrence, leaving the text before and after it; absent pattern means unchanged text |
| TextReplace.ReplaceFirstLength | deploy/deploy_dashboard.py:366-370 | Replace-first changes the length by `len(rep) - len(pat)` if the pattern occurs, otherwise not at all |
| TextReplace.ReplaceAllLength | deploy/deploy_dashboard.py:349-353 | Replace-all changes the length by the count times `len(rep) - len(pat)` |
| TextReplace.ReplaceAllRoundTrip | deploy/deploy_dashboard.py:349-353 | Replacing `a` by `b` and then `b` by `a` restores text that contained no `b`, when the first character of `b` occurs nowhere else in `b` |
| TextReplace.ReplaceAllCountsRenamed | deploy/deploy_dashboard.py:349-353 | Under the same conditions, the result holds as many `b` as the input held `a` |
| TextReplace.ReplaceAllGrows | deploy/deploy_dashboard.py:349-353 | Replacing an occurring pattern by a longer string makes the text longer |
| TextReplace.ReplaceAllKeepsPrefix | deploy/deploy_dashboard.py:349-353 | When the replacement starts with the pattern, the result still contains the pattern |
| TextReplace.ReplaceAllNotIdempotent | deploy/deploy_dashboard.py:349-353 | When the replacement strictly extends the pattern, replacing twice differs from replacing once |
| Session.SessionLog | deploy/deploy_dashboard.py:327-422 | A log of connect, in-session requests and disconnect starts with the connect, ends with the disconnect, and holds only commands and uploads in between |
| Session.BackupPath | deploy/deploy_dashboard.py:217 | The backup path is the remote path followed by seven more characters (`.backup`) |
| Session.Backup | deploy/deploy_dashboard.py:214-230 | The backup sends one command; it reports success unless the command raised; it copies `p` to `p.backup` only if the command ran and `p` exists; nothing else changes |
| Session.Transfer | deploy/deploy_dashboard.py:97-137 | An upload sends one request; on success the path holds the content; on failure nothing changes; no other path changes |
| Session.BackupPathDiffers | deploy/deploy_dashboard.py:217 | The backup never overwrites the file it backs up |
| Session.BackupKeepsSource | deploy/deploy_dashboard.py:221 | A backup leaves the source file as it was |
| Session.BackupThenTransfer | deploy/deploy_dashboard.py:382-385 | After backup and a successful upload, the path holds the new content and `p.backup` the old one, if there was one |
| Session.CliChain | deploy/deploy_dashboard.py:169-188 | The chain attempts at most the listed commands |
| Session.ExecsInSession | deploy/deploy_dashboard.py:176-178 | Reload requests are all in-session requests |
| Session.CliChainStopsAtFirstSuccess | deploy/deploy_dashboard.py:176-188 | Commands are tried in the listed order, every one before the last failed, a success is the last attempt, and a failure tried them all |
| Session.CliChainOkIff | deploy/deploy_dashboard.py:176-188 | The chain succeeds exactly when some listed command exits with 0 |
| DeployPaths.DashboardRemoteDefault | deploy/deploy_dashboard.py:299-301 | Without `--remote` (absent or empty) the dashboard goes to `/config/lovelace/my-dashboard.yaml`, otherwise to `--remote` |
| DeployPaths.DefaultDashboardPath | deploy/deploy_dashboard.py:30-33 | The default dashboard directory and file name join to `/config/lovelace/my-dashboard.yaml` |
| DeployPaths.StagingName | deploy/deploy_dashboard.py:336-346 | The staging file is named `stem-staging.ext` after the production file, eight characters longer |
| DeployPaths.StagingPathDiffers | deploy/deploy_dashboard.py:336-346 | A staging path never equals the production path it is derived from |
| DeployPaths.StagingKeepsDirectory | deploy/deploy_dashboard.py:336-346 | The staging file sits in the production file's directory, when that directory is a real one |
| DeployPaths.BareNameStagesAtRoot | deploy/deploy_dashboard.py:336-342 | A `--remote` without '/' stages to `/stem-staging.ext`, because the empty directory is followed by '/' |
| DeployPaths.StagingOfFile | deploy/deploy_dashboard.py:336-346 | `d/stem.ext` stages to `d/stem-staging.ext` |
| DeployPaths.StagingOfJoin | deploy/deploy_dashboard.py:336-346 | `d/f` stages within `d` to a path eight characters longer |
| DeployPaths.DefaultStagingDashboard | deploy/deploy_dashboard.py:300-301 | With the default remote, the staging dashboard is `/config/lovelace/my-dashboard-staging.yaml` |
| DeployPaths.ThemeRemoteBesideDashboards | deploy/deploy_dashboard.py:302-306 | For a dashboard at `c/x/f`, the derived theme path is `c/themes/` plus the local theme file's name |
| DeployPaths.DefaultThemeRemote | deploy/deploy_dashboard.py:299-306 | With the default dashboard path, the theme goes to `/config/themes/<local theme file name>` |
| DeployRewrite.StagingNameExtendsProd | deploy/deploy_dashboard.py:36-37 | The staging theme name is 28 characters and begins with the 18-character production name |
| DeployRewrite.StageDashboardLength | deploy/deploy_dashboard.py:349-353 | The staged dashboard grows by 10 characters per occurrence of the production theme name |
| DeployRewrite.StageDashboardAbsent | deploy/deploy_dashboard.py:349-353 | A dashboard without the production theme name is uploaded unchanged |
| DeployRewrite.StageDashboardReversible | deploy/deploy_dashboard.py:349-353 | For a dashboard not already naming the staging theme, renaming back restores it, and it names the staging theme as often as it named the production one |
| DeployRewrite.StageDashboardNotIdempotent | deploy/deploy_dashboard.py:349-353 | Staging an already staged dashboard changes it again and makes it longer |
| DeployRewrite.StageThemeRenamesFirstKey | deploy/deploy_dashboard.py:365-370 | Only the first `My Dashboard Theme:` is renamed; the text before it and after it is kept; without one the theme is unchanged |
| DeployRewrite.StageThemeLength | deploy/deploy_dashboard.py:365-370 | The staged theme is 10 characters longer if it has the key, otherwise the same length |
| DeployRewrite.StageThemeSingleKey | deploy/deploy_dashboard.py:365-370 | With at most one key the first-only rewrite equals a full rewrite |
| Deploy.ReloadSpecSends | deploy/deploy_dashboard.py:139-212 | The reload sends API then refresh on API success, API then the command chain on API failure, and only the chain without a token |
| Deploy.Deployer.constructor | deploy/deploy_dashboard.py:39-58 | The settings are stored and neither client exists yet |
| Deploy.Deployer.Connect | deploy/deploy_dashboard.py:60-87 | The SSH client is created; the SFTP client is opened exactly when the connection succeeds; one connect request with the key file, else the password |
| Deploy.Deployer.Disconnect | deploy/deploy_dashboard.py:89-95 | Each existing client is closed; a disconnect is sent if any client existed |
| Deploy.Deployer.BackupFile | deploy/deploy_dashboard.py:214-230 | With an SSH client, performs `Backup` and returns its result; without one, fails and changes nothing |
| Deploy.Deployer.DeployFile | deploy/deploy_dashboard.py:97-118 | A missing local file or missing SFTP client fails with no request; otherwise uploads the file's content and reports the upload's outcome |
| Deploy.Deployer.DeployContent | deploy/deploy_dashboard.py:120-137 | Uploads the given content and reports the upload's outcome; fails without an SFTP client |
| Deploy.Deployer.RefreshBrowsers | deploy/deploy_dashboard.py:194-212 | Sends the refresh only when a token is given; its outcome is ignored |
| Deploy.Deployer.ReloadYamlConfig | deploy/deploy_dashboard.py:139-192 | Returns `ReloadSpec`'s verdict and sends exactly its requests; without an SSH client fails with no request |
| Deploy.Deployer.ReloadViaApi | deploy/deploy_dashboard.py:149-167 | The API succeeds exactly when its command exits 0; then the refresh follows; otherwise only the API request was sent |
| Deploy.Deployer.ReloadViaCli | deploy/deploy_dashboard.py:169-188 | The loop sends exactly the attempts of `CliChain` and returns its verdict |
| Deploy.DeliverAppend | deploy/deploy_dashboard.py:333-399 | Delivering `p + q` delivers `p`, and `q` only if `p` completed |
| Deploy.ThenAssoc | deploy/deploy_dashboard.py:331-399 | Sequencing deliveries is associative |
| Deploy.DeliverSingle | deploy/deploy_dashboard.py:380-388 | Delivering one artifact is that artifact's backup and upload |
| Deploy.DeliverPair | deploy/deploy_dashboard.py:333-378 | Delivering two artifacts delivers the second only after the first completed |
| Deploy.DeployOne | deploy/deploy_dashboard.py:355-361 | One artifact's backup-and-upload block ends, deploys and sends what `DeliverOne` says |
| Deploy.DeployStaging | deploy/deploy_dashboard.py:333-378 | The staging branch delivers the staging dashboard, then the staging theme |
| Deploy.DeployProduction | deploy/deploy_dashboard.py:380-399 | The production branch delivers the dashboard, then the theme if `--theme` or `--promote` |
| Deploy.RunDeployment | deploy/deploy_dashboard.py:233-422 | `main` produces exactly `RunSpec`'s outcome |
| Deploy.DeployConnected | deploy/deploy_dashboard.py:330-422 | The `try`/`finally` body produces exactly `ConnectedRun`'s outcome and leaves both the SSH and the SFTP client closed |
| Deploy.Finish | deploy/deploy_dashboard.py:413-422 | After the uploads, the reload requests follow only on success without `--no-reload`, then the disconnect; the SSH client ends closed, the SFTP client closed if it was ever opened |
| LegacyDeploy.DashboardRemoteDefault | deploy_dashboard.py:215-217 | Without `--remote` the dashboard goes to `/config/lovelace/ui-lovelace.yaml` |
| LegacyDeploy.DefaultDashboardPath | deploy_dashboard.py:26-28 | The default directory and file name join to `/config/lovelace/ui-lovelace.yaml` |
| LegacyDeploy.Deployer.constructor | deploy_dashboard.py:30-47 | The settings are stored and neither client exists yet |
| LegacyDeploy.Deployer.Connect | deploy_dashboard.py:49-77 | The SSH client is created; the SFTP client is opened exactly when the connection succeeds |
| LegacyDeploy.Deployer.Disconnect | deploy_dashboard.py:79-85 | Each existing client is closed; a disconnect is sent if any client existed |
| LegacyDeploy.Deployer.DeployDashboard | deploy_dashboard.py:87-109 | A missing local file fails with no request; otherwise the upload's outcome |
| LegacyDeploy.Deployer.ReloadYamlConfig | deploy_dashboard.py:111-152 | The loop with its `success` flag and `break` returns `CliChain`'s verdict and sends exactly its attempts |
| LegacyDeploy.Deployer.BackupExistingDashboard | deploy_dashboard.py:154-170 | Performs `Backup` and returns its result |
| LegacyDeploy.RunDeployment | deploy_dashboard.py:173-259 | `main` produces exactly `RunSpec`'s outcome |
| LegacyDeploy.DeployConnected | deploy_dashboard.py:236-259 | The `try`/`finally` body produces exactly `ConnectedRun`'s outcome and leaves both the SSH and the SFTP client closed |
| LegacyDeploy.RejectedBeforeConnecting | deploy_dashboard.py:210-222 | Missing credentials or a missing local file exit with 1 and send nothing |
| LegacyDeploy.ConnectFailure | deploy_dashboard.py:233-234 | A failed connection exits with 1 after the connect request alone |
| LegacyDeploy.ExitStatus | deploy_dashboard.py:210-259 | The exit status is 0 or 1, and 0 exactly when the arguments were valid, the connection and the upload succeeded |
| LegacyDeploy.SessionAlwaysClosed | deploy_dashboard.py:236-259 | Once connected, the log begins with the connect, ends with the disconnect, and holds only commands and uploads between |
| LegacyDeploy.SuccessfulDeploy | deploy_dashboard.py:154-245 | After success the remote dashboard holds the local file, the backup holds the old one when a backup ran, `<remote>.backup` is untouched under `--no-backup` or when no copy happened, and nothing else changed |
| LegacyDeploy.FailedUpload | deploy_dashboard.py:242-256 | A failed upload exits with 1, changes at most the backup file, and runs no reload command |
| LegacyDeploy.ReloadOnlyAfterUpload | deploy_dashboard.py:242-253 | A reload command is sent exactly when the upload succeeded and `--no-reload` is absent |
| DeployFacts.CliChainDependsOnCli | deploy/deploy_dashboard.py:176-188 | The chain depends only on how the listed commands end |
| DeployFacts.ReloadApiFirst | deploy/deploy_dashboard.py:149-176 | With a token the API is attempted first; without one only the listed commands, in order |
| DeployFacts.ReloadRefreshIff | deploy/deploy_dashboard.py:159-162 | A browser refresh is requested exactly when a token is given and the API reload exited 0 |
| DeployFacts.ReloadOkIff | deploy/deploy_dashboard.py:139-188 | The reload succeeds exactly when the API reload or some listed command exits 0 |
| DeployFacts.ReloadFailureTriedAll | deploy/deploy_dashboard.py:176-188 | A failed reload tried all three commands, last, in order |
| DeployFacts.ReloadIgnoresRefreshOutcome | deploy/deploy_dashboard.py:194-212 | How the browser refresh ends never changes the reload |
| DeployFacts.ReloadFallsBackInOrder | deploy/deploy_dashboard.py:149-188 | A failing API and first command followed by a succeeding second command stop the chain there |
| DeployFacts.DeliverOneOutcome | deploy/deploy_dashboard.py:355-399 | One artifact completes exactly when deliverable, raises exactly when a staged file is missing, else exits with 1; it is listed only if completed |
| DeployFacts.DeliverStopsAtFirstFailure | deploy/deploy_dashboard.py:355-399 | The deployed list is a prefix of the plan, all deliverable, the run completes iff it is the whole plan, and the next artifact is the one that failed |
| DeployFacts.DeliverOneEffects | deploy/deploy_dashboard.py:355-358 | One artifact's requests are a backup of its path then its upload, or the upload alone with `--no-backup` |
| DeployFacts.DeliverBacksUpFirst | deploy/deploy_dashboard.py:355-399 | Every upload is immediately preceded by a backup of the same path, unless `--no-backup`, which sends no backups |
| DeployFacts.ConnectedRunShape | deploy/deploy_dashboard.py:327-422 | A connected run is connect, the deliveries, the reload requests, disconnect |
| DeployFacts.RunRejectsBeforeConnecting | deploy/deploy_dashboard.py:294-315 | Invalid arguments exit with 1 and send nothing |
| DeployFacts.RunConnectFailure | deploy/deploy_dashboard.py:327-328 | A failed connection exits with 1 after the connect request alone |
| DeployFacts.ReloadRequestsShape | deploy/deploy_dashboard.py:139-212 | A reload sends at least one command and never a backup |
| DeployFacts.RunSessionClosed | deploy/deploy_dashboard.py:330-422 | Once connected, the log ends with the disconnect whatever happens, with only commands and uploads in between |
| DeployFacts.RunExitStatus | deploy/deploy_dashboard.py:295-422 | The exit status is 0 or 1, and 0 exactly when the arguments were valid, the connection succeeded and every artifact was deliverable |
| DeployFacts.RunDeployedList | deploy/deploy_dashboard.py:331-399 | The summary lists a prefix of the plan, all of it on success |
| DeployFacts.RunReloadsIff | deploy/deploy_dashboard.py:413-415 | A reload is requested exactly when everything was deployed and `--no-reload` is absent |
| DeployFacts.RunBacksUpBeforeUpload | deploy/deploy_dashboard.py:355-399 | Over the whole run each upload is preceded by a backup of its path, and no backups with `--no-backup` |
| DeployFacts.DeliverOneTouchesOnly | deploy/deploy_dashboard.py:355-399 | One artifact changes at most its path and its backup |
| DeployFacts.DeliverTouchesOnly | deploy/deploy_dashboard.py:355-399 | A delivery changes at most the plan's paths and their backups |
| DeployFacts.DeliverOneWrites | deploy/deploy_dashboard.py:355-399 | A completed artifact leaves its content at its path |
| DeployFacts.DeliverWritesContent | deploy/deploy_dashboard.py:355-399 | After a completed delivery each artifact's content is at its path unless a later artifact wrote over it |
| DeployFacts.PairWritesContent | deploy/deploy_dashboard.py:355-399 | After two completed artifacts, the second's content is at its path, and the first's unless the second or its backup hit the same path |
| DeployFacts.StagePlanShape | deploy/deploy_dashboard.py:333-378 | `--stage` deploys exactly the staging dashboard then the staging theme, at paths other than the production ones, whatever `--theme` says |
| DeployFacts.ProductionPlanShape | deploy/deploy_dashboard.py:380-399 | Otherwise the dashboard, plus the theme if `--theme` or `--promote` |
| DeployFacts.RunTouchesOnlyPlan | deploy/deploy_dashboard.py:327-422 | A run changes at most the planned paths and their backups |
| DeployFacts.DefaultDashboardPaths | deploy/deploy_dashboard.py:300-301 | With the default remote, the production and staging dashboards both lie in `/config/lovelace`, are 34 and 42 characters long and have the 'l' of `lovelace` as ninth character |
| DeployFacts.DefaultThemePaths | deploy/deploy_dashboard.py:302-306 | With the default remote, the production and staging themes both lie in `/config/themes`, the staging one eight characters longer, both with the 't' of `themes` as ninth character |
| DeployFacts.DefaultStageTargets | deploy/deploy_dashboard.py:299-378 | With the default remotes, neither production path is a `--stage` target or the backup of one |
| DeployFacts.DefaultStageLeavesProduction | deploy/deploy_dashboard.py:299-378 | With the default remotes, `--stage` leaves the production dashboard and theme exactly as they were |
| DeployFacts.StageWritesRenamedCopies | deploy/deploy_dashboard.py:348-378 | A completed `--stage` run leaves the renamed theme at the staging theme path, and the renamed dashboard at its staging path unless the theme's upload or backup hit it |
| DeployFacts.ProductionWritesFiles | deploy/deploy_dashboard.py:380-399 | A completed production run leaves the local theme at the theme path when deployed, and the local dashboard at its path unless the theme's upload or backup hit it |
| DeployFacts.StageMissingThemeAfterDashboard | deploy/deploy_dashboard.py:313-378 | `--stage` with a missing local theme raises only after the staging dashboard was uploaded, exits with 1 and still disconnects |
| DeployFacts.LegacyAgreesWithProduction | deploy_dashboard.py:173-259 | For a plain dashboard deployment without a token, the first version and the second one given the first one's dashboard path (default or not) leave the same server, send the same requests and exit alike |

## Left out

- Argument parsing: `argparse`, its exit status 2 for a bad invocation, and the help texts. The model takes the parsed arguments as a `Config`, and the mutually exclusive `--stage`/`--promote` group as a `Mode`.
- Console output: every `print`, and the summary's mode label (`STAGING`, `PROMOTE TO PROD`, `PRODUCTION`), which only affects printed text.
- paramiko: the SSH and SFTP protocols, host-key policy, the 30- and 10-second command timeouts, and the first version's RSA key parsing. These are folded into the oracle's `connects`. A failure to open the SFTP session after a successful SSH connection is not told apart from a failed connection.
- The text of the remote shell commands, and the shell quoting of the paths interpolated into them. Commands are the opaque values `BackupCmd`, `ApiReload`, `BrowserRefresh` and `Cli`. The three command-line reload commands are an enumeration rather than their strings.
- A backup whose `test -f` succeeds but whose `cp` fails. The model lets a backup command that did not raise copy an existing file.
- Partial writes by a failed upload: a failed upload changes nothing.
- UTF-8 encoding of uploaded content, and decoding errors of `read_text`. A local file that exists can always be read, and a missing one is the only read failure.
- The script-relative default local paths of `--local` and `--theme-local`: the local paths are part of `Config`.
- `os.path.exists` is map membership, so a directory at the local path is not modelled.
- TextReplace.ReplaceAll, TextReplace.Count: require a non-empty pattern. Python's `str.replace` with an empty pattern inserts between characters; the scripts only replace the two fixed theme names.
- Deploy.Deployer.Connect, LegacyDeploy.Deployer.Connect: do not model the exception raised when the SSH client object itself cannot be created, so the SSH handle is always `Open` after `connect`.
- Labels are an enumeration (`Label`), with their printed text in `LabelText`.
- Session.Oracle: the server's answers depend only on the request (`exec` on the command, `put` on the path), not on when it is sent, so two identical requests in one run end alike, e.g. two backups of the same path when the dashboard and theme paths coincide. A server whose answer changes between two identical requests within one run is not modelled.

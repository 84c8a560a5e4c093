/**
 * The remote paths `deploy/deploy_dashboard.py` derives from its arguments:
 * the default dashboard path, the theme path beside the dashboards
 * directory, and the `-staging` variants used by `--stage`.
 */
module DeployPaths {
  import opened Options
  import opened Session
  import opened PosixPath

  const DefaultConfigDir: string := "/config"
  const DefaultDashboardsDir: string := "/config/lovelace"
  const DefaultDashboardFile: string := "my-dashboard.yaml"
  const DefaultThemesDir: string := "/config/themes"

  /** `--remote`, or the default dashboard path when it is absent or empty. */
  function DashboardRemote(remote: Option<string>): string
  {
    if Given(remote) then remote.value else DefaultDashboardsDir + "/" + DefaultDashboardFile
  }

  /**
   * `--theme-remote`, or, when it is absent or empty, the `themes` directory
   * beside the dashboard's parent directory, holding a file named like the
   * local theme file.
   */
  function ThemeRemote(themeRemote: Option<string>, dashboard: string, themeLocal: string): string
  {
    if Given(themeRemote) then themeRemote.value
    else Dirname(Dirname(dashboard)) + "/themes/" + Basename(themeLocal)
  }

  /** The staging variant of a remote path: `dir/stem-staging.ext`. */
  function StagingPath(p: string): string
  {
    var (stem, ext) := Splitext(Basename(p));
    Dirname(p) + "/" + (stem + "-staging" + ext)
  }

  // ---------------------------------------------------------------------

  /** Without `--remote` the dashboard goes to `/config/lovelace/my-dashboard.yaml`; with it, exactly there. */
  lemma {:induction false} DashboardRemoteDefault(remote: Option<string>)
    ensures !Given(remote) ==> DashboardRemote(remote) == "/config/lovelace/my-dashboard.yaml"
    ensures Given(remote) ==> DashboardRemote(remote) == remote.value
  {
    DefaultDashboardPath();
  }

  lemma {:induction false} DefaultDashboardPath()
    ensures DefaultDashboardsDir + "/" + DefaultDashboardFile == "/config/lovelace/my-dashboard.yaml"
  {
  }

  /**
   * The staging file keeps the directory and renames the file to
   * `stem-staging.ext`, so its name is always 8 characters longer than the
   * production name.
   */
  lemma {:induction false} StagingName(p: string)
    ensures Basename(StagingPath(p)) == Splitext(Basename(p)).0 + "-staging" + Splitext(Basename(p)).1
    ensures |Basename(StagingPath(p))| == |Basename(p)| + 8
  {
    var b := Basename(p);
    BasenameIsLastComponent(p);
    SplitextSpec(b);
    var stem := Splitext(b).0;
    var ext := Splitext(b).1;
    var f := stem + "-staging" + ext;
    assert '/' !in f;
    BasenameOfJoin(Dirname(p), f);
  }

  /** A staging upload never targets the production file. */
  lemma {:induction false} StagingPathDiffers(p: string)
    ensures StagingPath(p) != p
  {
    StagingName(p);
  }

  /** When the production path has a proper directory, the staging file lands in that same directory. */
  lemma {:induction false} StagingKeepsDirectory(p: string)
    requires Dirname(p) != [] && !AllSlashes(Dirname(p))
    ensures Dirname(StagingPath(p)) == Dirname(p)
  {
    var b := Basename(p);
    BasenameIsLastComponent(p);
    SplitextSpec(b);
    DirnameSpec(p);
    var f := Splitext(b).0 + "-staging" + Splitext(b).1;
    assert '/' !in f;
    DirnameOfJoin(Dirname(p), f);
  }

  /**
   * A bare file name has an empty directory, so its staging variant is
   * placed at the root of the remote file system.
   */
  lemma {:induction false} BareNameStagesAtRoot(p: string)
    requires '/' !in p
    ensures StagingPath(p) == "/" + Splitext(p).0 + "-staging" + Splitext(p).1
  {
    NoSlash(p);
  }

  /** A `stem.ext` file in a directory stages to `stem-staging.ext` in the same directory. */
  lemma {:induction false} StagingOfFile(d: string, f: string, stem: string, e: string)
    requires d != [] && d[|d| - 1] != '/'
    requires f == stem + "." + e
    requires '/' !in stem && '/' !in e && '.' !in e
    requires stem != [] && stem[0] != '.'
    ensures StagingPath(d + "/" + f) == d + "/" + (stem + "-staging" + "." + e)
  {
    assert '/' !in f;
    BasenameOfJoin(d, f);
    DirnameOfJoin(d, f);
    SplitextOfName(stem, e);
    assert stem + "-staging" + ("." + e) == stem + "-staging" + "." + e;
  }

  /** A file joined onto a directory stages to the same directory, under a name eight characters longer. */
  lemma {:induction false} StagingOfJoin(d: string, f: string)
    requires d != [] && d[|d| - 1] != '/' && '/' !in f
    ensures StagingPath(d + "/" + f) == d + "/" + (Splitext(f).0 + "-staging" + Splitext(f).1)
    ensures |StagingPath(d + "/" + f)| == |d| + 1 + |f| + 8
  {
    BasenameOfJoin(d, f);
    DirnameOfJoin(d, f);
    SplitextSpec(f);
  }

  /** The default dashboard's staging variant is `/config/lovelace/my-dashboard-staging.yaml`. */
  lemma {:induction false} DefaultStagingDashboard()
    ensures StagingPath(DashboardRemote(None)) == DefaultDashboardsDir + "/" + "my-dashboard-staging.yaml"
  {
    DefaultDashboardFileParts();
    StagingOfFile(DefaultDashboardsDir, DefaultDashboardFile, "my-dashboard", "yaml");
    StagingFileParts();
  }

  /** Literal facts about the default names, proved apart from any context that would slow the solver. */
  lemma {:induction false} DefaultDashboardFileParts()
    ensures DefaultDashboardFile == "my-dashboard" + "." + "yaml"
  {
  }

  lemma {:induction false} StagingFileParts()
    ensures "my-dashboard" + "-staging" + "." + "yaml" == "my-dashboard-staging.yaml"
  {
  }

  /**
   * For a dashboard at `c/x/f`, the derived theme path is `c/themes/` plus
   * the local theme file's name.
   */
  lemma {:induction false} ThemeRemoteBesideDashboards(c: string, x: string, f: string, themeLocal: string)
    requires c != [] && c[|c| - 1] != '/'
    requires x != [] && '/' !in x && '/' !in f
    ensures ThemeRemote(None, c + "/" + x + "/" + f, themeLocal) == c + "/themes/" + Basename(themeLocal)
  {
    var d := c + "/" + x;
    assert d[|d| - 1] == x[|x| - 1];
    DirnameOfJoin(d, f);
    DirnameOfJoin(c, x);
  }

  /** With the default dashboard path, the theme goes to `/config/themes/<local theme file name>`. */
  lemma {:induction false} DefaultThemeRemote(themeLocal: string)
    ensures ThemeRemote(None, DashboardRemote(None), themeLocal) == DefaultThemesDir + "/" + Basename(themeLocal)
  {
    assert DefaultDashboardsDir == DefaultConfigDir + "/" + "lovelace";
    assert DefaultThemesDir + "/" == DefaultConfigDir + "/themes/";
    ThemeRemoteBesideDashboards(DefaultConfigDir, "lovelace", DefaultDashboardFile, themeLocal);
  }
}

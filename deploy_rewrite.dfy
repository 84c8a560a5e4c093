/**
 * The in-memory renaming `--stage` applies before uploading: the dashboard
 * text gets every production theme name replaced by the staging name, and
 * the theme text gets its first `name:` key renamed.
 */
module DeployRewrite {
  import opened TextReplace

  const ProdThemeName: string := "My Dashboard Theme"
  const StagingThemeName: string := "My Dashboard Theme - Staging"

  /** The dashboard as uploaded to staging: every production theme name renamed. */
  function StageDashboard(text: string): string
  {
    ReplaceAll(text, ProdThemeName, StagingThemeName)
  }

  /** The theme as uploaded to staging: only its first `My Dashboard Theme:` key renamed. */
  function StageTheme(text: string): string
  {
    ReplaceFirst(text, ProdThemeName + ":", StagingThemeName + ":")
  }

  // ---------------------------------------------------------------------
  // Facts about the two names

  /** The staging name is the production name followed by ten more characters. */
  lemma {:induction false} StagingNameExtendsProd()
    ensures |ProdThemeName| == 18 && |StagingThemeName| == 28
    ensures StagingThemeName[..|ProdThemeName|] == ProdThemeName
  {
  }

  /** The staging name's first character appears nowhere else in it. */
  lemma {:induction false} StagingNameHeadUnique()
    ensures HeadUnique(StagingThemeName)
  {
  }

  // ---------------------------------------------------------------------
  // The dashboard rewrite

  /** Each occurrence of the production name adds ten characters. */
  lemma {:induction false} StageDashboardLength(text: string)
    ensures |StageDashboard(text)| == |text| + 10 * Count(text, ProdThemeName)
  {
    StagingNameExtendsProd();
    ReplaceAllLength(text, ProdThemeName, StagingThemeName);
  }

  /** A dashboard that never names the production theme is uploaded unchanged. */
  lemma {:induction false} StageDashboardAbsent(text: string)
    requires !Contains(text, ProdThemeName)
    ensures StageDashboard(text) == text
  {
    ReplaceAllAbsent(text, ProdThemeName, StagingThemeName);
  }

  /**
   * For a dashboard that does not already name the staging theme, renaming
   * the staging name back restores it, and the staged text names the
   * staging theme exactly as often as the original named the production one.
   */
  lemma {:induction false} StageDashboardReversible(text: string)
    requires !Contains(text, StagingThemeName)
    ensures ReplaceAll(StageDashboard(text), StagingThemeName, ProdThemeName) == text
    ensures Count(StageDashboard(text), StagingThemeName) == Count(text, ProdThemeName)
  {
    StagingNameHeadUnique();
    ReplaceAllRoundTrip(text, ProdThemeName, StagingThemeName);
    ReplaceAllCountsRenamed(text, ProdThemeName, StagingThemeName);
  }

  /**
   * Staging is not idempotent: the staging name contains the production
   * name, so staging an already staged dashboard renames it again.
   */
  lemma {:induction false} StageDashboardNotIdempotent(text: string)
    requires Contains(text, ProdThemeName)
    ensures StageDashboard(StageDashboard(text)) != StageDashboard(text)
    ensures |StageDashboard(StageDashboard(text))| > |StageDashboard(text)|
  {
    StagingNameExtendsProd();
    ReplaceAllNotIdempotent(text, ProdThemeName, StagingThemeName);
  }

  // ---------------------------------------------------------------------
  // The theme rewrite

  /**
   * Only the leftmost `My Dashboard Theme:` is renamed: the text before it
   * and everything after it, later occurrences included, are kept; a theme
   * without that key is uploaded unchanged.
   */
  lemma {:induction false} StageThemeRenamesFirstKey(text: string)
    ensures !Contains(text, ProdThemeName + ":") ==> StageTheme(text) == text
    ensures Contains(text, ProdThemeName + ":") ==> exists m :: (OccursAt(text, ProdThemeName + ":", m)
      && (forall j :: 0 <= j < m ==> !OccursAt(text, ProdThemeName + ":", j))
      && StageTheme(text) == text[..m] + StagingThemeName + ":" + text[m + 19..])
  {
    var pat := ProdThemeName + ":";
    var rep := StagingThemeName + ":";
    assert |pat| == 19;
    ReplaceFirstAtLeftmost(text, pat, rep);
  }

  /** The staged theme is ten characters longer exactly when it had the key. */
  lemma {:induction false} StageThemeLength(text: string)
    ensures |StageTheme(text)| == if Contains(text, ProdThemeName + ":") then |text| + 10 else |text|
  {
    ReplaceFirstLength(text, ProdThemeName + ":", StagingThemeName + ":");
  }

  /** With a single key, renaming the first occurrence is the same as renaming them all. */
  lemma {:induction false} StageThemeSingleKey(text: string)
    requires Count(text, ProdThemeName + ":") <= 1
    ensures StageTheme(text) == ReplaceAll(text, ProdThemeName + ":", StagingThemeName + ":")
  {
    ReplaceFirstAgreesWithAll(text, ProdThemeName + ":", StagingThemeName + ":");
  }
}

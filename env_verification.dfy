/**
  `environment_verification()`: the diagnostic report on the host's state.
  What the host reports (the working directory, whether the timeline plays,
  the loaded stage) comes in as parameters; what the script prints comes
  out as a `Report` value.
 */
module EnvVerification {
  import opened Wrappers
  import opened PyStrings
  import SetupCamera

  /**
    The substring the script tests for before extracting a repository path;
    it then splits on `SetupCamera.ScenesSeparator`, `/scenes/`.
   */
  const ScenesGuard: String := "/scenes"

  /** The prim paths the script checks, relative as written in the script. */
  const ObjectPrimPath: String := "World/clean_mussel"
  const GroundPrimPath: String := "World/GroundPlane"

  /**
    A loaded stage as the script queries it: its URL and the paths at which
    `GetPrimAtPath` yields a valid prim.
   */
  datatype Stage = Stage(url: String, validPrims: set<String>)

  /** What the script reports about a loaded stage. */
  datatype StageReport = StageReport(
    url: String,
    repoPath: Option<String>,
    objectPrimExists: bool,
    groundPrimExists: bool)

  /** Everything the script reports; `stage` is None for "No stage is currently loaded". */
  datatype Report = Report(cwd: String, timelinePlaying: bool, stage: Option<StageReport>)

  /** Every occurrence of `/scenes/` is an occurrence of `/scenes`. */
  lemma SeparatorContainsGuard(url: String, i: nat)
    requires OccursAt(url, SetupCamera.ScenesSeparator, i)
    ensures OccursAt(url, ScenesGuard, i)
  {
    assert url[i..i + |ScenesGuard|] == url[i..i + |SetupCamera.ScenesSeparator|][..|ScenesGuard|];
  }

  /** So a URL that has a `/scenes/` passes the `/scenes` guard. */
  lemma SeparatorPassesGuard(url: String)
    ensures In(SetupCamera.ScenesSeparator, url) ==> In(ScenesGuard, url)
  {
    if In(SetupCamera.ScenesSeparator, url) {
      var i :| OccursAt(url, SetupCamera.ScenesSeparator, i);
      SeparatorContainsGuard(url, i);
    }
  }

  /**
    The repository path the script reports for a stage URL, exactly as
    written: guarded by `"/scenes" in url`, extracted by
    `url.split("/scenes/")[0]`. It is reported exactly when the guard holds,
    is always a prefix of the URL, and when the URL has a `/scenes/` it is
    the text before the first one.
   */
  function ReportedRepoPath(url: String): (r: Option<String>)
    ensures r.Some? <==> In(ScenesGuard, url)
    ensures r.Some? ==> r.value <= url
    ensures In(SetupCamera.ScenesSeparator, url) ==> r.Some? && OccursAt(url, SetupCamera.ScenesSeparator, |r.value|)
    ensures In(SetupCamera.ScenesSeparator, url) ==>
              forall j: nat :: j < |r.value| ==> !OccursAt(url, SetupCamera.ScenesSeparator, j)
  {
    SeparatorPassesGuard(url);
    if In(ScenesGuard, url) then Some(SplitHead(url, SetupCamera.ScenesSeparator)) else None
  }

  /**
    The guard and the separator differ: a URL that contains `/scenes` but
    no `/scenes/` (one ending in `/scenes`, or with a `/scenes_old/`
    directory) passes the guard and is reported whole as the repository path.
   */
  lemma GuardSplitMismatch(url: String)
    requires In(ScenesGuard, url) && !In(SetupCamera.ScenesSeparator, url)
    ensures ReportedRepoPath(url) == Some(url)
  {
  }

  /** A concrete URL that shows the mismatch. */
  lemma GuardSplitMismatchExample()
    ensures ReportedRepoPath("/repo/scenes") == Some("/repo/scenes")
  {
    var url := "/repo/scenes";
    assert OccursAt(url, ScenesGuard, 5);
    forall j: nat ensures !OccursAt(url, SetupCamera.ScenesSeparator, j) {
      if j + |SetupCamera.ScenesSeparator| <= |url| {
        assert url[j + 7] != '/';
        assert url[j..j + |SetupCamera.ScenesSeparator|][7] == url[j + 7];
      }
    }
    GuardSplitMismatch(url);
  }

  /**
    The repository path as evidently intended, with the same separator in
    the guard and in the split (as `CameraSetup.__init__` has it): reported
    exactly when the URL has a `/scenes/`, and then always a proper prefix
    of the URL followed by `/scenes/`.
   */
  function CorrectedRepoPath(url: String): (r: Option<String>)
    ensures r.Some? <==> In(SetupCamera.ScenesSeparator, url)
    ensures r.Some? ==> r.value <= url && |r.value| < |url| && OccursAt(url, SetupCamera.ScenesSeparator, |r.value|)
  {
    if In(SetupCamera.ScenesSeparator, url) then Some(SplitHead(url, SetupCamera.ScenesSeparator)) else None
  }

  /**
    The corrected report agrees with the script wherever the URL has a
    `/scenes/`, and with the repository path `CameraSetup` derives from the
    same URL whenever it reports one.
   */
  lemma CorrectedRepoPathAgrees(url: String, cwd: String)
    ensures In(SetupCamera.ScenesSeparator, url) ==> CorrectedRepoPath(url) == ReportedRepoPath(url)
    ensures CorrectedRepoPath(url).Some? ==>
              CorrectedRepoPath(url).value == SetupCamera.RepoPath(None, url, cwd)
  {
  }

  /**
    The whole report. Without a stage nothing but the working directory and
    the timeline state is reported; with one, its URL, the repository path
    derived from the URL and, independently of it, whether the two
    expected prims exist.
   */
  function EnvironmentVerification(cwd: String, timelinePlaying: bool, stage: Option<Stage>): (r: Report)
    ensures r.cwd == cwd && r.timelinePlaying == timelinePlaying
    ensures r.stage.Some? <==> stage.Some?
    ensures stage.Some? ==>
              r.stage.value.url == stage.value.url &&
              r.stage.value.repoPath == ReportedRepoPath(stage.value.url)
    ensures stage.Some? ==>
              (r.stage.value.objectPrimExists <==> ObjectPrimPath in stage.value.validPrims) &&
              (r.stage.value.groundPrimExists <==> GroundPrimPath in stage.value.validPrims)
  {
    match stage
    case None => Report(cwd, timelinePlaying, None)
    case Some(s) =>
      Report(cwd, timelinePlaying, Some(StageReport(
        s.url,
        ReportedRepoPath(s.url),
        ObjectPrimPath in s.validPrims,
        GroundPrimPath in s.validPrims)))
  }

  /**
    The prim checks do not look at the URL: two stages with the same prims
    get the same answers, whatever their URLs.
   */
  lemma PrimChecksIgnoreUrl(cwd: String, playing: bool, a: Stage, b: Stage)
    requires a.validPrims == b.validPrims
    ensures var ra := EnvironmentVerification(cwd, playing, Some(a)).stage.value;
            var rb := EnvironmentVerification(cwd, playing, Some(b)).stage.value;
            ra.objectPrimExists == rb.objectPrimExists && ra.groundPrimExists == rb.groundPrimExists
  {
  }

  /**
    Both prim paths are relative: on a stage whose prims all live at
    absolute paths, neither check finds its prim.
   */
  lemma RelativePrimPathsNotFound(cwd: String, playing: bool, s: Stage)
    requires forall p :: p in s.validPrims ==> IsAbsolute(p)
    ensures var r := EnvironmentVerification(cwd, playing, Some(s)).stage.value;
            !r.objectPrimExists && !r.groundPrimExists
  {
  }
}

/**
  `CameraSetup` from the camera script: where the repository and the output
  directory are, and how the render camera is created and aimed at the
  object. Host calls (the stage URL, the working directory, the object's
  bounding range, and which host call raises) are parameters.
 */
module SetupCamera {
  import opened Wrappers
  import opened PyStrings
  import opened CameraFraming

  /** The path segment that separates the repository from its scene files. */
  const ScenesSeparator: String := "/scenes/"

  const RenderCameraPath: String := "/World/RenderCamera"

  /** The prim the camera is aimed at. */
  const ObjectPrimPath: String := "/World/clean_object"

  /** Frames per second the camera is created with. */
  const CameraFrequency: int := 30

  datatype Resolution = Resolution(width: int, height: int)

  const DefaultResolution: Resolution := Resolution(1920, 1080)

  /**
    The repository path `__init__` settles on: an explicit path wins;
    otherwise the stage URL up to its first `/scenes/`; otherwise the
    current working directory.
   */
  function RepoPath(explicit: Option<String>, stageUrl: String, cwd: String): (r: String)
    ensures explicit.Some? ==> r == explicit.value
    ensures explicit.None? && In(ScenesSeparator, stageUrl) ==>
              r <= stageUrl && OccursAt(stageUrl, ScenesSeparator, |r|) && !In(ScenesSeparator, r)
    ensures explicit.None? && In(ScenesSeparator, stageUrl) ==>
              forall j: nat :: j < |r| ==> !OccursAt(stageUrl, ScenesSeparator, j)
    ensures explicit.None? && !In(ScenesSeparator, stageUrl) ==> r == cwd
  {
    match explicit
    case Some(p) => p
    case None =>
      if In(ScenesSeparator, stageUrl) then SplitHead(stageUrl, ScenesSeparator) else cwd
  }

  /** `os.path.join(repo_path, "outputs", "rendered_images")`. */
  function OutputDir(repo: String): String {
    JoinPath(JoinPath(repo, "outputs"), "rendered_images")
  }

  /**
    The output directory lies inside the repository: it is the repository
    path followed by `outputs/rendered_images`, with a `/` in between
    exactly when the repository path is non-empty and lacks a trailing one.
   */
  lemma OutputDirUnderRepo(repo: String)
    ensures repo <= OutputDir(repo)
    ensures OutputDir(repo)[|repo|..] == Separator(repo) + "outputs" + "/" + "rendered_images"
  {
  }

  /**
    A URL with a `/scenes/` segment gives the repository the text before
    the segment, whatever the working directory: the stage URL is that path,
    the separator and the scene's own path.
   */
  lemma RepoPathFromSceneUrl(repo: String, scene: String, cwd: String)
    requires !In(ScenesSeparator, repo + "/scenes")
    ensures RepoPath(None, repo + ScenesSeparator + scene, cwd) == repo
  {
    var url := repo + ScenesSeparator + scene;
    assert url[..|repo|] == repo;
    assert OccursAt(url, ScenesSeparator, |repo|);
    forall j: nat | j < |repo| ensures !OccursAt(url, ScenesSeparator, j) {
      if OccursAt(url, ScenesSeparator, j) {
        var head := repo + "/scenes";
        assert url[..|head|] == head;
        assert head[j..j + |ScenesSeparator|] == url[j..j + |ScenesSeparator|];
        assert OccursAt(head, ScenesSeparator, j);
        assert false;
      }
    }
    SplitHeadUnique(url, ScenesSeparator, repo);
  }

  /** The point in create_camera's body at which a host call raises. */
  datatype HostFault =
    | NoFault
    | AtCameraConstruction   // Camera(...)
    | AtInitialize           // camera.initialize()
    | AtStageQuery           // get_stage() / GetPrimAtPath
    | AtBoundingBox          // BBoxCache.ComputeWorldBound (valid prim only)
    | AtPositioning          // set_world_pose(position) (valid prim only)
    | AtOrientation          // look_at, matrix_to_quaternion, final set_world_pose

  /** Does the body reach the faulty host call, so that create_camera returns False? */
  predicate Raises(fault: HostFault, bound: Option<Range3>) {
    match fault
    case NoFault => false
    case AtBoundingBox => bound.Some?
    case AtPositioning => bound.Some?
    case _ => true
  }

  /** Does the body get past `camera.initialize()`? */
  predicate Initializes(fault: HostFault) {
    !(fault.AtCameraConstruction? || fault.AtInitialize?)
  }

  /** Does the body move the camera to the framing position? */
  predicate Positions(fault: HostFault, bound: Option<Range3>) {
    bound.Some? && (fault.NoFault? || fault.AtOrientation?)
  }

  /**
    The host's camera object, reduced to what create_camera sets: where it
    stands and what it was last oriented towards (the look-at target; the
    rotation itself is host mathematics).
   */
  class Camera {
    const primPath: String
    const frequency: int
    const resolution: Resolution
    var initialized: bool
    var position: Vec3
    var aim: Option<Vec3>

    constructor (primPath: String, position: Vec3, frequency: int, resolution: Resolution)
      ensures this.primPath == primPath && this.frequency == frequency && this.resolution == resolution
      ensures this.position == position && !initialized && aim == None
    {
      this.primPath := primPath;
      this.frequency := frequency;
      this.resolution := resolution;
      this.position := position;
      initialized := false;
      aim := None;
    }

    method Initialize()
      modifies this
      ensures initialized && position == old(position) && aim == old(aim)
    {
      initialized := true;
    }

    /** `set_world_pose(position=p)`: moves the camera, keeps its orientation. */
    method SetWorldPose(p: Vec3)
      modifies this
      ensures position == p && aim == old(aim) && initialized == old(initialized)
    {
      position := p;
    }

    /**
      `look_at(get_world_pose()[0], target, up)` and the `set_world_pose`
      that applies it: the camera keeps its position and now faces `target`.
      Look-at is undefined when the eye is the target, and, with the Z-up
      vector, when the eye is straight above or below the target.
     */
    method LookAt(target: Vec3, up: Vec3)
      requires position != target
      requires position.x != target.x || position.y != target.y
      modifies this
      ensures aim == Some(target) && position == old(position) && initialized == old(initialized)
    {
      aim := Some(target);
    }
  }

  class CameraSetup {
    const repoPath: String
    const outputDir: String
    const resolution: Resolution
    const cameraPath: String
    var camera: Camera?

    /**
      `CameraSetup(repo_path)`: `stageUrl` and `cwd` stand for what the host
      and the operating system report; only an absent `repo_path` reads them.
     */
    constructor (explicitRepoPath: Option<String>, stageUrl: String, cwd: String)
      ensures repoPath == RepoPath(explicitRepoPath, stageUrl, cwd)
      ensures outputDir == OutputDir(repoPath)
      ensures resolution == DefaultResolution && cameraPath == RenderCameraPath
      ensures camera == null
    {
      var repo := RepoPath(explicitRepoPath, stageUrl, cwd);
      repoPath := repo;
      outputDir := OutputDir(repo);
      resolution := DefaultResolution;
      cameraPath := RenderCameraPath;
      camera := null;
    }

    /**
      `create_camera()`. `bound` is the bounding range of the prim at
      `ObjectPrimPath`, or None when that prim is not valid; `fault` names the host call that
      raises, if any. The result is True exactly when no reached host call
      raises. Once the camera object exists it is kept, however far the
      body got; on success it stands at the framing position and faces the
      framing target.
     */
    method CreateCamera(bound: Option<Range3>, fault: HostFault) returns (ok: bool)
      modifies this
      ensures ok <==> !Raises(fault, bound)
      ensures fault.AtCameraConstruction? ==> camera == old(camera)
      ensures !fault.AtCameraConstruction? ==>
                camera != null && fresh(camera) &&
                camera.primPath == cameraPath && camera.resolution == resolution &&
                camera.frequency == CameraFrequency &&
                camera.initialized == Initializes(fault) &&
                camera.position == (if Positions(fault, bound) then Frame(bound).position else InitialPosition) &&
                camera.aim == (if ok then Some(Frame(bound).target) else None)
      ensures ok ==> camera.position == Frame(bound).position && camera.position != Frame(bound).target
    {
      if fault.AtCameraConstruction? {
        return false;
      }
      var cam := new Camera(cameraPath, InitialPosition, CameraFrequency, resolution);
      camera := cam;
      if fault.AtInitialize? {
        return false;
      }
      cam.Initialize();
      if fault.AtStageQuery? {
        return false;
      }
      var target: Vec3;
      if bound.Some? {
        if fault.AtBoundingBox? {
          return false;
        }
        var range := bound.value;
        target := Midpoint(range);
        var position := FramingPosition(target, Size(range));
        if fault.AtPositioning? {
          return false;
        }
        cam.SetWorldPose(position);
      } else {
        target := Origin;
      }
      if fault.AtOrientation? {
        return false;
      }
      cam.LookAt(target, Up);
      ok := true;
    }

    /** `get_camera()`: the camera object, None until one has been created. */
    method GetCamera() returns (c: Camera?)
      ensures c == camera
    {
      c := camera;
    }
  }
}

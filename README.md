# Camera auto-framing and repository-path derivation, modelled in Dafny

The repository holds two scripts that run inside a 3D simulation host. The
camera script (`CameraSetup`) works out where the repository and its
output directory are. It then creates a render camera and aims it at the
object `/World/clean_object`. The camera stands three times the object's
largest dimension away along x and y, half of that above, and never
closer than 0.5. The verification script (`environment_verification`)
reports the working directory, whether the timeline is playing and, for a
loaded stage, its URL, the repository path derived from that URL, and
whether two expected prims exist.

This project models the logic of both scripts. Every call into the host
becomes a parameter: the stage URL, the working directory, the object's
bounding range, the prims present, and the host call that raises.

- `wrappers.dfy`: `Option`, which stands for Python's `None`.
- `py_strings.dfy` (module `PyStrings`): Python's `sub in s`, `s.find`,
  `s.split(sep)[0]` and POSIX `os.path.join`, over `seq<char>`.
- `camera_framing.dfy` (module `CameraFraming`): the framing arithmetic over
  `real`. It covers the bounding-range midpoint and size, the largest
  dimension, the camera distance, the camera position, and the fallback
  to the origin.
- `setup_camera.dfy` (module `SetupCamera`): the repository-path and
  output-directory functions, plus two classes. `CameraSetup` has the
  script's fields and methods. `Camera` stands in for the host camera
  object, with the pose fields the script sets.
- `env_verification.dfy` (module `EnvVerification`): the diagnostic report
  as a value, with the repository-path extraction exactly as written.

The central property is `CameraFraming.Frame`. Whether or not the object
prim is valid, the camera never stands on its target, nor straight above or
below it. So the look-at call in `CreateCamera` is always well defined: it
requires eye ≠ target and a view direction that is not parallel to the
Z-up vector.

## Model

| member | source | states |
|---|---|---|
| `PyStrings.FindFrom` | src/camera-scripts/setup_camera.py:16 | the result is the first index at or after `k` where the substring occurs; no occurrence at or after `k` comes before it, and there is none when the result is None |
| `PyStrings.Find` | src/env_verification.py:29 | the index of the first occurrence of the substring; None exactly when it occurs nowhere |
| `PyStrings.In` | src/env_verification.py:29 | Python's `sub in s` holds exactly when `sub` occurs in `s` at some index |
| `PyStrings.SplitHead` | src/camera-scripts/setup_camera.py:17 | `s.split(sep)[0]` is a prefix of `s` that does not contain `sep`; `sep` starts right after it and nowhere earlier; without `sep` it is the whole of `s` |
| `PyStrings.SplitHeadUnique` | src/camera-scripts/setup_camera.py:17 | any prefix that is followed by `sep`, with `sep` starting nowhere before it, is the split head |
| `PyStrings.SplitHeadRoundTrip` | src/env_verification.py:30 | head, separator and the rest of the URL put back together give the URL |
| `PyStrings.JoinPath` | src/camera-scripts/setup_camera.py:24 | an absolute component replaces the path; a relative one is appended, with one `/` in between exactly when the path is non-empty and lacks a trailing one |
| `CameraFraming.Midpoint` | src/camera-scripts/setup_camera.py:59-60 | the target is halfway between the range's corners on every axis |
| `CameraFraming.Size` | src/camera-scripts/setup_camera.py:63 | the lower corner plus the size is the upper corner |
| `CameraFraming.MaxDim` | src/camera-scripts/setup_camera.py:64 | `max_dim` is at least each size component and equals one of them |
| `CameraFraming.CameraDistance` | src/camera-scripts/setup_camera.py:65 | the distance is at least 0.5 and at least 3·`max_dim`; it is 3·`max_dim` exactly when that is at least 0.5, and 0.5 exactly when 3·`max_dim` is at most 0.5 |
| `CameraFraming.FramingPosition` | src/camera-scripts/setup_camera.py:68 | the camera stands the distance away from the target along x and y and half of it along z, so it exceeds the target in every coordinate |
| `CameraFraming.Frame` | src/camera-scripts/setup_camera.py:56-73 | a valid prim gives the range midpoint as target and the framing position; an invalid prim gives the origin as target and the initial (0.5, 0.5, 0.5) as position; in both cases the position differs from the target, in x and y as well |
| `CameraFraming.CameraOutsideBox` | src/camera-scripts/setup_camera.py:63-68 | for a non-empty bounding range the camera stands beyond the range's upper corner on every axis |
| `CameraFraming.UnitCubeFraming` | src/camera-scripts/setup_camera.py:59-68 | a unit cube at the origin puts the camera at (3, 3, 1.5) |
| `CameraFraming.DegenerateBoxFraming` | src/camera-scripts/setup_camera.py:59-68 | a point-sized object at (2, 2, 2) gets the minimum distance: camera at (2.5, 2.5, 2.25) |
| `SetupCamera.RepoPath` | src/camera-scripts/setup_camera.py:13-19 | an explicit repository path is used unchanged; otherwise a URL with `/scenes/` gives the prefix before its first occurrence, which contains no `/scenes/`; otherwise the working directory |
| `SetupCamera.RepoPathFromSceneUrl` | src/camera-scripts/setup_camera.py:16-17 | for a URL made of a repository path, `/scenes/` and a scene path, the derived repository path is that repository path, whatever the working directory |
| `SetupCamera.OutputDir` | src/camera-scripts/setup_camera.py:24 | the output directory is the repository path followed by `outputs/rendered_images`, with a `/` in between unless the repository path is empty or already ends in one |
| `SetupCamera.OutputDirUnderRepo` | src/camera-scripts/setup_camera.py:24 | the output directory is the repository path followed by `outputs/rendered_images`, with a `/` in between unless the repository path is empty or already ends in one |
| `SetupCamera.Camera.constructor` | src/camera-scripts/setup_camera.py:44-49 | a new camera has the given prim path, position, frequency and resolution, is not initialized and has no orientation |
| `SetupCamera.Camera.Initialize` | src/camera-scripts/setup_camera.py:50 | initializing leaves the pose alone |
| `SetupCamera.Camera.SetWorldPose` | src/camera-scripts/setup_camera.py:69 | setting the position keeps the orientation |
| `SetupCamera.Camera.LookAt` | src/camera-scripts/setup_camera.py:80-84 | needs eye ≠ target and a view direction not parallel to Z-up (eye and target differ in x or y); afterwards the camera faces the target from the same position |
| `SetupCamera.CameraSetup.constructor` | src/camera-scripts/setup_camera.py:11-30 | the fields are the derived repository path, its output directory, resolution 1920×1080, camera path `/World/RenderCamera`, and no camera |
| `SetupCamera.CameraSetup.CreateCamera` | src/camera-scripts/setup_camera.py:35-90 | returns true exactly when no reached host call raises; a failed construction keeps the old camera; otherwise the new camera is kept, positioned only if the framing step was reached, and on success it stands at the framing position facing the framing target |
| `SetupCamera.CameraSetup.GetCamera` | src/camera-scripts/setup_camera.py:92-96 | returns the current camera field, which is null until `create_camera` builds one |
| `EnvVerification.SeparatorContainsGuard` | src/env_verification.py:29-30 | an occurrence of `/scenes/` is an occurrence of `/scenes` at the same index |
| `EnvVerification.SeparatorPassesGuard` | src/env_verification.py:29-30 | a URL with `/scenes/` passes the `/scenes` guard |
| `EnvVerification.ReportedRepoPath` | src/env_verification.py:29-34 | a repository path is reported exactly when the URL contains `/scenes`; it is always a prefix of the URL; with a `/scenes/` present it is the text before the first one |
| `EnvVerification.GuardSplitMismatch` | src/env_verification.py:29-30 | a URL with `/scenes` but no `/scenes/` is reported whole as the repository path |
| `EnvVerification.GuardSplitMismatchExample` | src/env_verification.py:29-30 | `/repo/scenes` is reported as its own repository path |
| `EnvVerification.CorrectedRepoPath` | src/env_verification.py:29-30 | with the guard using `/scenes/` too, a path is reported exactly when the URL has `/scenes/`, and it is then a proper prefix followed by `/scenes/` |
| `EnvVerification.CorrectedRepoPathAgrees` | src/env_verification.py:29-30 | the corrected path equals the as-written one whenever the URL has `/scenes/`, and equals the path `CameraSetup` derives from the same URL |
| `EnvVerification.EnvironmentVerification` | src/env_verification.py:6-47 | always reports the working directory and timeline state; reports a stage section exactly when a stage is loaded, holding its URL, the repository path as extracted, and membership of the two prim paths |
| `EnvVerification.PrimChecksIgnoreUrl` | src/env_verification.py:37-44 | the prim checks depend only on the stage's prims, not on its URL |
| `EnvVerification.RelativePrimPathsNotFound` | src/env_verification.py:37-44 | both prim paths are relative, so on a stage whose prims all have absolute paths neither prim is reported as existing |

## Left out

- Host calls are not modelled; their results are parameters. This covers `get_stage`, `get_stage_url`, `GetPrimAtPath`, `IsValid`, `BBoxCache.ComputeWorldBound`, `Camera(...)`, `initialize`, `set_world_pose`, `get_world_pose` and the timeline interface. `get_world_pose()` is taken to return the position last set.
- The stage URL is always a string. A `None` URL would make `in` raise a `TypeError`; that case is not modelled.
- Whether `GetRange()` of the world bound is in world coordinates is host behaviour. So is what an empty range looks like (infinite corners). The model takes the range the host returns, with real corners.
- `look_at` and `matrix_to_quaternion` are host rotation math and are not modelled. The camera records only the target it was oriented towards (`Camera.aim`). The model keeps the precondition eye ≠ target, which every call discharges. Unit-norm quaternions are not modelled.
- Coordinates are `real`. numpy floating-point rounding is not modelled.
- `os.makedirs` and every `print` (including the warnings) are left out as I/O. `os.getcwd` is a parameter.
- `os.path.join` is modelled with its POSIX rules only, not Windows drive or backslash handling.
- Only the boolean result of `create_camera` is modelled, not which exception was caught. The raising call is a `HostFault` parameter.
- `CameraSetup`'s path, resolution and camera-path fields are `const`, because no code assigns them after `__init__`.
- The `__main__` blocks are not modelled. The one in the camera script calls `create_camera` on the class instead of an instance.
- `environment_verification` passes the relative prim paths straight to the host. Whether the host resolves them against the root is host behaviour. The model asks whether the literal path is among the stage's valid prim paths.
- `CameraSetup.__init__` tests for and splits on `/scenes/`; `environment_verification` tests for `/scenes` but splits on `/scenes/`. The model follows each script as written (see Findings).

## Findings

| source | as written | input that shows it | evidently intended | confidence | as-written member | corrected member |
|---|---|---|---|---|---|---|
| src/env_verification.py:29-30 | guard `"/scenes" in stage_path`, but split on `"/scenes/"` | `/repo/scenes` (also any URL with a `/scenes_old/` directory): reported repository path is the whole URL | report a path only when `/scenes/` occurs, as `CameraSetup.__init__` does, so the path is a proper prefix of the URL | high (not executed) | `EnvVerification.GuardSplitMismatchExample` | `EnvVerification.CorrectedRepoPath` |

`EnvironmentVerification` keeps the as-written extraction because it models
what the script prints. `CorrectedRepoPathAgrees` proves that the corrected
definition differs from it only on URLs affected by the mismatch, and that
it matches the path `CameraSetup` derives.

# Flat drawing demonstration: path capture and robot program synthesis

This project models the two pieces of logic in the drawing application
`app_drawing_in_2D.py`:

- **Path capture.** The operator clicks points on a 300 mm × 300 mm plane.
  A click outside the axes has no coordinates and is ignored. A click within
  2 mm of the last point is the end gesture. It switches the live preview off
  (the pointer-motion handler is disconnected) and appends nothing. Every
  other click is appended to the path. "Reset for new path" empties the path
  and reconnects the preview.
- **Trajectory synthesis.** "Draw with robot" turns the path into an ordered
  robot program:
  1. a joint move home;
  2. an approach over the first point, 100 mm above hover height (110 mm above the plane);
  3. a settle at hover height;
  4. a 1 s dwell;
  5. blended linear moves through every point but the last;
  6. the last point without blending;
  7. a 1 s dwell;
  8. a retract over the last point, 100 mm above hover height (110 mm above the plane);
  9. a joint move home.

  Each pose is `[-x/1000, y/1000, -z, 0, 0, 0]`, in metres, with X inverted.

Modules:

- `Wrappers` (`wrappers.dfy`): `Option` and `Result`.
- `Geometry` (`geometry.dfy`): points, the distance test without a square
  root, and the conversion from a point to a pose with its inverse.
- `Capture` (`capture.dfy`): the value-level `CaptureState` with `Click`
  and `Replay`, used to reason about whole click sequences. It also holds the
  class `DrawingApp`, whose fields `points` and `previewActive` are updated
  in place by `OnClick`, `StopPreview` and `ResetPlane`. `OnClick` is proved
  to follow `Click`.
- `Trajectory` (`trajectory.dfy`): the `Command` datatype (`Joint`, `Linear`,
  `Sleep`), the program as a function (`Program` / `Synthesis`) and
  `SendToRobot`, which builds it one command at a time in a loop.

Three facts about the program shape the model:

- The click handler stays connected after the end gesture. Only the motion
  handler is disconnected (lines 131-132). The click handler connected at
  line 75 stays live, so a later click far from the last point is still
  appended (`ClicksAfterEndStillAppend`).
- Synthesis accepts any non-empty path, whether or not the end gesture was
  made.
- A program for n points has n + 7 entries: 2 joint moves, n + 3 linear
  moves and 2 dwells.

## Model

| member | source | states |
|---|---|---|
| `Geometry.SquaresPreserveOrder` | app_drawing_in_2D.py:102-103 | for non-negative r and tol, r <= tol exactly when r² <= tol² |
| `Geometry.EuclideanTestAgrees` | app_drawing_in_2D.py:102-103 | the source's test sqrt(dx² + dy²) <= tol agrees with the squared-distance test `WithinTolerance` for every tol >= 0 |
| `Geometry.LinearPose` | app_drawing_in_2D.py:194-219 | the pose of a point at height z has six entries; reading it back with `PosePoint` undoes the mm-to-m conversion and the X sign flip and gives the point; its z entry is -z and its orientation is zero |
| `Geometry.LinearPoseInjective` | app_drawing_in_2D.py:194-200 | two linear poses are equal only for the same point at the same height |
| `Capture.DrawingApp.constructor` | app_drawing_in_2D.py:21-76 | a new application has no points and a connected preview |
| `Capture.DrawingApp.OnClick` | app_drawing_in_2D.py:97-108 | absent coordinates change nothing; a sample within 2 mm of the last point leaves the points and turns the preview off; any other sample is appended, the first one always; separation of consecutive points is kept |
| `Capture.DrawingApp.StopPreview` | app_drawing_in_2D.py:130-132 | the preview is off afterwards and the points are unchanged |
| `Capture.DrawingApp.ResetPlane` | app_drawing_in_2D.py:150-166 | from any state, the points are empty and the preview is on, so a second reset changes nothing |
| `Capture.Click` | app_drawing_in_2D.py:97-108 | one click keeps the old points in place, adds at most one point and only for a present sample, and never turns the preview back on |
| `Capture.Replay` | app_drawing_in_2D.py:97-108 | clicks handled in arrival order keep the old path as a prefix and add at most one point per present sample |
| `Capture.ClickKeepsSeparated` | app_drawing_in_2D.py:100-108 | a click never makes two consecutive points lie within the end tolerance |
| `Capture.ReplayKeepsSeparated` | app_drawing_in_2D.py:97-108 | any sequence of clicks keeps a separated path separated |
| `Capture.ReplayAppendsSamplesInOrder` | app_drawing_in_2D.py:97-108 | after any sequence of clicks the old path is a prefix of the new one, and the added points are present samples in arrival order |
| `Capture.SeparatedSamplesAllAppended` | app_drawing_in_2D.py:97-108 | when no present sample is within 2 mm of the point before it, every sample is appended in order and the preview is unchanged |
| `Capture.AllAppendedIffSeparated` | app_drawing_in_2D.py:97-108 | from a separated path, the clicks append exactly all present samples, in order and with the preview unchanged, if and only if the path followed by the samples is separated |
| `Capture.ReplayKeepsPreviewOff` | app_drawing_in_2D.py:97-132 | no click turns a switched-off preview back on |
| `Capture.ClicksAfterEndStillAppend` | app_drawing_in_2D.py:97-132 | from [(10,10)], the sample (11,10) ends the path and is not appended; a later sample (50,50) is still appended |
| `Trajectory.Program` | app_drawing_in_2D.py:192-222 | the program of a non-empty path has n + 7 entries and starts and ends with the joint move home |
| `Trajectory.SendToRobot` | app_drawing_in_2D.py:192-222 | the command list built one command at a time is the program of the path; an empty path yields `EmptyPath` and no program |
| `Trajectory.ProgramCounts` | app_drawing_in_2D.py:192-222 | a path of n points gives n + 7 entries: 2 joint moves, n + 3 linear moves and 2 dwells |
| `Trajectory.ProgramLayout` | app_drawing_in_2D.py:192-222 | entries in order: home, approach and settle over the first point, dwell, blended moves through points 0..n-2, last point unblended, dwell, retract over the last point, home |
| `Trajectory.BlendPolicy` | app_drawing_in_2D.py:196-219 | a linear move blends (radius 0.005) exactly when it is one of the moves of the loop over all points but the last (entries 4 .. n + 2); all other linear moves have radius 0 |
| `Trajectory.LinearMovesWellFormed` | app_drawing_in_2D.py:194-219 | every linear move has speed 0.15 and zero orientation, and targets a path point; it is either at z = -0.010 with accel 0.5, or at z = -0.110 with accel 0.25 and no blending |
| `Trajectory.DrawingVisitsPathInOrder` | app_drawing_in_2D.py:199-213 | the n moves at drawing height after the first dwell, read back as points, are exactly the path in order |
| `Trajectory.JointAndSleepPositions` | app_drawing_in_2D.py:192-222 | joint moves are exactly the first and last entries, both to home at speed and accel 1.6; dwells are exactly entries 3 and n + 4, each 1 s |
| `Trajectory.FirstPointRepeated` | app_drawing_in_2D.py:199-209 | with two or more points, the settle move and the first blended move go to the same pose |
| `Trajectory.PoseExample` | app_drawing_in_2D.py:208-209 | the point (150, 75) at drawing height gives the pose (-0.150, 0.075, -0.010, 0, 0, 0) |

## Left out

- Window, figure, axes, buttons, logo loading and `on_close` (lines 14-95): user-interface setup and asset I/O.
- Rendering in `onclick`, `onmotion` and `stop_preview` (markers, preview circle and line, canvas redraws). Only the preview flag of `stop_preview` and `reset_plane` is modelled. `onmotion` only draws, so it is not modelled.
- `finalize_path` saving the figure as a PNG (lines 139-145): file I/O. Its call to `send_to_robot` is `SendToRobot`.
- The robot link: `robot(...)`, `Connect`, `SetScriptName`, `SetPayload`, `SetTCP`, `SetRefFrame`, `SendScript`, `sleep(3)`, `Disconnect`. These are network I/O with behaviour not visible here. The payload, TCP and reference-frame constants are passed only to those calls. The model stops at the command list.
- The constant move-kind arguments of `AddMove` (`'J', 'J'` and `'L', 'P'`) are not modelled. Nor is `poseTrans=True`, which makes every linear pose relative to the reference frame `grid_frame` set at line 190. The poses of `Linear` commands are in that grid frame, not in the robot base frame.
- An empty path: the source has already connected and queued the first home move when `points[0]` raises. The model returns `EmptyPath` and no program; the half-built script is never sent.
- `np.deg2rad` of the home pose (line 179): floating-point library numerics. The home joint pose is a parameter of synthesis and appears unchanged in both joint moves.
- Floating point: coordinates, poses and distances are exact `real` values. Float rounding of `x / 1000.0`, of `0.010 + 0.1` and of the distance is not modelled.
- `math.sqrt` in the distance check: replaced by the squared-distance comparison, proved equivalent in `EuclideanTestAgrees`.
- `print` diagnostics.
- Connection identifiers: `previewActive` stands for "the motion handler is connected". Matplotlib returns the existing id when the same bound method is connected again, so a reset without an end gesture does not leave a second handler behind. The truthiness test on `motion_cid` (line 131) is not modelled.

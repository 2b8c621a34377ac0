# Stage control and raster imaging of stimage, modelled in Dafny

stimage drives a microscope rig. A two-axis stepper stage carries capillary
tubes under a camera. The camera photographs each tube frame by frame, over
and over, for hours. This project models the integer bookkeeping around the
stepper hardware and proves properties of it:

- `control_stage.dfy`, module `ControlStage`. The checked XY stage of
  `control/stage.py`. It tracks the position in steps, the soft limits
  `[0, maxX] x [0, maxY]` (7000 x 7000) and one "initialized" interlock per
  axis. It has the move check `_check_move_valid`, the unit-pulse moves
  `moveX`/`moveY` (with the `override` flag used by homing), `goto`, which
  checks the whole target before moving either axis, and homing
  (`initialize_stage`). Whether a motor holds current is a ghost flag. Every
  pulse sets it and the `finally` release clears it.
- `legacy_stage.dfy`, module `LegacyStage`. The older stage of `stage.py`.
  Its moves are unchecked. Its `goto` rejects only a target above an axis
  length, so negative targets are accepted. It then walks one unit move at a
  time, X first and then Y. Its homing sets both positions to 0 and never
  releases the motors it stepped. `goto` is specified by the staircase path
  `Staircase`, which is built from a one-step-at-a-time `Walk`.
- `scan_plan.dfy`, module `ScanPlan`. What the imaging loop of `stimage.py`
  asks for, as pure functions of the tube count, the run number and the
  origin `(x0, y0)`:
  - the events of a frame (wait for the capture in flight, start a capture
    tagged `(j, i, seq_nb)`, step X by ±250);
  - the Y step between tubes;
  - the `goto(x0, y0)` that ends each run;
  - the positions where images are taken when no move is rejected;
  - the number of runs the deadline test lets start.

  The lemmas cover:
  - the serpentine geometry;
  - the tag order;
  - tags never being reused;
  - at most one capture in flight;
  - the net displacement of each tube.
- `imaging.dfy`, module `Imaging`. `check_alignment` and the scan loop of
  `main`, as methods that drive a `ControlStage.Stage`. The loop body of
  `main` is split into one method per tube (`ScanTube`) and one per run
  (`ScanRun`). Each method is proved to issue exactly the events of the
  `ScanPlan` functions. From a homed origin where the raster fits, each
  image is taken at its raster position and every run ends back at the
  origin. For a stage that `main` builds itself, the scan starts at
  `(7000, 0)`. There, every image of a scan of up to 29 tubes lands on the
  raster.

Hardware and the environment are inputs or nothing:
- The number of homing probes before a limit switch fires is an input.
- The clock is a sequence of answers to `time() < t_end`, one per test of
  the run loop. The process is taken to stop from outside after the last
  answer.
- A capture is the tag it is started with. A wait for the previous capture
  is an `Await` event.

## Model

| member | source | states |
|---|---|---|
| `ControlStage.Stage.constructor` | control/stage.py:14-40 | A new stage is at (0, 0) with maxX = maxY = 7000, neither axis initialized and both motors released. |
| `ControlStage.Stage.CheckMoveValid` | control/stage.py:137-152 | A target is accepted exactly when it does not move an uninitialized axis and lies in [0, maxX] x [0, maxY]. A target that leaves an axis unchanged is never blocked by that axis's interlock. |
| `ControlStage.Stage.MoveX` | control/stage.py:88-107 | A rejected non-override move changes nothing and does not touch the motor. Otherwise posX changes by exactly nSteps in abs(nSteps) unit pulses, posY is untouched and the X motor ends released. A non-override move from an in-bounds position stays in bounds. |
| `ControlStage.Stage.MoveY` | control/stage.py:109-128 | The same as MoveX on the Y axis, with posX untouched. |
| `ControlStage.Stage.InitializeStage` | control/stage.py:48-70 | Whatever the probe and back-off moves did, the stage ends with posX = maxX, X initialized and the X motor released. Unless xOnly it also ends with posY = 0, Y initialized and the Y motor released. With xOnly the Y fields are untouched. |
| `ControlStage.Stage.Goto` | control/stage.py:73-85 | An invalid target is a no-op. A valid target from an in-bounds position is reached exactly, with both motors released, so the inner checks of the two moves never reject. The clause for an out-of-bounds start states exactly which axis moves. |
| `LegacyStage.Stage.constructor` | stage.py:11-32 | A new legacy stage is at (0, 0) with maxX = 40000, maxY = 30000 and both motors released. |
| `LegacyStage.Stage.InitializeStage` | stage.py:34-44 | However many probe pulses were taken, the stage ends at (0, 0). A motor that was pulsed is left energized, because there is no release. |
| `LegacyStage.Stage.MoveX` | stage.py:75-88 | posX changes by exactly nSteps with no bounds or initialization check, posY is untouched and the X motor ends released. |
| `LegacyStage.Stage.MoveY` | stage.py:90-103 | posY changes by exactly nSteps with no check, posX is untouched and the Y motor ends released. |
| `LegacyStage.Stage.Goto` | stage.py:47-73 | The move is rejected, with nothing changed, exactly when x > maxX or y > maxY, so negative targets are accepted. Otherwise the stage ends at (x, y) after passing through exactly the positions of `Staircase`. Each motor ends released exactly when its axis moved or it was already released, so a motor left energized by homing stays energized only if goto does not move that axis. |
| `LegacyStage.Stage.WalkXTo` | stage.py:55-63 | The X half of goto ends with posX == x after passing through exactly the positions of `Walk` from the old posX, leaves Y alone. The X motor ends released whenever X moved, and is otherwise as it was. |
| `LegacyStage.Stage.WalkYTo` | stage.py:65-73 | The same on the Y axis, ending with posY == y, with the Y motor released whenever Y moved. |
| `LegacyStage.WalkShape` | stage.py:56-61 | A one-step-at-a-time walk has abs(dx) + 1 positions, starts and ends where asked, and each step moves one unit towards the target, so each while loop decreases abs(posX - x). |
| `LegacyStage.WalkExtend` | stage.py:57-58 | One more unit move in the walk's direction extends the walk by exactly the new position. |
| `LegacyStage.StaircaseShape` | stage.py:55-73 | goto's path has abs(dx) + abs(dy) unit steps. The X phase keeps the old Y and the Y phase keeps the new X. |
| `ScanPlan.FramesShifts` | stimage.py:95-96 | Each frame of tube i asks for one X move of -250 when i is even and +250 when i is odd, and for no Y move. |
| `ScanPlan.TubeXDisplacement` | stimage.py:64-96 | With n_img_per_tube = 4000 // 250 frames, a tube's X moves add up to exactly -4000 (even tube) or +4000 (odd tube). |
| `ScanPlan.TubesYShifts` | stimage.py:104-105 | One +250 Y move follows every tube except the last of the run. |
| `ScanPlan.TubesStepTags` | stimage.py:79-90 | One more tube adds exactly its frames' tags (0, i, seq_nb) ... (15, i, seq_nb) to the tags of the earlier tubes. |
| `ScanPlan.TubesStepYShifts` | stimage.py:79-105 | One more tube adds one Y move of +250 if it is not the last tube, and none otherwise. |
| `ScanPlan.RunYShifts` | stimage.py:79-105 | A run asks for exactly n_tubes - 1 Y moves of +CAPILLARY_Y_INTERVAL (none when n_tubes < 1). |
| `ScanPlan.FramesTags` | stimage.py:80-90 | The captures of one tube are tagged (0, i, seq_nb), (1, i, seq_nb), ... in frame order. |
| `ScanPlan.TubesTags` | stimage.py:79-90 | Capture m of a run's first tubes is tagged (m mod 16, m div 16, seq_nb): tube outer, frame inner. |
| `ScanPlan.RunTags` | stimage.py:79-90 | A run starts exactly n_tubes x n_img_per_tube captures, tagged in order with i outer and j inner, all with that run's seq_nb. |
| `ScanPlan.ScanTagsNeverReused` | stimage.py:70-108 | Over any number of runs no tag occurs twice, and every tag's seq_nb is below the number of runs. |
| `ScanPlan.AppendRunTags` | stimage.py:70-108 | Appending a run's tags, in tube-major order with seq_nb s, to pairwise distinct tags of runs before s keeps all tags pairwise distinct and their seq_nb at most s. |
| `ScanPlan.FramesInFlight` | stimage.py:83-90 | Within a tube the number of outstanding captures never exceeds one, and one is outstanding after the tube. |
| `ScanPlan.TubesInFlight` | stimage.py:79-90 | The same over the tubes of a run. |
| `ScanPlan.RunInFlight` | stimage.py:78-108 | The same over a whole run including the return goto. A capture stays outstanding into the next run. |
| `ScanPlan.ScanInFlight` | stimage.py:74-108 | Over any number of runs at most one capture is ever outstanding. Every capture after the first waits for the previous one. |
| `ScanPlan.ShotsPrefixStep` | stimage.py:79-96 | Each tube appends the raster positions of its frames, in frame order, to the positions of the earlier tubes. |
| `ScanPlan.RasterFrameStep` | stimage.py:95-96 | Each X move of ±250 takes the stage from one frame's position to the next. All frames of a tube lie within one capillary length below x0. |
| `ScanPlan.RasterTubeTurn` | stimage.py:95-105 | After a tube's last X move the stage stands at the next tube's X start, exactly one Y interval short of its row. |
| `ScanPlan.RunShotsInBounds` | stimage.py:95-105 | When the origin is at least 4000 from X = 0 and the last tube fits below maxY, every raster position lies within the soft limits. |
| `ScanPlan.RunShotsDistinct` | stimage.py:79-105 | No position is imaged twice within a run. |
| `ScanPlan.RunShotsSerpentine` | stimage.py:95-105 | Consecutive images of a run are exactly one X interval apart and at most one Y interval apart, including across a change of tube. There is no return stroke. |
| `ScanPlan.RasterNeighbours` | stimage.py:95-105 | Consecutive captures in raster order are one X interval apart and 0 or 1 Y interval apart. |
| `ScanPlan.RunsStarted` | stimage.py:77 | The runs started are those before the first false answer of `time() < t_end`. The answer is read only between runs, and duration == -1 never stops the loop. |
| `Imaging.CheckAlignment` | stimage.py:36-46 | On a homed, in-bounds stage with room for the probe moves, the stage visits (x-4000, y), then (x-4000, y+250), (x, y+250) and (x, y). With x_only it visits only (x-4000, y) and then (x, y). It ends where it started, with the X motor released and, unless x_only, the Y motor released. In every case a released stage stays released. |
| `Imaging.ScanFrame` | stimage.py:82-96 | One frame issues exactly `FrameEvents`: a wait only when a capture is in flight, then the capture, then the X move. The image is recorded at the position the stage holds when the capture starts, and on a fitting raster the stage moves to the next frame's position. |
| `Imaging.ScanTube` | stimage.py:80-105 | The driver issues exactly the events of `TubeEvents`. On a fitting raster each image is taken at its raster position and the stage ends at the next tube's start. A stage from which goto(x0, y0) was valid keeps it valid. |
| `Imaging.ScanRun` | stimage.py:78-108 | The driver issues exactly the events of `RunEvents`, ending with goto(x0, y0). From an in-bounds origin the stage is back at (x0, y0). On a fitting raster the images are taken at `RunShots`. |
| `Imaging.ImagingLoop` | stimage.py:61-108 | The number of runs is `RunsStarted`. The events are `ScanEvents` from the origin the loop reads, with seq_nb bumped after each run's goto. From an in-bounds origin the stage ends there, and on a fitting raster every image is taken at `ScanShots`. |
| `Imaging.ScanMain` | stimage.py:49-108 | A stage that `main` builds is homed with x_only exactly when n_tubes == 1: X is always initialized, and Y is initialized exactly when n_tubes != 1. It scans from (7000, 0). With 29 tubes or fewer, every image is taken on the serpentine raster and the stage ends at (7000, 0), released. For a stage passed in without the alignment check, the events are `ScanEvents` from the stage's own position. In every case the number of runs is `RunsStarted`. The alignment check runs exactly when asked. On a built stage it uses x_only exactly when n_tubes == 1, visiting (3000, 0) and (7000, 0), or also (3000, 250) and (7000, 250) when Y is checked. |

## Left out

- Camera capture (`control/camera.py`), the `multiprocessing` pool, `apply_async` and `get(timeout=10)` are left out: they are foreign I/O and concurrency. A capture is an event carrying its tag, and every wait for it succeeds.
- The failures that `get(timeout=10)` raises out of `main` are not modelled. One is the ten-second timeout. The other is the `IOError` that `camera_full` raises when the camera cannot be opened or returns no frame (control/camera.py:33-40), which `get` re-raises.
- Imaging.ScanFrame: the image is recorded at the position the stage holds when the capture is started. The source relies on `sleep(delay)` (stimage.py:93) to let the frame be grabbed before the `moveX` that follows. If the delay is too short, the real image is taken during or after the move. That timing is not modelled.
- The timestamp prefix of each filename is left out (`datetime`). Only the `(j, i, seq_nb)` tag is modelled.
- `time()`, `sleep(delay)`, the tqdm progress bars, `click.pause`, all logging and the `print` of a rejected legacy `goto` (stage.py:52) are left out. The clock is an input sequence of answers.
- `cli` in stimage.py is not part of this model. That covers option parsing, logging setup, `os.mkdir` and the floating-point delay mapping.
- Stepper pulses (`onestep`), `release`, the limit switches, `__del__`, `Stage.release()` and `_safe_shutdown` of control/stage.py are left out. They are hardware calls. Motor current is the ghost flag `energizedX`/`energizedY`.
- A hardware fault raised by `onestep` in the middle of a pulse train is not modelled: every pulse succeeds in the model. In control/stage.py:95-107 such a fault would leave `moveX`/`moveY` through the `finally`, which releases the motor. posX would then count only the completed pulses, and a `goto` would stop before its Y move (control/stage.py:82-85). In stage.py:75-103 there is no `finally`, so the faulting motor would stay energized.
- The homing loops wait on a limit switch with no bound. The number of probes before the switch fires is an input, so a switch that never fires is not modelled.
- An operator interrupt is modelled only at a run boundary, as the end of the clock answers. An interrupt in the middle of a run is not modelled.
- Imaging.ScanTube: positions are stated only when the raster fits (homed axes, origin at least 4000 from X = 0, last tube below maxY). Where a move is rejected, only the event sequence and the return-to-origin guarantee are stated.
- Imaging.ScanRun: the same restriction as ScanTube for the image positions.
- Imaging.ImagingLoop: the same restriction as ScanTube for the image positions. Return to the origin is stated only for an in-bounds origin.
- Imaging.ScanMain: positions, the end state and the alignment path are stated only for a stage that `main` builds itself. For a stage passed in, the run count is stated. The event sequence is stated only when no alignment check runs first, because a partly rejected check can leave the stage away from where it was passed in.
- Imaging.CheckAlignment: the path and the end position are stated only when all four moves are accepted.

Points where the code's behaviour is easy to mistake, and which the model follows:
- The pending capture is never awaited at a run boundary. The capture started last in a run is still in flight during `goto(x0, y0)` and is awaited at the first frame of the next run (`RunInFlight`).
- Homing has no step ceiling. Each homing loop runs until its limit switch fires.
- The legacy `initialize_stage` never releases the motors it pulses (`LegacyStage.Stage.InitializeStage`).

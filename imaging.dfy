/** The imaging driver of stimage.py: `check_alignment` and the scan loop of
    `main`, driving the checked stage of ControlStage. A capture is the tag
    it is started with (the background worker, the camera and the file are
    not modelled); `sleep`, the progress bars and the operator pauses do
    nothing here; the clock is the sequence of answers to `time() < t_end`. */
module Imaging {
  import opened ScanPlan
  import opened ControlStage

  /** The X stroke of the alignment check, in steps. */
  const AlignmentStroke: int := 4000

  /** Every move of a run is accepted from `origin`: X is homed, Y is homed
      if the run moves it, and the serpentine raster lies within the soft
      limits. */
  predicate RasterFits(stage: Stage, nTubes: int, origin: Pos)
    reads stage
  {
    stage.isInitializedX && (nTubes <= 1 || stage.isInitializedY) &&
    CapillaryLength <= origin.x <= stage.maxX && 0 <= origin.y <= stage.maxY &&
    (nTubes >= 1 ==> origin.y + (nTubes - 1) * CapillaryYInterval <= stage.maxY)
  }

  /** From an in-bounds origin, the stage stays in bounds and
      `goto(origin)` stays acceptable: accepted moves land in bounds and only
      move a homed axis, rejected ones change nothing. */
  predicate CanReturn(stage: Stage, origin: Pos)
    reads stage
  {
    stage.InBounds(origin.x, origin.y) ==>
      stage.InBounds(stage.posX, stage.posY) && stage.CheckMoveValid(origin.x, origin.y)
  }

  /** `check_alignment`: X out by 4000 steps and back, with one Y interval
      down and back in between unless xOnly. `path` is where the stage stands
      after each move; when every move is accepted it visits the corners of
      the alignment rectangle and ends where it started. */
  method CheckAlignment(stage: Stage, xOnly: bool) returns (ghost path: seq<Pos>)
    modifies stage`posX, stage`posY, stage`energizedX, stage`energizedY
    ensures old(stage.isInitializedX && (xOnly || stage.isInitializedY) &&
                stage.InBounds(stage.posX, stage.posY) && AlignmentStroke <= stage.posX &&
                (xOnly || stage.posY + CapillaryYInterval <= stage.maxY)) ==>
      stage.posX == old(stage.posX) && stage.posY == old(stage.posY) &&
      !stage.energizedX && (!xOnly ==> !stage.energizedY) &&
      path == (if xOnly then
                 [Pos(old(stage.posX) - AlignmentStroke, old(stage.posY)), Pos(old(stage.posX), old(stage.posY))]
               else
                 [Pos(old(stage.posX) - AlignmentStroke, old(stage.posY)),
                  Pos(old(stage.posX) - AlignmentStroke, old(stage.posY) + CapillaryYInterval),
                  Pos(old(stage.posX), old(stage.posY) + CapillaryYInterval),
                  Pos(old(stage.posX), old(stage.posY))])
    ensures old(stage.Released()) ==> stage.Released()
  {
    ghost var pulses := stage.MoveX(-AlignmentStroke, false);
    path := [Pos(stage.posX, stage.posY)];
    if !xOnly {
      pulses := stage.MoveY(CapillaryYInterval, false);
      path := path + [Pos(stage.posX, stage.posY)];
    }
    pulses := stage.MoveX(AlignmentStroke, false);
    path := path + [Pos(stage.posX, stage.posY)];
    if !xOnly {
      pulses := stage.MoveY(-CapillaryYInterval, false);
      path := path + [Pos(stage.posX, stage.posY)];
    }
  }

  /** One pass of the `for j` body of `main`: wait for the capture in
      flight (if any), start the capture tagged (frame, tube, seqNb) where
      the stage stands (`shot`), then step X by one interval in the tube's
      direction. */
  method ScanFrame(stage: Stage, tube: nat, frame: nat, seqNb: nat, pending: bool,
                   ghost nTubes: int, ghost origin: Pos)
    returns (events: seq<Event>, ghost shot: Pos)
    modifies stage`posX, stage`energizedX
    ensures events == FrameEvents(tube, frame, seqNb, pending)
    ensures shot == Pos(old(stage.posX), stage.posY)
    ensures old(CanReturn(stage, origin)) ==> CanReturn(stage, origin)
    ensures old(stage.Released()) ==> stage.Released()
    ensures old(RasterFits(stage, nTubes, origin)) && tube < TubeCount(nTubes) && frame < ImagesPerTube &&
            old(stage.posX) == RasterPos(origin, tube, frame).x && stage.posY == RasterPos(origin, tube, frame).y ==>
      stage.posX == RasterPos(origin, tube, frame + 1).x
  {
    assert tube < TubeCount(nTubes) ==> tube * CapillaryYInterval <= (nTubes - 1) * CapillaryYInterval;
    events := [];
    if pending {
      events := events + [Await];
    }
    events := events + [Capture(Tag(frame, tube, seqNb))];
    shot := Pos(stage.posX, stage.posY);
    var dx := Direction(tube) * CapillaryXInterval;
    events := events + [ShiftX(dx)];
    RasterFrameStep(origin, tube, frame);
    RasterFrameStep(origin, tube, frame + 1);
    ghost var pulses := stage.MoveX(dx, false);
  }

  /** One pass of the `for i` body of `main`: the frames of tube `tube`, then
      one Y step unless this is the last tube. `shots` records where the
      stage stood at each capture. */
  method ScanTube(stage: Stage, tube: nat, nTubes: int, seqNb: nat, pending: bool, ghost origin: Pos)
    returns (events: seq<Event>, ghost shots: seq<Pos>)
    modifies stage`posX, stage`posY, stage`energizedX, stage`energizedY
    ensures events == TubeEvents(tube, nTubes, seqNb, pending)
    ensures old(CanReturn(stage, origin)) ==> CanReturn(stage, origin)
    ensures old(stage.Released()) ==> stage.Released()
    ensures old(RasterFits(stage, nTubes, origin)) && tube < TubeCount(nTubes) &&
            old(stage.posX) == RasterPos(origin, tube, 0).x && old(stage.posY) == RasterPos(origin, tube, 0).y ==>
      shots == seq(ImagesPerTube, j => RasterPos(origin, tube, j)) &&
      stage.posX == RasterPos(origin, tube + 1, 0).x &&
      stage.posY == (if tube < nTubes - 1 then RasterPos(origin, tube + 1, 0).y else old(stage.posY))
  {
    ghost var onRaster := RasterFits(stage, nTubes, origin) && tube < TubeCount(nTubes) &&
      stage.posX == RasterPos(origin, tube, 0).x && stage.posY == RasterPos(origin, tube, 0).y;
    var inFlight := pending;
    events, shots := [], [];
    for j := 0 to ImagesPerTube
      invariant events == FramesEvents(tube, j, seqNb, pending)
      invariant inFlight == (pending || j > 0)
      invariant stage.posY == old(stage.posY) && stage.energizedY == old(stage.energizedY)
      invariant old(CanReturn(stage, origin)) ==> CanReturn(stage, origin)
      invariant old(stage.Released()) ==> stage.Released()
      invariant onRaster ==>
        shots == seq(j, f => RasterPos(origin, tube, f)) && stage.posX == RasterPos(origin, tube, j).x
    {
      var frameEvents;
      ghost var shot;
      frameEvents, shot := ScanFrame(stage, tube, j, seqNb, inFlight, nTubes, origin);
      events := events + frameEvents;
      shots := shots + [shot];
      inFlight := true;
      assert seq(j + 1, f => RasterPos(origin, tube, f)) == seq(j, f => RasterPos(origin, tube, f)) + [RasterPos(origin, tube, j)];
    }
    RasterTubeTurn(origin, tube);
    if tube < nTubes - 1 {
      assert onRaster ==> origin.y + (tube + 1) * CapillaryYInterval <= origin.y + (nTubes - 1) * CapillaryYInterval;
      events := events + [ShiftY(CapillaryYInterval)];
      ghost var pulses := stage.MoveY(CapillaryYInterval, false);
    }
  }

  /** One pass of the `while` body of `main`: every tube of run `seqNb`,
      then `goto(x0, y0)`. From an in-bounds origin the run ends back on it. */
  method ScanRun(stage: Stage, nTubes: int, seqNb: nat, pending: bool, x0: int, y0: int)
    returns (events: seq<Event>, pendingAfter: bool, ghost shots: seq<Pos>)
    modifies stage`posX, stage`posY, stage`energizedX, stage`energizedY
    ensures events == RunEvents(nTubes, seqNb, pending, Pos(x0, y0))
    ensures pendingAfter == (pending || nTubes >= 1)
    ensures old(CanReturn(stage, Pos(x0, y0))) && stage.InBounds(x0, y0) ==>
      stage.posX == x0 && stage.posY == y0 && CanReturn(stage, Pos(x0, y0))
    ensures old(stage.Released()) ==> stage.Released()
    ensures old(RasterFits(stage, nTubes, Pos(x0, y0))) && old(stage.posX) == x0 && old(stage.posY) == y0 ==>
      shots == RunShots(Pos(x0, y0), nTubes)
  {
    ghost var origin := Pos(x0, y0);
    ghost var fits := RasterFits(stage, nTubes, origin) && stage.posX == x0 && stage.posY == y0;
    ghost var canReturn := CanReturn(stage, origin);
    pendingAfter := pending;
    events, shots := [], [];
    for i := 0 to TubeCount(nTubes)
      invariant events == TubesEvents(i, nTubes, seqNb, pending)
      invariant pendingAfter == (pending || i > 0)
      invariant canReturn ==> CanReturn(stage, origin)
      invariant old(stage.Released()) ==> stage.Released()
      invariant fits ==>
        shots == ShotsPrefix(origin, i) &&
        stage.posX == RasterPos(origin, i, 0).x &&
        stage.posY == RasterPos(origin, if i == TubeCount(nTubes) && i > 0 then i - 1 else i, 0).y
    {
      var tubeEvents;
      ghost var tubeShots;
      tubeEvents, tubeShots := ScanTube(stage, i, nTubes, seqNb, pendingAfter, origin);
      events := events + tubeEvents;
      shots := shots + tubeShots;
      pendingAfter := true;
      ShotsPrefixStep(origin, i);
    }
    stage.Goto(x0, y0);
    events := events + [GotoXY(Pos(x0, y0))];
  }

  /** The `while` loop of `main` from `x0 = stage.posX` on: runs 0, 1, ...
      until the answer to `time() < t_end` is false (never, when
      duration == -1) or the answers run out; `seq_nb` is bumped after each
      run's `goto`. Returns the driver's events, the number of runs, and
      where each image was taken. */
  method ImagingLoop(stage: Stage, nTubes: int, duration: int, beforeDeadline: seq<bool>)
    returns (log: seq<Event>, runs: nat, ghost shots: seq<Pos>)
    modifies stage`posX, stage`posY, stage`energizedX, stage`energizedY
    ensures runs == RunsStarted(beforeDeadline, duration)
    ensures log == ScanEvents(runs, nTubes, Pos(old(stage.posX), old(stage.posY)))
    ensures old(stage.InBounds(stage.posX, stage.posY)) ==>
      stage.posX == old(stage.posX) && stage.posY == old(stage.posY)
    ensures old(RasterFits(stage, nTubes, Pos(stage.posX, stage.posY))) ==>
      shots == ScanShots(runs, nTubes, Pos(old(stage.posX), old(stage.posY)))
    ensures old(stage.Released()) ==> stage.Released()
  {
    var x0, y0 := stage.posX, stage.posY;
    ghost var origin := Pos(x0, y0);
    ghost var inBounds := stage.InBounds(x0, y0);
    ghost var fits := RasterFits(stage, nTubes, origin);
    assert inBounds ==> CanReturn(stage, origin);
    var seqNb: nat := 0;
    var pending := false;
    log, shots := [], [];
    // the k-th test of the loop condition is made before run k
    while seqNb < |beforeDeadline| && (beforeDeadline[seqNb] || duration == -1)
      invariant seqNb <= |beforeDeadline|
      invariant forall k :: 0 <= k < seqNb ==> beforeDeadline[k] || duration == -1
      invariant log == ScanEvents(seqNb, nTubes, origin)
      invariant pending == PendingAtRun(nTubes, seqNb)
      invariant inBounds ==> stage.posX == x0 && stage.posY == y0 && CanReturn(stage, origin)
      invariant old(stage.Released()) ==> stage.Released()
      invariant fits ==> shots == ScanShots(seqNb, nTubes, origin)
      decreases |beforeDeadline| - seqNb
    {
      var events;
      ghost var runShots;
      events, pending, runShots := ScanRun(stage, nTubes, seqNb, pending, x0, y0);
      log := log + events;
      shots := shots + runShots;
      seqNb := seqNb + 1;
    }
    runs := seqNb;
  }

  /** `main` with the stage built here when none is given: homed (X only
      for a single tube), optionally alignment-checked, then scanned from
      where it stands. A fresh stage scans from (maxX, 0) and every image of
      up to 29 tubes is taken on the serpentine raster. `alignPath` is where
      the alignment check, if asked for, took the stage. */
  method ScanMain(stage: Stage?, duration: int, checkAlignment: bool, nTubes: int,
              probesX: nat, probesY: nat, beforeDeadline: seq<bool>)
    returns (s: Stage, log: seq<Event>, runs: nat, ghost shots: seq<Pos>, ghost alignPath: seq<Pos>)
    modifies if stage == null then {} else {stage}
    ensures stage != null ==> s == stage
    ensures stage == null ==> fresh(s)
    ensures runs == RunsStarted(beforeDeadline, duration)
    ensures stage == null ==>
      log == ScanEvents(runs, nTubes, Pos(7000, 0)) &&
      s.posX == 7000 && s.posY == 0 && s.Released()
    ensures stage == null && nTubes <= 29 ==> shots == ScanShots(runs, nTubes, Pos(7000, 0))
    ensures stage == null ==> s.isInitializedX && s.isInitializedY == (nTubes != 1)
    ensures !checkAlignment ==> alignPath == []
    ensures stage == null && checkAlignment ==>
      alignPath == (if nTubes == 1 then [Pos(3000, 0), Pos(7000, 0)]
                    else [Pos(3000, 0), Pos(3000, 250), Pos(7000, 250), Pos(7000, 0)])
    ensures stage != null && !checkAlignment ==>
      log == ScanEvents(runs, nTubes, Pos(old(stage.posX), old(stage.posY)))
  {
    if stage == null {
      s := new Stage();
      s.InitializeStage(nTubes == 1, probesX, probesY);
    } else {
      s := stage;
    }
    alignPath := [];
    if checkAlignment {
      alignPath := CheckAlignment(s, nTubes == 1);
    }
    log, runs, shots := ImagingLoop(s, nTubes, duration, beforeDeadline);
  }
}

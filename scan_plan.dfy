/** What the imaging loop of stimage.py asks for, as pure functions of the
    tube count, the run number and the origin (x0, y0): the serpentine
    sequence of stage moves, the capture tags (frame j, tube i, seq_nb), the
    waits for the capture in flight, and the positions at which images are
    taken when no move is rejected. */
module ScanPlan {

  const CapillaryLength: int := 4000
  const CapillaryXInterval: int := 250
  const CapillaryYInterval: int := 250
  /** `n_img_per_tube`: floor division, so a remainder of the capillary
      would never be imaged */
  const ImagesPerTube: nat := CapillaryLength / CapillaryXInterval

  /** The part of a capture's filename that identifies it. */
  datatype Tag = Tag(frame: int, tube: int, seqNb: int)

  datatype Pos = Pos(x: int, y: int)

  /** One step of the driver, as the driver issues it. */
  datatype Event =
    | Await               // wait for the capture in flight to finish
    | Capture(tag: Tag)   // start a capture in the background worker
    | ShiftX(dx: int)     // stage.moveX(dx)
    | ShiftY(dy: int)     // stage.moveY(dy)
    | GotoXY(to: Pos)     // stage.goto(x, y)

  /** `direction`: tubes with an even index are walked towards -X, odd ones
      back towards +X. */
  function Direction(tube: int): int
  {
    if tube % 2 == 0 then -1 else 1
  }

  /** The number of tubes `range(n_tubes)` visits. */
  function TubeCount(nTubes: int): nat
  {
    if nTubes < 0 then 0 else nTubes
  }

  /** Frame `frame` of tube `tube`: wait for the capture in flight if there
      is one, start the next capture, then step X. */
  function FrameEvents(tube: int, frame: int, seqNb: int, pending: bool): seq<Event>
  {
    (if pending then [Await] else [])
      + [Capture(Tag(frame, tube, seqNb)), ShiftX(Direction(tube) * CapillaryXInterval)]
  }

  /** Frames 0 .. count-1 of one tube; `pending` tells whether a capture is
      in flight before the first of them. */
  function FramesEvents(tube: int, count: nat, seqNb: int, pending: bool): seq<Event>
  {
    if count == 0 then
      []
    else
      FramesEvents(tube, count - 1, seqNb, pending)
        + FrameEvents(tube, count - 1, seqNb, pending || count > 1)
  }

  /** All frames of one tube, then one Y step unless it is the last tube. */
  function TubeEvents(tube: int, nTubes: int, seqNb: int, pending: bool): seq<Event>
  {
    FramesEvents(tube, ImagesPerTube, seqNb, pending)
      + (if tube < nTubes - 1 then [ShiftY(CapillaryYInterval)] else [])
  }

  /** Tubes 0 .. count-1 of one run. */
  function TubesEvents(count: nat, nTubes: int, seqNb: int, pending: bool): seq<Event>
  {
    if count == 0 then
      []
    else
      TubesEvents(count - 1, nTubes, seqNb, pending)
        + TubeEvents(count - 1, nTubes, seqNb, pending || count > 1)
  }

  /** The capture handle is never cleared, so a capture is in flight at the
      start of every run after the first one that captured anything. */
  function PendingAtRun(nTubes: int, seqNb: int): bool
  {
    seqNb > 0 && nTubes >= 1
  }

  /** Run `seqNb`: all tubes, then back to the origin. */
  function RunEvents(nTubes: int, seqNb: int, pending: bool, origin: Pos): seq<Event>
  {
    TubesEvents(TubeCount(nTubes), nTubes, seqNb, pending) + [GotoXY(origin)]
  }

  /** Runs 0 .. runs-1; run k uses sequence number k. */
  function ScanEvents(runs: nat, nTubes: int, origin: Pos): seq<Event>
  {
    if runs == 0 then
      []
    else
      ScanEvents(runs - 1, nTubes, origin)
        + RunEvents(nTubes, runs - 1, PendingAtRun(nTubes, runs - 1), origin)
  }

  // ----- Projections of an event sequence -----

  function Tags(events: seq<Event>): seq<Tag>
  {
    if events == [] then []
    else (if events[0].Capture? then [events[0].tag] else []) + Tags(events[1..])
  }

  function XShifts(events: seq<Event>): seq<int>
  {
    if events == [] then []
    else (if events[0].ShiftX? then [events[0].dx] else []) + XShifts(events[1..])
  }

  function YShifts(events: seq<Event>): seq<int>
  {
    if events == [] then []
    else (if events[0].ShiftY? then [events[0].dy] else []) + YShifts(events[1..])
  }

  function Sum(s: seq<int>): int
  {
    if s == [] then 0 else s[0] + Sum(s[1..])
  }

  /** Captures in flight after one event: a capture adds one, a wait
      retires one. */
  function AfterEvent(inFlight: nat, e: Event): nat
  {
    match e
    case Capture(_) => inFlight + 1
    case Await => if inFlight == 0 then 0 else inFlight - 1
    case _ => inFlight
  }

  function InFlightAfter(events: seq<Event>, inFlight: nat): nat
  {
    if events == [] then inFlight
    else InFlightAfter(events[1..], AfterEvent(inFlight, events[0]))
  }

  /** Starting with `inFlight` captures outstanding, the count of
      outstanding captures never exceeds one along `events`. */
  predicate AtMostOneInFlight(events: seq<Event>, inFlight: nat)
  {
    inFlight <= 1 &&
    (events == [] || AtMostOneInFlight(events[1..], AfterEvent(inFlight, events[0])))
  }

  function Busy(pending: bool): nat
  {
    if pending then 1 else 0
  }

  // ----- Lemmas -----

  lemma {:induction false} TagsAppend(a: seq<Event>, b: seq<Event>)
    ensures Tags(a + b) == Tags(a) + Tags(b)
  {
    if a == [] {
      assert a + b == b;
    } else {
      var h := if a[0].Capture? then [a[0].tag] else [];
      assert (a + b)[0] == a[0] && (a + b)[1..] == a[1..] + b;
      assert Tags(a + b) == h + Tags(a[1..] + b);
      TagsAppend(a[1..], b);
      assert Tags(a) == h + Tags(a[1..]);
    }
  }

  lemma {:induction false} XShiftsAppend(a: seq<Event>, b: seq<Event>)
    ensures XShifts(a + b) == XShifts(a) + XShifts(b)
  {
    if a == [] {
      assert a + b == b;
    } else {
      var h := if a[0].ShiftX? then [a[0].dx] else [];
      assert (a + b)[0] == a[0] && (a + b)[1..] == a[1..] + b;
      assert XShifts(a + b) == h + XShifts(a[1..] + b);
      XShiftsAppend(a[1..], b);
      assert XShifts(a) == h + XShifts(a[1..]);
    }
  }

  lemma {:induction false} YShiftsAppend(a: seq<Event>, b: seq<Event>)
    ensures YShifts(a + b) == YShifts(a) + YShifts(b)
  {
    if a == [] {
      assert a + b == b;
    } else {
      var h := if a[0].ShiftY? then [a[0].dy] else [];
      assert (a + b)[0] == a[0] && (a + b)[1..] == a[1..] + b;
      assert YShifts(a + b) == h + YShifts(a[1..] + b);
      YShiftsAppend(a[1..], b);
      assert YShifts(a) == h + YShifts(a[1..]);
    }
  }

  lemma ProjectionsAppend(a: seq<Event>, b: seq<Event>)
    ensures Tags(a + b) == Tags(a) + Tags(b)
    ensures XShifts(a + b) == XShifts(a) + XShifts(b)
    ensures YShifts(a + b) == YShifts(a) + YShifts(b)
  {
    TagsAppend(a, b);
    XShiftsAppend(a, b);
    YShiftsAppend(a, b);
  }

  lemma {:induction false} InFlightAppend(a: seq<Event>, b: seq<Event>, inFlight: nat)
    ensures InFlightAfter(a + b, inFlight) == InFlightAfter(b, InFlightAfter(a, inFlight))
    ensures AtMostOneInFlight(a + b, inFlight) <==>
      AtMostOneInFlight(a, inFlight) && AtMostOneInFlight(b, InFlightAfter(a, inFlight))
  {
    if a == [] {
      assert a + b == b;
    } else {
      assert (a + b)[1..] == a[1..] + b;
      InFlightAppend(a[1..], b, AfterEvent(inFlight, a[0]));
    }
  }

  lemma SingleEvent(e: Event, inFlight: nat)
    ensures Tags([e]) == if e.Capture? then [e.tag] else []
    ensures XShifts([e]) == if e.ShiftX? then [e.dx] else []
    ensures YShifts([e]) == if e.ShiftY? then [e.dy] else []
    ensures InFlightAfter([e], inFlight) == AfterEvent(inFlight, e)
    ensures AtMostOneInFlight([e], inFlight) <==> inFlight <= 1 && AfterEvent(inFlight, e) <= 1
  {
    assert [e][1..] == [];
  }

  /** What one frame asks for, projection by projection. */
  lemma FrameFacts(tube: int, frame: int, seqNb: int, pending: bool)
    ensures Tags(FrameEvents(tube, frame, seqNb, pending)) == [Tag(frame, tube, seqNb)]
    ensures XShifts(FrameEvents(tube, frame, seqNb, pending)) == [Direction(tube) * CapillaryXInterval]
    ensures YShifts(FrameEvents(tube, frame, seqNb, pending)) == []
    ensures AtMostOneInFlight(FrameEvents(tube, frame, seqNb, pending), Busy(pending))
    ensures InFlightAfter(FrameEvents(tube, frame, seqNb, pending), Busy(pending)) == 1
  {
    var wait: seq<Event> := if pending then [Await] else [];
    var c := Capture(Tag(frame, tube, seqNb));
    var m := ShiftX(Direction(tube) * CapillaryXInterval);
    assert FrameEvents(tube, frame, seqNb, pending) == wait + [c] + [m];
    SingleEvent(c, 0);
    SingleEvent(m, 1);
    ProjectionsAppend(wait + [c], [m]);
    InFlightAppend(wait + [c], [m], Busy(pending));
    ProjectionsAppend(wait, [c]);
    InFlightAppend(wait, [c], Busy(pending));
    if pending {
      SingleEvent(Await, 1);
    }
  }

  lemma {:induction false} SumAppend(a: seq<int>, b: seq<int>)
    ensures Sum(a + b) == Sum(a) + Sum(b)
  {
    if a == [] {
      assert a + b == b;
    } else {
      assert (a + b)[1..] == a[1..] + b;
      SumAppend(a[1..], b);
    }
  }

  lemma {:induction false} SumConstant(n: nat, d: int)
    ensures Sum(seq(n, _ => d)) == n * d
  {
    if n > 0 {
      assert seq(n, _ => d) == seq(n - 1, _ => d) + [d];
      SumAppend(seq(n - 1, _ => d), [d]);
      assert [d][1..] == [];
      SumConstant(n - 1, d);
    }
  }

  /** The Y step that may follow a tube asks for nothing else. */
  lemma TubeTailFacts(tube: int, nTubes: int, inFlight: nat)
    requires inFlight <= 1
    ensures var tail := if tube < nTubes - 1 then [ShiftY(CapillaryYInterval)] else [];
      Tags(tail) == [] && XShifts(tail) == [] &&
      YShifts(tail) == (if tube < nTubes - 1 then [CapillaryYInterval] else []) &&
      AtMostOneInFlight(tail, inFlight) && InFlightAfter(tail, inFlight) == inFlight
  {
    SingleEvent(ShiftY(CapillaryYInterval), inFlight);
  }

  /** Frames 0 .. count-1 of tube `tube` ask for exactly `count` X steps,
      all of one interval in the tube's direction, and no Y step. */
  lemma {:induction false} FramesShifts(tube: int, count: nat, seqNb: int, pending: bool)
    ensures XShifts(FramesEvents(tube, count, seqNb, pending))
      == seq(count, _ => Direction(tube) * CapillaryXInterval)
    ensures YShifts(FramesEvents(tube, count, seqNb, pending)) == []
  {
    if count > 0 {
      var prefix := FramesEvents(tube, count - 1, seqNb, pending);
      var frame := FrameEvents(tube, count - 1, seqNb, pending || count > 1);
      FramesShifts(tube, count - 1, seqNb, pending);
      ProjectionsAppend(prefix, frame);
      FrameFacts(tube, count - 1, seqNb, pending || count > 1);
      var d := Direction(tube) * CapillaryXInterval;
      assert seq(count, _ => d) == seq(count - 1, _ => d) + [d];
    }
  }

  /** Each tube's X steps add up to exactly one capillary length, towards
      -X on even tubes and +X on odd ones. */
  lemma TubeXDisplacement(tube: int, nTubes: int, seqNb: int, pending: bool)
    ensures Sum(XShifts(TubeEvents(tube, nTubes, seqNb, pending))) == Direction(tube) * CapillaryLength
  {
    var frames := FramesEvents(tube, ImagesPerTube, seqNb, pending);
    var tail := if tube < nTubes - 1 then [ShiftY(CapillaryYInterval)] else [];
    var d := Direction(tube) * CapillaryXInterval;
    FramesShifts(tube, ImagesPerTube, seqNb, pending);
    TubeTailFacts(tube, nTubes, 0);
    XShiftsAppend(frames, tail);
    assert XShifts(frames + tail) == seq(ImagesPerTube, _ => d);
    SumConstant(ImagesPerTube, d);
    assert ImagesPerTube == 16;
  }

  /** The events of tubes 0 .. count-1 are those of the first count-1
      tubes followed by the frames and the Y step of tube count-1. */
  lemma TubesEventsUnfold(count: nat, nTubes: int, seqNb: int, pending: bool)
    requires count > 0
    ensures TubesEvents(count, nTubes, seqNb, pending)
      == TubesEvents(count - 1, nTubes, seqNb, pending)
        + (FramesEvents(count - 1, ImagesPerTube, seqNb, pending || count > 1)
          + (if count - 1 < nTubes - 1 then [ShiftY(CapillaryYInterval)] else []))
  {
  }

  /** One more tube adds its frames' tags to a run prefix. */
  lemma TubesStepTags(count: nat, nTubes: int, seqNb: int, pending: bool)
    requires count > 0
    ensures Tags(TubesEvents(count, nTubes, seqNb, pending))
      == Tags(TubesEvents(count - 1, nTubes, seqNb, pending)) + seq(ImagesPerTube, j => Tag(j, count - 1, seqNb))
  {
    var prefix := TubesEvents(count - 1, nTubes, seqNb, pending);
    var p := pending || count > 1;
    var frames := FramesEvents(count - 1, ImagesPerTube, seqNb, p);
    var tail := if count - 1 < nTubes - 1 then [ShiftY(CapillaryYInterval)] else [];
    TubesEventsUnfold(count, nTubes, seqNb, pending);
    FramesTags(count - 1, ImagesPerTube, seqNb, p);
    TubeTailFacts(count - 1, nTubes, 0);
    TagsAppend(frames, tail);
    assert Tags(frames + tail) == Tags(frames);
    TagsAppend(prefix, frames + tail);
  }

  /** One more tube adds its Y step, if any, to a run prefix. */
  lemma TubesStepYShifts(count: nat, nTubes: int, seqNb: int, pending: bool)
    requires count > 0
    ensures YShifts(TubesEvents(count, nTubes, seqNb, pending))
      == YShifts(TubesEvents(count - 1, nTubes, seqNb, pending))
        + (if count - 1 < nTubes - 1 then [CapillaryYInterval] else [])
  {
    var prefix := TubesEvents(count - 1, nTubes, seqNb, pending);
    var p := pending || count > 1;
    var frames := FramesEvents(count - 1, ImagesPerTube, seqNb, p);
    var tail := if count - 1 < nTubes - 1 then [ShiftY(CapillaryYInterval)] else [];
    TubesEventsUnfold(count, nTubes, seqNb, pending);
    FramesShifts(count - 1, ImagesPerTube, seqNb, p);
    TubeTailFacts(count - 1, nTubes, 0);
    YShiftsAppend(frames, tail);
    assert YShifts(frames + tail) == YShifts(tail);
    YShiftsAppend(prefix, frames + tail);
  }

  /** Tubes 0 .. count-1 ask for one Y step of one interval after each tube
      but the last of the run. */
  lemma {:induction false} TubesYShifts(count: nat, nTubes: int, seqNb: int, pending: bool)
    requires count <= TubeCount(nTubes)
    ensures YShifts(TubesEvents(count, nTubes, seqNb, pending))
      == seq(if count == TubeCount(nTubes) && count > 0 then count - 1 else count, _ => CapillaryYInterval)
  {
    if count > 0 {
      TubesYShifts(count - 1, nTubes, seqNb, pending);
      TubesStepYShifts(count, nTubes, seqNb, pending);
      var y := CapillaryYInterval;
      if count < TubeCount(nTubes) {
        assert seq(count, _ => y) == seq(count - 1, _ => y) + [y];
      }
    }
  }

  /** A run asks for exactly n_tubes - 1 Y steps, each of
      +CAPILLARY_Y_INTERVAL. */
  lemma RunYShifts(nTubes: int, seqNb: int, pending: bool, origin: Pos)
    ensures YShifts(RunEvents(nTubes, seqNb, pending, origin))
      == seq(if nTubes < 1 then 0 else nTubes - 1, _ => CapillaryYInterval)
  {
    var tubes := TubesEvents(TubeCount(nTubes), nTubes, seqNb, pending);
    TubesYShifts(TubeCount(nTubes), nTubes, seqNb, pending);
    ProjectionsAppend(tubes, [GotoXY(origin)]);
    SingleEvent(GotoXY(origin), 0);
  }

  /** Frames 0 .. count-1 of a tube are tagged in frame order. */
  lemma {:induction false} FramesTags(tube: int, count: nat, seqNb: int, pending: bool)
    ensures Tags(FramesEvents(tube, count, seqNb, pending)) == seq(count, j => Tag(j, tube, seqNb))
  {
    if count > 0 {
      var prefix := FramesEvents(tube, count - 1, seqNb, pending);
      var frame := FrameEvents(tube, count - 1, seqNb, pending || count > 1);
      FramesTags(tube, count - 1, seqNb, pending);
      ProjectionsAppend(prefix, frame);
      FrameFacts(tube, count - 1, seqNb, pending || count > 1);
      assert seq(count, j => Tag(j, tube, seqNb))
        == seq(count - 1, j => Tag(j, tube, seqNb)) + [Tag(count - 1, tube, seqNb)];
    }
  }

  lemma FrameIndex(m: int, tube: int)
    requires tube * ImagesPerTube <= m < (tube + 1) * ImagesPerTube
    ensures m / ImagesPerTube == tube && m % ImagesPerTube == m - tube * ImagesPerTube
  {
    assert ImagesPerTube == 16;
  }

  /** Tubes 0 .. count-1 are tagged tube by tube, frame by frame within a
      tube. */
  lemma {:induction false} TubesTags(count: nat, nTubes: int, seqNb: int, pending: bool)
    ensures Tags(TubesEvents(count, nTubes, seqNb, pending))
      == seq(count * ImagesPerTube, m => Tag(m % ImagesPerTube, m / ImagesPerTube, seqNb))
  {
    if count > 0 {
      TubesTags(count - 1, nTubes, seqNb, pending);
      TubesStepTags(count, nTubes, seqNb, pending);
      TagRowsStep(count - 1, seqNb);
    }
  }

  /** The tags of one more tube extend the tube-major tag order. */
  lemma TagRowsStep(tube: nat, seqNb: int)
    ensures seq(tube * ImagesPerTube, m => Tag(m % ImagesPerTube, m / ImagesPerTube, seqNb))
        + seq(ImagesPerTube, j => Tag(j, tube, seqNb))
      == seq((tube + 1) * ImagesPerTube, m => Tag(m % ImagesPerTube, m / ImagesPerTube, seqNb))
  {
    var lhs := seq(tube * ImagesPerTube, m => Tag(m % ImagesPerTube, m / ImagesPerTube, seqNb))
      + seq(ImagesPerTube, j => Tag(j, tube, seqNb));
    var rhs := seq((tube + 1) * ImagesPerTube, m => Tag(m % ImagesPerTube, m / ImagesPerTube, seqNb));
    assert ImagesPerTube == 16;
    var base := tube * 16;
    assert |lhs| == base + 16 == |rhs|;
    forall m | 0 <= m < |rhs|
      ensures lhs[m] == rhs[m]
    {
      if m >= base {
        FrameIndex(m, tube);
      }
    }
  }

  /** Run `seqNb` starts n_tubes * n_img_per_tube captures, tagged
      (j, i, seq_nb) with i outer and j inner. */
  lemma RunTags(nTubes: int, seqNb: int, pending: bool, origin: Pos)
    ensures Tags(RunEvents(nTubes, seqNb, pending, origin))
      == seq(TubeCount(nTubes) * ImagesPerTube, m => Tag(m % ImagesPerTube, m / ImagesPerTube, seqNb))
  {
    var tubes := TubesEvents(TubeCount(nTubes), nTubes, seqNb, pending);
    TubesTags(TubeCount(nTubes), nTubes, seqNb, pending);
    ProjectionsAppend(tubes, [GotoXY(origin)]);
    SingleEvent(GotoXY(origin), 0);
  }

  /** No tag is used twice over any number of runs, and run k's tags carry
      sequence number k < runs. */
  lemma {:induction false} ScanTagsNeverReused(runs: nat, nTubes: int, origin: Pos)
    ensures forall m :: 0 <= m < |Tags(ScanEvents(runs, nTubes, origin))| ==>
      0 <= Tags(ScanEvents(runs, nTubes, origin))[m].seqNb < runs
    ensures forall a, b :: 0 <= a < b < |Tags(ScanEvents(runs, nTubes, origin))| ==>
      Tags(ScanEvents(runs, nTubes, origin))[a] != Tags(ScanEvents(runs, nTubes, origin))[b]
  {
    if runs > 0 {
      var before := ScanEvents(runs - 1, nTubes, origin);
      var run := RunEvents(nTubes, runs - 1, PendingAtRun(nTubes, runs - 1), origin);
      ScanTagsNeverReused(runs - 1, nTubes, origin);
      RunTags(nTubes, runs - 1, PendingAtRun(nTubes, runs - 1), origin);
      TagsAppend(before, run);
      AppendRunTags(Tags(before), TubeCount(nTubes), runs - 1);
    }
  }

  /** Appending the tags of run `seqNb` to tags that are pairwise distinct
      and all of earlier runs keeps them pairwise distinct. */
  lemma AppendRunTags(older: seq<Tag>, count: nat, seqNb: nat)
    requires forall m :: 0 <= m < |older| ==> 0 <= older[m].seqNb < seqNb
    requires forall a, b :: 0 <= a < b < |older| ==> older[a] != older[b]
    ensures var t := older + seq(count * ImagesPerTube, m => Tag(m % ImagesPerTube, m / ImagesPerTube, seqNb));
      (forall m :: 0 <= m < |t| ==> 0 <= t[m].seqNb <= seqNb) &&
      (forall a, b :: 0 <= a < b < |t| ==> t[a] != t[b])
  {
    var last := seq(count * ImagesPerTube, m => Tag(m % ImagesPerTube, m / ImagesPerTube, seqNb));
    var t := older + last;
    var n := |older|;
    forall m | 0 <= m < |t|
      ensures 0 <= t[m].seqNb <= seqNb
    {
      if m >= n {
        assert t[m] == last[m - n];
      } else {
        assert t[m] == older[m];
      }
    }
    forall a, b | 0 <= a < b < |t|
      ensures t[a] != t[b]
    {
      if a >= n {
        assert t[a] == last[a - n] && t[b] == last[b - n];
        TagOrderInjective(a - n, b - n, seqNb);
      } else if b >= n {
        assert t[a] == older[a] && t[b] == last[b - n];
      } else {
        assert t[a] == older[a] && t[b] == older[b];
      }
    }
  }

  /** Distinct positions in the tube-major capture order carry distinct
      tags. */
  lemma TagOrderInjective(a: nat, b: nat, seqNb: int)
    requires a != b
    ensures Tag(a % ImagesPerTube, a / ImagesPerTube, seqNb) != Tag(b % ImagesPerTube, b / ImagesPerTube, seqNb)
  {
    assert ImagesPerTube == 16;
    assert a == 16 * (a / 16) + a % 16 && b == 16 * (b / 16) + b % 16;
  }

  /** Frames 0 .. count-1 of a tube keep at most one capture in flight and
      leave exactly one in flight. */
  lemma {:induction false} FramesInFlight(tube: int, count: nat, seqNb: int, pending: bool)
    ensures AtMostOneInFlight(FramesEvents(tube, count, seqNb, pending), Busy(pending))
    ensures InFlightAfter(FramesEvents(tube, count, seqNb, pending), Busy(pending))
      == if count > 0 then 1 else Busy(pending)
  {
    if count > 0 {
      var prefix := FramesEvents(tube, count - 1, seqNb, pending);
      var p := pending || count > 1;
      FramesInFlight(tube, count - 1, seqNb, pending);
      InFlightAppend(prefix, FrameEvents(tube, count - 1, seqNb, p), Busy(pending));
      FrameFacts(tube, count - 1, seqNb, p);
    }
  }

  lemma {:induction false} TubesInFlight(count: nat, nTubes: int, seqNb: int, pending: bool)
    ensures AtMostOneInFlight(TubesEvents(count, nTubes, seqNb, pending), Busy(pending))
    ensures InFlightAfter(TubesEvents(count, nTubes, seqNb, pending), Busy(pending))
      == if count > 0 then 1 else Busy(pending)
  {
    if count > 0 {
      var prefix := TubesEvents(count - 1, nTubes, seqNb, pending);
      var p := pending || count > 1;
      var frames := FramesEvents(count - 1, ImagesPerTube, seqNb, p);
      var tail := if count - 1 < nTubes - 1 then [ShiftY(CapillaryYInterval)] else [];
      TubesEventsUnfold(count, nTubes, seqNb, pending);
      TubesInFlight(count - 1, nTubes, seqNb, pending);
      FramesInFlight(count - 1, ImagesPerTube, seqNb, p);
      assert ImagesPerTube > 0;
      TubeTailFacts(count - 1, nTubes, 1);
      InFlightAppend(frames, tail, Busy(p));
      InFlightAppend(prefix, frames + tail, Busy(pending));
    }
  }

  lemma RunInFlight(nTubes: int, seqNb: int, pending: bool, origin: Pos)
    ensures AtMostOneInFlight(RunEvents(nTubes, seqNb, pending, origin), Busy(pending))
    ensures InFlightAfter(RunEvents(nTubes, seqNb, pending, origin), Busy(pending))
      == Busy(pending || nTubes >= 1)
  {
    var p := pending;
    var tubes := TubesEvents(TubeCount(nTubes), nTubes, seqNb, p);
    TubesInFlight(TubeCount(nTubes), nTubes, seqNb, p);
    InFlightAppend(tubes, [GotoXY(origin)], Busy(p));
    SingleEvent(GotoXY(origin), InFlightAfter(tubes, Busy(p)));
  }

  /** Over any number of runs, at most one capture is ever outstanding:
      each capture after the first waits for the previous one. */
  lemma {:induction false} ScanInFlight(runs: nat, nTubes: int, origin: Pos)
    ensures AtMostOneInFlight(ScanEvents(runs, nTubes, origin), 0)
    ensures InFlightAfter(ScanEvents(runs, nTubes, origin), 0) == Busy(PendingAtRun(nTubes, runs))
  {
    if runs > 0 {
      var before := ScanEvents(runs - 1, nTubes, origin);
      ScanInFlight(runs - 1, nTubes, origin);
      RunInFlight(nTubes, runs - 1, PendingAtRun(nTubes, runs - 1), origin);
      InFlightAppend(before, RunEvents(nTubes, runs - 1, PendingAtRun(nTubes, runs - 1), origin), 0);
    }
  }

  // ----- Where the images are taken -----

  /** Where frame `frame` of tube `tube` is captured when no move of the run
      has been rejected: even tubes start at x0 and walk towards -X, odd
      tubes start one capillary length lower and walk back; tube i sits i
      intervals above y0. */
  function RasterPos(origin: Pos, tube: int, frame: int): Pos
  {
    Pos(if tube % 2 == 0 then origin.x - frame * CapillaryXInterval
        else origin.x - CapillaryLength + frame * CapillaryXInterval,
        origin.y + tube * CapillaryYInterval)
  }

  /** Within a tube each X step of the driver moves to the next frame's
      position; a tube's frames lie within one capillary length below x0. */
  lemma RasterFrameStep(origin: Pos, tube: int, frame: int)
    ensures RasterPos(origin, tube, frame + 1)
      == Pos(RasterPos(origin, tube, frame).x + Direction(tube) * CapillaryXInterval, RasterPos(origin, tube, frame).y)
    ensures 0 <= frame <= ImagesPerTube ==>
      origin.x - CapillaryLength <= RasterPos(origin, tube, frame).x <= origin.x
  {
    assert ImagesPerTube == 16;
  }

  /** After the last X step of a tube the stage stands above the first frame
      of the next tube, one Y interval short of it. */
  lemma RasterTubeTurn(origin: Pos, tube: int)
    ensures RasterPos(origin, tube, ImagesPerTube).x == RasterPos(origin, tube + 1, 0).x
    ensures RasterPos(origin, tube, ImagesPerTube).y + CapillaryYInterval == RasterPos(origin, tube + 1, 0).y
  {
    assert ImagesPerTube == 16;
    assert (tube + 1) % 2 != tube % 2;
  }

  /** The capture positions of tubes 0 .. count-1, in capture order. */
  function ShotsPrefix(origin: Pos, count: nat): seq<Pos>
  {
    seq(count * ImagesPerTube, m => RasterPos(origin, m / ImagesPerTube, m % ImagesPerTube))
  }

  /** The capture positions of one run. */
  function RunShots(origin: Pos, nTubes: int): seq<Pos>
  {
    ShotsPrefix(origin, TubeCount(nTubes))
  }

  function ScanShots(runs: nat, nTubes: int, origin: Pos): seq<Pos>
  {
    if runs == 0 then [] else ScanShots(runs - 1, nTubes, origin) + RunShots(origin, nTubes)
  }

  /** One more tube appends its frames' positions. */
  lemma ShotsPrefixStep(origin: Pos, count: nat)
    ensures ShotsPrefix(origin, count + 1)
      == ShotsPrefix(origin, count) + seq(ImagesPerTube, j => RasterPos(origin, count, j))
  {
    assert ImagesPerTube == 16;
    var lhs := ShotsPrefix(origin, count + 1);
    var rhs := ShotsPrefix(origin, count) + seq(16, j => RasterPos(origin, count, j));
    assert |lhs| == count * 16 + 16 == |rhs|;
    forall m | 0 <= m < |lhs|
      ensures lhs[m] == rhs[m]
    {
      if m >= count * 16 {
        FrameIndex(m, count);
      }
    }
  }

  /** The raster of a run stays inside [0, maxX] x [0, maxY] when the
      origin is at least one capillary length from X = 0 and the last tube
      fits below maxY. */
  lemma RunShotsInBounds(origin: Pos, nTubes: int, maxX: int, maxY: int, m: int)
    requires CapillaryLength <= origin.x <= maxX && 0 <= origin.y
    requires nTubes >= 1 ==> origin.y + (nTubes - 1) * CapillaryYInterval <= maxY
    requires 0 <= m < |RunShots(origin, nTubes)|
    ensures 0 <= RunShots(origin, nTubes)[m].x <= maxX && 0 <= RunShots(origin, nTubes)[m].y <= maxY
  {
    assert ImagesPerTube == 16;
    var tube, frame := m / 16, m % 16;
    FrameIndex(m, tube);
    assert RunShots(origin, nTubes)[m] == RasterPos(origin, tube, frame);
    assert 0 <= tube < nTubes;
    assert tube * CapillaryYInterval <= (nTubes - 1) * CapillaryYInterval;
  }

  /** Each position of a run is imaged once. */
  lemma RunShotsDistinct(origin: Pos, nTubes: int)
    ensures forall a, b :: 0 <= a < b < |RunShots(origin, nTubes)| ==>
      RunShots(origin, nTubes)[a] != RunShots(origin, nTubes)[b]
  {
    var r := RunShots(origin, nTubes);
    forall a, b | 0 <= a < b < |r|
      ensures r[a] != r[b]
    {
      FrameIndex(a, a / ImagesPerTube);
      FrameIndex(b, b / ImagesPerTube);
    }
  }

  /** Boustrophedon: consecutive captures of a run are one X interval apart
      and at most one Y interval apart, including across the change of
      tube, so there is never a return stroke across the capillary. */
  lemma RunShotsSerpentine(origin: Pos, nTubes: int)
    ensures forall m :: 0 < m < |RunShots(origin, nTubes)| ==>
      (RunShots(origin, nTubes)[m].x - RunShots(origin, nTubes)[m - 1].x == CapillaryXInterval ||
       RunShots(origin, nTubes)[m - 1].x - RunShots(origin, nTubes)[m].x == CapillaryXInterval) &&
      0 <= RunShots(origin, nTubes)[m].y - RunShots(origin, nTubes)[m - 1].y <= CapillaryYInterval
  {
    var r := RunShots(origin, nTubes);
    forall m | 0 < m < |r|
      ensures r[m].x - r[m - 1].x == CapillaryXInterval || r[m - 1].x - r[m].x == CapillaryXInterval
      ensures 0 <= r[m].y - r[m - 1].y <= CapillaryYInterval
    {
      RasterNeighbours(origin, m);
    }
  }

  /** Capture m of the raster order is one X interval from capture m - 1,
      and no lower and at most one Y interval higher. */
  lemma RasterNeighbours(origin: Pos, m: int)
    requires m > 0
    ensures var p, q := RasterPos(origin, (m - 1) / ImagesPerTube, (m - 1) % ImagesPerTube),
                        RasterPos(origin, m / ImagesPerTube, m % ImagesPerTube);
      (q.x - p.x == CapillaryXInterval || p.x - q.x == CapillaryXInterval) &&
      0 <= q.y - p.y <= CapillaryYInterval
  {
    assert ImagesPerTube == 16;
    var tube, frame := m / 16, m % 16;
    FrameIndex(m, tube);
    if frame > 0 {
      FrameIndex(m - 1, tube);
    } else {
      FrameIndex(m - 1, tube - 1);
      assert (tube - 1) % 2 != tube % 2;
    }
  }

  // ----- The deadline -----

  /** How many runs `while (time() < t_end) or (duration == -1)` starts,
      given the answer of `time() < t_end` at each test; after the last
      answer the process is stopped from outside. The test is made only
      between runs, and duration == -1 never stops the loop. */
  function RunsStarted(beforeDeadline: seq<bool>, duration: int): (runs: nat)
    ensures runs <= |beforeDeadline|
    ensures forall k :: 0 <= k < runs ==> beforeDeadline[k] || duration == -1
    ensures runs < |beforeDeadline| ==> !beforeDeadline[runs] && duration != -1
  {
    if beforeDeadline == [] || !(beforeDeadline[0] || duration == -1) then 0
    else 1 + RunsStarted(beforeDeadline[1..], duration)
  }
}

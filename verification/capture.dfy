/**
 * Path capture of the drawing application: pointer clicks become an ordered
 * list of points, a click close to the last point ends the path by switching
 * the live preview off, and a reset empties the path and re-arms the preview.
 *
 * CaptureState and Click are the value-level description used to reason about
 * whole sequences of clicks; DrawingApp is the object whose methods update the
 * same state in place and are proved to follow Click.
 */
module Capture {
  import opened Wrappers
  import opened Geometry

  /** What the click handler sees of one button press: axes coordinates, absent outside the axes. */
  datatype PointerEvent = PointerEvent(xdata: Option<real>, ydata: Option<real>)

  /**
   * The state the capture logic keeps: the points clicked so far and whether
   * the pointer-motion handler (the live preview) is connected.
   */
  datatype CaptureState = CaptureState(points: seq<Point>, previewActive: bool)

  /** The sample of an event, when both coordinates are present. */
  function Sample(e: PointerEvent): (o: Option<Point>)
  {
    if e.xdata.Some? && e.ydata.Some? then Some((e.xdata.value, e.ydata.value)) else None
  }

  /** A sample ends the path when some point exists and the sample lies within the end tolerance of the last one. */
  predicate IsEndGesture(points: seq<Point>, p: Point)
  {
    |points| > 0 && WithinTolerance(p, points[|points| - 1], EndToleranceMm)
  }

  /**
   * The effect of one click on the capture state. A click only appends: the
   * old points stay in place, at most one point is added and only for a
   * present sample, and a click never turns the preview back on.
   */
  function Click(s: CaptureState, e: PointerEvent): (t: CaptureState)
    ensures |s.points| <= |t.points| <= |s.points| + (if Sample(e).Some? then 1 else 0)
    ensures t.points[..|s.points|] == s.points
    ensures t.previewActive ==> s.previewActive
  {
    match Sample(e)
    case None => s
    case Some(p) =>
      if IsEndGesture(s.points, p) then s.(previewActive := false)
      else s.(points := s.points + [p])
  }

  /**
   * The state after a sequence of clicks, processed in arrival order. At most
   * one point is added per present sample, and the old path stays in place.
   */
  function Replay(s: CaptureState, events: seq<PointerEvent>): (r: CaptureState)
    ensures |s.points| <= |r.points| <= |s.points| + |Samples(events)|
    ensures r.points[..|s.points|] == s.points
    decreases |events|
  {
    if events == [] then s else Replay(Click(s, events[0]), events[1..])
  }

  /** The present samples of a sequence of events, in arrival order. */
  function Samples(events: seq<PointerEvent>): (ps: seq<Point>)
    decreases |events|
  {
    if events == [] then []
    else match Sample(events[0])
      case None => Samples(events[1..])
      case Some(p) => [p] + Samples(events[1..])
  }

  /** No point of the path lies within the end tolerance of the point before it. */
  predicate Separated(points: seq<Point>)
  {
    forall i :: 0 < i < |points| ==> !WithinTolerance(points[i], points[i - 1], EndToleranceMm)
  }

  /** xs can be obtained from ys by deleting elements. */
  predicate IsSubsequence(xs: seq<Point>, ys: seq<Point>)
    decreases |ys|
  {
    if xs == [] then true
    else if ys == [] then false
    else (xs[0] == ys[0] && IsSubsequence(xs[1..], ys[1..])) || IsSubsequence(xs, ys[1..])
  }

  /** A click keeps the path separated: an appended point is never within tolerance of its predecessor. */
  lemma ClickKeepsSeparated(s: CaptureState, e: PointerEvent)
    requires Separated(s.points)
    ensures Separated(Click(s, e).points)
  {
  }

  /** Every path built by clicks from a separated path is separated. */
  lemma {:induction false} ReplayKeepsSeparated(s: CaptureState, events: seq<PointerEvent>)
    requires Separated(s.points)
    ensures Separated(Replay(s, events).points)
    decreases |events|
  {
    if events != [] {
      ClickKeepsSeparated(s, events[0]);
      ReplayKeepsSeparated(Click(s, events[0]), events[1..]);
    }
  }

  /** Adding an element in front of ys keeps every subsequence of ys. */
  lemma SubsequenceOfLonger(xs: seq<Point>, y: Point, ys: seq<Point>)
    requires IsSubsequence(xs, ys)
    ensures IsSubsequence(xs, [y] + ys)
  {
  }

  /**
   * Clicks only ever append: the old path is a prefix of the new one, and the
   * points added are present samples, in the order in which they arrived.
   */
  lemma {:induction false} ReplayAppendsSamplesInOrder(s: CaptureState, events: seq<PointerEvent>)
    ensures |s.points| <= |Replay(s, events).points|
    ensures Replay(s, events).points[..|s.points|] == s.points
    ensures IsSubsequence(Replay(s, events).points[|s.points|..], Samples(events))
    decreases |events|
  {
    if events == [] {
      assert Replay(s, events).points[|s.points|..] == [];
    } else {
      var t := Click(s, events[0]);
      var r := Replay(s, events);
      ReplayAppendsSamplesInOrder(t, events[1..]);
      assert r == Replay(t, events[1..]);
      var added := r.points[|t.points|..];
      assert IsSubsequence(added, Samples(events[1..]));
      match Sample(events[0])
      case None =>
        assert t == s;
        assert Samples(events) == Samples(events[1..]);
      case Some(p) =>
        assert Samples(events) == [p] + Samples(events[1..]);
        if IsEndGesture(s.points, p) {
          assert t.points == s.points;
          SubsequenceOfLonger(added, p, Samples(events[1..]));
        } else {
          assert t.points == s.points + [p];
          assert r.points[..|t.points|] == t.points;
          assert r.points[|s.points|..] == [p] + added;
          assert ([p] + added)[1..] == added;
        }
    }
  }

  /**
   * Conversely, when no present sample is within the end tolerance of the one
   * before it (the first one compared with the last point of the path), every
   * sample is appended, in order, and the preview is left as it was.
   */
  lemma {:induction false} SeparatedSamplesAllAppended(s: CaptureState, events: seq<PointerEvent>)
    requires Separated(s.points + Samples(events))
    ensures Replay(s, events) == CaptureState(s.points + Samples(events), s.previewActive)
    decreases |events|
  {
    if events == [] {
      assert s.points + Samples(events) == s.points;
    } else {
      var rest := events[1..];
      match Sample(events[0])
      case None =>
        assert Click(s, events[0]) == s;
        assert Samples(events) == Samples(rest);
        SeparatedSamplesAllAppended(s, rest);
      case Some(p) =>
        var all := s.points + Samples(events);
        assert Samples(events) == [p] + Samples(rest);
        assert all == (s.points + [p]) + Samples(rest);
        if |s.points| > 0 {
          var i := |s.points|;
          assert all[i] == p && all[i - 1] == s.points[|s.points| - 1];
        }
        assert !IsEndGesture(s.points, p);
        var t := Click(s, events[0]);
        assert t == CaptureState(s.points + [p], s.previewActive);
        assert Separated(t.points + Samples(rest)) by {
          assert t.points + Samples(rest) == all;
        }
        SeparatedSamplesAllAppended(t, rest);
    }
  }

  /**
   * From a separated path, a sequence of clicks appends every present sample,
   * and only when the samples keep the path separated: the path after the
   * clicks is exactly the old path followed by all samples, with the preview
   * untouched, if and only if no sample is an end gesture.
   */
  lemma AllAppendedIffSeparated(s: CaptureState, events: seq<PointerEvent>)
    requires Separated(s.points)
    ensures Replay(s, events) == CaptureState(s.points + Samples(events), s.previewActive)
            <==> Separated(s.points + Samples(events))
  {
    if Separated(s.points + Samples(events)) {
      SeparatedSamplesAllAppended(s, events);
    }
    if Replay(s, events) == CaptureState(s.points + Samples(events), s.previewActive) {
      ReplayKeepsSeparated(s, events);
    }
  }

  /** Only a reset turns the preview back on: once off, no click re-enables it. */
  lemma {:induction false} ReplayKeepsPreviewOff(s: CaptureState, events: seq<PointerEvent>)
    requires !s.previewActive
    ensures !Replay(s, events).previewActive
    decreases |events|
  {
    if events != [] {
      ReplayKeepsPreviewOff(Click(s, events[0]), events[1..]);
    }
  }

  /**
   * Ending the path does not stop capture: after the end gesture has switched
   * the preview off, a click far from the last point is still appended.
   */
  lemma ClicksAfterEndStillAppend()
    ensures Replay(CaptureState([(10.0, 10.0)], true), [PointerEvent(Some(11.0), Some(10.0))])
            == CaptureState([(10.0, 10.0)], false)
    ensures Replay(CaptureState([(10.0, 10.0)], true),
                   [PointerEvent(Some(11.0), Some(10.0)), PointerEvent(Some(50.0), Some(50.0))])
            == CaptureState([(10.0, 10.0), (50.0, 50.0)], false)
  {
  }

  /** The application object: the clicked points and the preview-handler connection. */
  class DrawingApp {
    var points: seq<Point>
    var previewActive: bool

    /** The capture state this object holds. */
    function State(): (s: CaptureState)
      reads this
    {
      CaptureState(points, previewActive)
    }

    /** Consecutive points of the path are never within the end tolerance. */
    predicate Valid()
      reads this
    {
      Separated(points)
    }

    /** A fresh application: no points, motion handler connected. */
    constructor ()
      ensures Valid()
      ensures points == [] && previewActive
    {
      points := [];
      previewActive := true;
    }

    /** Switches the live preview off; the path is not touched. */
    method StopPreview()
      requires Valid()
      modifies this
      ensures Valid()
      ensures !previewActive
      ensures points == old(points)
    {
      previewActive := false;
    }

    /**
     * Handles one click. Absent coordinates are ignored; a sample within the
     * end tolerance of the last point ends the path (preview off, nothing
     * appended); any other sample is appended, also after the path has ended.
     */
    method OnClick(e: PointerEvent)
      requires Valid()
      modifies this
      ensures Valid()
      ensures State() == Click(old(State()), e)
      ensures Sample(e).None? ==> points == old(points) && previewActive == old(previewActive)
      ensures Sample(e).Some? && IsEndGesture(old(points), Sample(e).value) ==>
                points == old(points) && !previewActive
      ensures Sample(e).Some? && !IsEndGesture(old(points), Sample(e).value) ==>
                points == old(points) + [Sample(e).value] && previewActive == old(previewActive)
      ensures Sample(e).Some? && old(points) == [] ==> points == [Sample(e).value]
    {
      ClickKeepsSeparated(State(), e);
      if e.xdata.Some? && e.ydata.Some? {
        var p := (e.xdata.value, e.ydata.value);
        if |points| > 0 {
          var last := points[|points| - 1];
          if WithinTolerance(p, last, EndToleranceMm) {
            StopPreview();
            return;
          }
        }
        points := points + [p];
      }
    }

    /** Clears the path and reconnects the motion handler, whatever the state before. */
    method ResetPlane()
      modifies this
      ensures Valid()
      ensures points == [] && previewActive
    {
      points := [];
      previewActive := true;
    }
  }
}

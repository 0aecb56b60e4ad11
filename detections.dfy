/** Detections as the counter sees them, and the class filter applied to the
    detector's output before it reaches the tracker. */
module Detections {

  /** An axis-aligned bounding box in integer pixel coordinates
      (top-left corner x1, y1; bottom-right corner x2, y2). */
  datatype Box = Box(x1: int, y1: int, x2: int, y2: int)

  /** One detector result for one frame, reduced to what the application uses:
      its box and its class name. */
  datatype Detection = Detection(box: Box, className: string)

  /** One tracker result for one frame: a detection with its track identity. */
  datatype Tracked = Tracked(box: Box, trackId: int, className: string)

  /** The classes the application keeps and counts. */
  const TrackClasses: set<string> := {"car", "truck"}

  /** The detections of one frame whose class name is one of `classes`, in their
      original order. */
  function Filter(dets: seq<Detection>, classes: set<string>): (r: seq<Detection>)
    ensures |r| <= |dets|
    ensures forall i :: 0 <= i < |r| ==> r[i].className in classes
    ensures forall d :: multiset(r)[d] == if d.className in classes then multiset(dets)[d] else 0
  {
    if |dets| == 0 then []
    else
      var rest := Filter(dets[1..], classes);
      assert dets == [dets[0]] + dets[1..];
      if dets[0].className in classes then [dets[0]] + rest else rest
  }

  /** Filtering distributes over concatenation: the kept detections of `a + b`
      are those of `a` followed by those of `b`, so the filter keeps the order
      of the detections it keeps. */
  lemma {:induction false} FilterAppend(a: seq<Detection>, b: seq<Detection>, classes: set<string>)
    ensures Filter(a + b, classes) == Filter(a, classes) + Filter(b, classes)
  {
    if |a| == 0 {
      assert a + b == b;
    } else {
      assert (a + b)[1..] == a[1..] + b;
      FilterAppend(a[1..], b, classes);
    }
  }

  /** Filtering twice with the same classes keeps the same detections. */
  lemma {:induction false} FilterIdempotent(dets: seq<Detection>, classes: set<string>)
    ensures Filter(Filter(dets, classes), classes) == Filter(dets, classes)
  {
    if |dets| > 0 {
      FilterIdempotent(dets[1..], classes);
      var rest := Filter(dets[1..], classes);
      if dets[0].className in classes {
        assert ([dets[0]] + rest)[1..] == rest;
      }
    }
  }
}

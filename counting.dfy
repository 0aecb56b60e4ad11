/** The line-crossing counter as values: the state it keeps for one video, the
    decision it takes for one tracked detection, and its effect over a frame and
    over a whole video. The class `Counter.CrossingCounter` is proved against
    these functions. */
module Counting {
  import opened Detections

  /** Half-height of the counting band around the line, in pixels. */
  const Margin: int := 10

  /** The vertical center of a box, rounded down (floor division by 2). */
  function CenterY(b: Box): (c: int)
    ensures 2 * c <= b.y1 + b.y2 < 2 * c + 2
    ensures b.y1 <= b.y2 ==> b.y1 <= c <= b.y2
  {
    (b.y1 + b.y2) / 2
  }

  /** The counting row: half the frame height, rounded down. */
  function LineY(height: int): (y: int)
    ensures 2 * y <= height < 2 * y + 2
    ensures height >= 0 ==> 0 <= y <= height
  {
    height / 2
  }

  /** The band is open: both edges `lineY - Margin` and `lineY + Margin` lie outside. */
  predicate InBand(centerY: int, lineY: int)
    // on whole pixel rows the band is the Margin - 1 rows each side of the line, and the line itself
    ensures InBand(centerY, lineY) <==> lineY - (Margin - 1) <= centerY <= lineY + (Margin - 1)
  {
    lineY - Margin < centerY < lineY + Margin
  }

  /** All state the counter keeps for one video: the identities already counted
      and one tally per countable class. */
  datatype CounterState = CounterState(counted: set<int>, tallies: map<string, nat>)

  /** `order` lists every element of `classes` exactly once. */
  predicate Enumerates(order: seq<string>, classes: set<string>)
  {
    && (forall i, j :: 0 <= i < j < |order| ==> order[i] != order[j])
    && (forall k :: k in classes ==> k in order)
    && (forall k :: k in order ==> k in classes)
  }

  /** The state at the start of a video: nothing counted, every class at zero. */
  function Initial(classes: set<string>): (s: CounterState)
    ensures s.counted == {}
    ensures s.tallies.Keys == classes
    ensures forall k :: k in s.tallies ==> s.tallies[k] == 0
  {
    CounterState({}, map k | k in classes :: 0)
  }

  /** The decision taken for one tracked detection: it is counted now exactly
      when its identity was never counted and its center lies inside the band. */
  predicate Fires(s: CounterState, lineY: int, t: Tracked)
    ensures Fires(s, lineY, t) <==>
      && t.trackId !in s.counted
      && lineY - (Margin - 1) <= CenterY(t.box) <= lineY + (Margin - 1)
  {
    t.trackId !in s.counted && InBand(CenterY(t.box), lineY)
  }

  /** The counter's reaction to one tracked detection. */
  function Step(s: CounterState, lineY: int, t: Tracked): (r: CounterState)
    // an identity already counted changes nothing, wherever its box is
    ensures t.trackId in s.counted ==> r == s
    ensures r.counted == if Fires(s, lineY, t) then s.counted + {t.trackId} else s.counted
    // the tally keys never change
    ensures r.tallies.Keys == s.tallies.Keys
    // only the detection's own class may move, and then by exactly one
    ensures forall k :: k in s.tallies && k != t.className ==> r.tallies[k] == s.tallies[k]
    ensures t.className in s.tallies ==>
      r.tallies[t.className] == s.tallies[t.className] + (if Fires(s, lineY, t) then 1 else 0)
  {
    if Fires(s, lineY, t) then
      CounterState(
        s.counted + {t.trackId},
        if t.className in s.tallies then s.tallies[t.className := s.tallies[t.className] + 1]
        else s.tallies)
    else
      s
  }

  /** `r` is a later state than `s`: counted identities were kept, no tally was
      added or removed, and no tally decreased. */
  ghost predicate Grows(s: CounterState, r: CounterState)
  {
    && s.counted <= r.counted
    && r.tallies.Keys == s.tallies.Keys
    && forall k :: k in s.tallies ==> s.tallies[k] <= r.tallies[k]
  }

  /** The counter's reaction to the tracked detections of one frame, in order. */
  function Frame(s: CounterState, lineY: int, dets: seq<Tracked>): (r: CounterState)
    ensures Grows(s, r)
    decreases |dets|
  {
    if |dets| == 0 then s
    else Step(Frame(s, lineY, dets[..|dets| - 1]), lineY, dets[|dets| - 1])
  }

  /** The counter's reaction to a sequence of frames, in order. */
  function Run(s: CounterState, lineY: int, frames: seq<seq<Tracked>>): (r: CounterState)
    ensures Grows(s, r)
    decreases |frames|
  {
    if |frames| == 0 then s
    else Frame(Run(s, lineY, frames[..|frames| - 1]), lineY, frames[|frames| - 1])
  }

  /** All detections of a sequence of frames, one frame after the other. */
  function Flatten(frames: seq<seq<Tracked>>): seq<Tracked>
    decreases |frames|
  {
    if |frames| == 0 then []
    else Flatten(frames[..|frames| - 1]) + frames[|frames| - 1]
  }

  /** The sum of the tallies of the classes in `keys`. */
  function Total(tallies: map<string, nat>, keys: seq<string>): nat
    requires forall k :: k in keys ==> k in tallies
    decreases |keys|
  {
    if |keys| == 0 then 0 else tallies[keys[0]] + Total(tallies, keys[1..])
  }

  // ---------------------------------------------------------------------------
  // Properties of one step

  /** The band edges are exclusive: a fresh identity whose center is exactly
      `lineY - Margin` or `lineY + Margin` is not counted; one whose center is
      on the line is. */
  lemma BandEdges(s: CounterState, lineY: int, t: Tracked)
    requires t.trackId !in s.counted
    ensures CenterY(t.box) == lineY - Margin ==> Step(s, lineY, t) == s
    ensures CenterY(t.box) == lineY + Margin ==> Step(s, lineY, t) == s
    ensures CenterY(t.box) == lineY ==> t.trackId in Step(s, lineY, t).counted
  {
  }

  /** A detection whose class has no tally changes no tally, yet its identity
      is still recorded when it is inside the band. */
  lemma UncountedClass(s: CounterState, lineY: int, t: Tracked)
    requires t.className !in s.tallies
    ensures Step(s, lineY, t).tallies == s.tallies
    ensures Fires(s, lineY, t) ==> t.trackId in Step(s, lineY, t).counted
  {
  }

  /** Two detections with different identities can be handled in either order. */
  lemma StepCommutes(s: CounterState, lineY: int, a: Tracked, b: Tracked)
    requires a.trackId != b.trackId
    ensures Step(Step(s, lineY, a), lineY, b) == Step(Step(s, lineY, b), lineY, a)
  {
  }

  // ---------------------------------------------------------------------------
  // Sums of tallies

  /** Adding one to one tally adds one to the sum when that class is summed
      (once, since `keys` has no repetitions) and nothing otherwise. */
  lemma {:induction false} TotalIncrement(m: map<string, nat>, keys: seq<string>, c: string)
    requires forall k :: k in keys ==> k in m
    requires forall i, j :: 0 <= i < j < |keys| ==> keys[i] != keys[j]
    requires c in m
    ensures Total(m[c := m[c] + 1], keys) == Total(m, keys) + (if c in keys then 1 else 0)
  {
    if |keys| > 0 {
      assert forall i, j :: 0 <= i < j < |keys[1..]| ==> keys[1..][i] != keys[1..][j] by {
        forall i, j | 0 <= i < j < |keys[1..]| ensures keys[1..][i] != keys[1..][j] {
          assert keys[1..][i] == keys[i + 1] && keys[1..][j] == keys[j + 1];
        }
      }
      TotalIncrement(m, keys[1..], c);
      if keys[0] == c {
        assert c !in keys[1..] by {
          forall j | 0 <= j < |keys[1..]| ensures keys[1..][j] != c {
            assert keys[1..][j] == keys[j + 1];
          }
        }
      } else {
        assert c in keys <==> c in keys[1..] by {
          assert keys == [keys[0]] + keys[1..];
        }
      }
    }
  }

  /** One step adds at most one to the sum of the tallies, and only when it
      records a new identity. */
  lemma StepTotal(s: CounterState, lineY: int, t: Tracked, keys: seq<string>)
    requires forall k :: k in keys ==> k in s.tallies
    requires forall i, j :: 0 <= i < j < |keys| ==> keys[i] != keys[j]
    ensures var r := Step(s, lineY, t);
      && |r.counted| == |s.counted| + (if Fires(s, lineY, t) then 1 else 0)
      && Total(r.tallies, keys) <= Total(s.tallies, keys) + (if Fires(s, lineY, t) then 1 else 0)
  {
    if Fires(s, lineY, t) && t.className in s.tallies {
      TotalIncrement(s.tallies, keys, t.className);
    }
  }

  // ---------------------------------------------------------------------------
  // Properties of frames and videos

  /** Handling two frames' detections one after the other is handling their
      concatenation. */
  lemma {:induction false} FrameAppend(s: CounterState, lineY: int, a: seq<Tracked>, b: seq<Tracked>)
    ensures Frame(s, lineY, a + b) == Frame(Frame(s, lineY, a), lineY, b)
    decreases |b|
  {
    if |b| == 0 {
      assert a + b == a;
    } else {
      var b' := b[..|b| - 1];
      assert (a + b)[..|a + b| - 1] == a + b';
      assert (a + b)[|a + b| - 1] == b[|b| - 1];
      FrameAppend(s, lineY, a, b');
    }
  }

  /** A video is handled as one long sequence of detections: frame boundaries
      play no part in the counting. */
  lemma {:induction false} RunIsFrameOfAll(s: CounterState, lineY: int, frames: seq<seq<Tracked>>)
    ensures Run(s, lineY, frames) == Frame(s, lineY, Flatten(frames))
    decreases |frames|
  {
    if |frames| > 0 {
      var init := frames[..|frames| - 1];
      RunIsFrameOfAll(s, lineY, init);
      FrameAppend(s, lineY, Flatten(init), frames[|frames| - 1]);
    }
  }

  /** Swapping two neighbouring detections with different identities in a
      frame does not change the outcome; since every reordering is a series of
      such swaps, the order of detections with distinct identities within a
      frame does not matter. */
  lemma SwapNeighbours(s: CounterState, lineY: int, a: seq<Tracked>, x: Tracked, y: Tracked, b: seq<Tracked>)
    requires x.trackId != y.trackId
    ensures Frame(s, lineY, a + [x, y] + b) == Frame(s, lineY, a + [y, x] + b)
  {
    var sa := Frame(s, lineY, a);
    FrameAppend(s, lineY, a + [x, y], b);
    FrameAppend(s, lineY, a + [y, x], b);
    FrameAppend(s, lineY, a, [x, y]);
    FrameAppend(s, lineY, a, [y, x]);
    assert [x, y][..1] == [x] && [y, x][..1] == [y];
    assert [x][..0] == [] && [y][..0] == [];
    assert Frame(sa, lineY, [x]) == Step(sa, lineY, x);
    assert Frame(sa, lineY, [y]) == Step(sa, lineY, y);
    assert Frame(sa, lineY, [x, y]) == Step(Step(sa, lineY, x), lineY, y);
    assert Frame(sa, lineY, [y, x]) == Step(Step(sa, lineY, y), lineY, x);
    StepCommutes(sa, lineY, x, y);
  }

  /** Over a frame, the sum of the tallies grows by no more than the number of
      identities newly recorded: every increment belongs to a distinct,
      newly counted identity. */
  lemma {:induction false} FrameTotal(s: CounterState, lineY: int, dets: seq<Tracked>, keys: seq<string>)
    requires forall k :: k in keys ==> k in s.tallies
    requires forall i, j :: 0 <= i < j < |keys| ==> keys[i] != keys[j]
    ensures var r := Frame(s, lineY, dets);
      Total(r.tallies, keys) - Total(s.tallies, keys) <= |r.counted| - |s.counted|
    decreases |dets|
  {
    if |dets| > 0 {
      var prev := Frame(s, lineY, dets[..|dets| - 1]);
      FrameTotal(s, lineY, dets[..|dets| - 1], keys);
      StepTotal(prev, lineY, dets[|dets| - 1], keys);
    }
  }

  /** From the start of a video, the sum of all tallies never exceeds the
      number of counted identities. */
  lemma TalliesBoundedByIdentities(classes: set<string>, order: seq<string>, lineY: int, frames: seq<seq<Tracked>>)
    requires Enumerates(order, classes)
    ensures var r := Run(Initial(classes), lineY, frames);
      Total(r.tallies, order) <= |r.counted|
  {
    var s := Initial(classes);
    RunIsFrameOfAll(s, lineY, frames);
    FrameTotal(s, lineY, Flatten(frames), order);
    TotalZero(s.tallies, order);
  }

  /** The sum of tallies that are all zero is zero. */
  lemma {:induction false} TotalZero(m: map<string, nat>, keys: seq<string>)
    requires forall k :: k in keys ==> k in m && m[k] == 0
    ensures Total(m, keys) == 0
    decreases |keys|
  {
    if |keys| > 0 {
      TotalZero(m, keys[1..]);
    }
  }

  /** A frame whose identities have all been counted before changes nothing. */
  lemma {:induction false} FrameOfCounted(s: CounterState, lineY: int, dets: seq<Tracked>)
    requires forall i :: 0 <= i < |dets| ==> dets[i].trackId in s.counted
    ensures Frame(s, lineY, dets) == s
    decreases |dets|
  {
    if |dets| > 0 {
      FrameOfCounted(s, lineY, dets[..|dets| - 1]);
    }
  }

  /** Once every identity that appears in the frames after the first `k` has
      been counted, those later frames change nothing. */
  lemma {:induction false} LaterFramesOfCounted(s: CounterState, lineY: int, frames: seq<seq<Tracked>>, k: nat)
    requires k <= |frames|
    requires forall j, d :: k <= j < |frames| && d in frames[j] ==> d.trackId in Run(s, lineY, frames[..k]).counted
    ensures Run(s, lineY, frames) == Run(s, lineY, frames[..k])
    decreases |frames|
  {
    if |frames| == k {
      assert frames[..k] == frames;
    } else {
      var init := frames[..|frames| - 1];
      var last := frames[|frames| - 1];
      assert init[..k] == frames[..k];
      LaterFramesOfCounted(s, lineY, init, k);
      assert forall i :: 0 <= i < |last| ==> last[i] in last;
      FrameOfCounted(Run(s, lineY, frames[..k]), lineY, last);
    }
  }

  /** Once an identity is counted, it stays counted for the rest of the video,
      and no later detection with that identity changes anything. */
  lemma CountedOnce(s: CounterState, lineY: int, frames: seq<seq<Tracked>>, t: Tracked)
    requires t.trackId in s.counted
    ensures var r := Run(s, lineY, frames);
      t.trackId in r.counted && Step(r, lineY, t) == r
  {
  }

  // ---------------------------------------------------------------------------
  // A worked scenario

  /** The car with identity 9 of the scenario below, its box centered on row `y`. */
  function Car9(y: int): Tracked
  {
    Tracked(Box(0, y, 0, y), 9, "car")
  }

  /** A car with identity 9 whose center moves in and out of the band around
      row 200 over five frames (rows 205, 195, 206, 194, 207) is counted once,
      on the first frame, and never again. */
  lemma OscillatingCarCountedOnce(classes: set<string>, frames: seq<seq<Tracked>>)
    requires "car" in classes
    requires frames == [[Car9(205)], [Car9(195)], [Car9(206)], [Car9(194)], [Car9(207)]]
    ensures Run(Initial(classes), 200, frames[..1]).tallies["car"] == 1
    ensures Run(Initial(classes), 200, frames) == Run(Initial(classes), 200, frames[..1])
  {
    FirstFrameScenario(Initial(classes), frames);
    var s1 := Step(Initial(classes), 200, Car9(205));
    forall j, d | 1 <= j < |frames| && d in frames[j] ensures d.trackId in s1.counted {
      assert d.trackId == 9;
    }
    LaterFramesOfCounted(Initial(classes), 200, frames, 1);
  }

  /** The first frame of the scenario counts car 9. */
  lemma FirstFrameScenario(s0: CounterState, frames: seq<seq<Tracked>>)
    requires s0.counted == {} && "car" in s0.tallies && s0.tallies["car"] == 0
    requires |frames| > 0 && frames[0] == [Car9(205)]
    ensures Run(s0, 200, frames[..1]) == Frame(s0, 200, [Car9(205)]) == Step(s0, 200, Car9(205))
    ensures Step(s0, 200, Car9(205)).counted == {9} && Step(s0, 200, Car9(205)).tallies["car"] == 1
  {
    assert frames[..1][..0] == [];
    assert [Car9(205)][..0] == [];
  }
}

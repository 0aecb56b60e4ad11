/** The counter as the application runs it: state set up once per video and
    updated in place for every tracked detection of every frame. */
module Counter {
  import opened Detections
  import opened Counting
  import opened Overlay

  class CrossingCounter {
    /** Track identities that have already been counted. */
    var countedIds: set<int>
    /** One tally per countable class. */
    var countByClass: map<string, nat>
    /** The counting row, fixed for the whole video. */
    const lineY: int
    /** The order of the tally map's keys (the order the overlay lists them in). */
    const classOrder: seq<string>

    ghost predicate Valid()
      reads this
    {
      && Enumerates(classOrder, countByClass.Keys)
      && Total(countByClass, classOrder) <= |countedIds|
    }

    /** The counter's state as a value. */
    function State(): CounterState
      reads this
    {
      CounterState(countedIds, countByClass)
    }

    /** Sets up the counter for a video of the given frame height that counts
        `trackClasses`, whose tallies are listed in the order `order`. */
    constructor (height: int, trackClasses: set<string>, order: seq<string>)
      requires Enumerates(order, trackClasses)
      ensures Valid()
      ensures lineY == LineY(height) && classOrder == order
      ensures State() == Initial(trackClasses)
    {
      var tallies := map k | k in trackClasses :: 0;
      lineY := height / 2;
      classOrder := order;
      countByClass := tallies;
      countedIds := {};
      TotalZero(tallies, order);
    }

    /** Handles one tracked detection: counts its identity, and its class when
        that class has a tally, the first time its center is inside the band. */
    method Step(t: Tracked)
      requires Valid()
      modifies this
      ensures Valid()
      ensures State() == Counting.Step(old(State()), lineY, t)
    {
      ghost var before := State();
      var centerY := (t.box.y1 + t.box.y2) / 2;
      if t.trackId !in countedIds && lineY - Margin < centerY < lineY + Margin {
        countedIds := countedIds + {t.trackId};
        if t.className in countByClass {
          countByClass := countByClass[t.className := countByClass[t.className] + 1];
        }
      }
      StepTotal(before, lineY, t, classOrder);
    }

    /** Handles the tracked detections of one frame, in the tracker's order. */
    method ProcessFrame(tracked: seq<Tracked>)
      requires Valid()
      modifies this
      ensures Valid()
      ensures State() == Frame(old(State()), lineY, tracked)
    {
      for i := 0 to |tracked|
        invariant Valid()
        invariant State() == Frame(old(State()), lineY, tracked[..i])
      {
        Step(tracked[i]);
        assert tracked[..i + 1][..i] == tracked[..i];
      }
      assert tracked[..|tracked|] == tracked;
    }
  }

  /** The text drawn at the top of a frame for the given tallies. */
  function Banner(tallies: map<string, nat>, order: seq<string>): string
    requires forall k :: k in order ==> k in tallies
  {
    "Total Passed - " + OverlayText(tallies, order)
  }

  /** The tallies after the first `n` frames of a video of the given height,
      counting `classes`. */
  function TalliesAfter(height: int, classes: set<string>, frames: seq<seq<Tracked>>, n: nat): (m: map<string, nat>)
    requires n <= |frames|
    ensures m.Keys == classes
  {
    Run(Initial(classes), LineY(height), frames[..n]).tallies
  }

  lemma RunNextFrame(height: int, classes: set<string>, frames: seq<seq<Tracked>>, i: nat)
    requires i < |frames|
    ensures Run(Initial(classes), LineY(height), frames[..i + 1])
         == Frame(Run(Initial(classes), LineY(height), frames[..i]), LineY(height), frames[i])
  {
    assert frames[..i + 1][..i] == frames[..i];
  }

  /** Counts the objects of `classes` in a video given as the tracker's output for each frame, and returns the
      tally banner drawn on each frame: after frame `i` has been counted, the
      banner shows the tallies of the first `i + 1` frames. */
  method CountVideo(height: int, classes: set<string>, order: seq<string>, frames: seq<seq<Tracked>>) returns (banners: seq<string>)
    requires Enumerates(order, classes)
    ensures |banners| == |frames|
    ensures forall i :: 0 <= i < |frames| ==> banners[i] == Banner(TalliesAfter(height, classes, frames, i + 1), order)
  {
    var counter := new CrossingCounter(height, classes, order);
    banners := [];
    for i := 0 to |frames|
      invariant counter.Valid()
      invariant counter.lineY == LineY(height) && counter.classOrder == order
      invariant counter.State() == Run(Initial(classes), LineY(height), frames[..i])
      invariant |banners| == i
      invariant forall j :: 0 <= j < i ==> banners[j] == Banner(TalliesAfter(height, classes, frames, j + 1), order)
    {
      counter.ProcessFrame(frames[i]);
      RunNextFrame(height, classes, frames, i);
      banners := banners + [Banner(counter.countByClass, order)];
    }
  }

  /** The application's instance of `CountVideo`: cars and trucks are counted,
      and their tallies are listed in the order `order`. */
  method CountCarsAndTrucks(height: int, order: seq<string>, frames: seq<seq<Tracked>>) returns (banners: seq<string>)
    requires Enumerates(order, TrackClasses)
    ensures |banners| == |frames|
    ensures forall i :: 0 <= i < |frames| ==> banners[i] == Banner(TalliesAfter(height, TrackClasses, frames, i + 1), order)
  {
    banners := CountVideo(height, TrackClasses, order, frames);
  }
}

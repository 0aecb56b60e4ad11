# Vehicle line-crossing counter, modelled in Dafny

The application is a video pipeline. A detector finds objects in each frame, and the
detections are filtered to the countable classes ("car" and "truck"). A tracker gives
each object a persistent track identity. A counter registers an object once, the first
time the center of its box lies strictly within 10 pixels of a horizontal line at
half the frame height. Each frame is then annotated with a running tally per
class, listed in the tally dictionary's key order, for example "Car: 2 | Truck: 1".

This project models the counter and the two pure pieces around it:

- `detections.dfy`, module `Detections`: boxes, detections, tracked detections, the
  countable classes, and the class filter.
- `counting.dfy`, module `Counting`: the counter as values. It holds the state
  (counted identities, one tally per class), the decision for one tracked detection
  (`Step`), and its effect over one frame (`Frame`) and over a whole video (`Run`).
  The lemmas about these functions are here.
- `overlay.dfy`, module `Overlay`: the tally overlay text. It covers capitalisation,
  decimal notation with a parse-back partner, and joining segments with " | ". Lemmas
  give the layout of the text segment by segment.
- `counter.dfy`, module `Counter`: the counter as the application runs it. The class
  `CrossingCounter` holds mutable fields `countedIds`, `countByClass`, `lineY` and
  `classOrder`. Its methods `Step` and `ProcessFrame` are proved against
  `Counting.Step` and `Counting.Frame`. `CountVideo` is the frame loop: it returns the
  banner drawn on every frame. `CountCarsAndTrucks` is the instance the application
  runs, with the classes "car" and "truck".

Inputs that come from outside the counter are parameters:

- the tracker's output, one sequence of `(box, track id, class name)` per frame;
- the frame height;
- the iteration order of the countable-class set. The tally dictionary is built by
  iterating a Python set of strings, so its key order is not fixed by the program.

Two consequences of the code are worth stating:

- A detection whose class has no tally still has its identity recorded when its
  center is inside the band (app.py:68-71). See `Counting.UncountedClass`.
- The band is open at both ends, `line_y - 10 < center_y < line_y + 10` (app.py:68).
  On whole pixel rows it is the 19 rows from `line_y - 9` to `line_y + 9`. See
  `Counting.InBand` and `Counting.BandEdges`.

## Model

| member | source | states |
|---|---|---|
| `Detections.Filter` | app.py:58-59 | Every kept detection has a countable class. Each detection occurs in the result exactly as often as in the input when its class is countable, and otherwise not at all. The result is no longer than the input. |
| `Detections.FilterAppend` | app.py:59 | Filtering distributes over concatenation, so the kept detections stay in their original order. |
| `Detections.FilterIdempotent` | app.py:59 | Filtering a filtered frame again keeps it unchanged. |
| `Counting.CenterY` | app.py:65 | The center row is the floor of the midpoint: `2c <= y1 + y2 < 2c + 2`. For a box with `y1 <= y2` it lies between `y1` and `y2`. |
| `Counting.LineY` | app.py:46 | The counting row is the floor of half the height: `2y <= height < 2y + 2`. It lies inside the frame for a non-negative height. |
| `Counting.InBand` | app.py:68 | A center row is inside the band exactly when it lies from `lineY - 9` to `lineY + 9`: both edges at distance 10 are outside. |
| `Counting.Fires` | app.py:68 | A detection is counted now exactly when its identity was never counted and its center row lies from `lineY - 9` to `lineY + 9`. |
| `Counting.Initial` | app.py:43-45 | At setup no identity is counted, the tally keys are exactly the countable classes, and every tally is 0. |
| `Counting.Step` | app.py:65-71 | An already-counted identity changes nothing, wherever its box is. Otherwise the identity is added exactly when its center lies strictly inside the band. The tally keys never change, and no tally other than the detection's own class changes. That class's tally rises by exactly 1 when the detection is counted, and is unchanged otherwise. |
| `Counting.BandEdges` | app.py:68 | For a fresh identity, a center exactly at `lineY - 10` or `lineY + 10` is not counted, and a center on the line is counted. |
| `Counting.UncountedClass` | app.py:68-71 | A class without a tally never changes any tally, but its identity is still recorded when it is counted. |
| `Counting.StepCommutes` | app.py:62-71 | Two detections with different identities give the same state in either order. |
| `Counting.Frame` | app.py:62-71 | Over one frame, counted identities are kept, the tally keys stay the same, and no tally decreases. |
| `Counting.Run` | app.py:50-71 | Over any number of frames, counted identities are kept, the tally keys stay the same, and no tally decreases. |
| `Counting.TotalIncrement` | app.py:71 | Incrementing one tally raises the sum over distinct keys by 1 if that class is summed, and by 0 otherwise. |
| `Counting.TotalZero` | app.py:44 | The sum of the setup tallies is 0. |
| `Counting.StepTotal` | app.py:68-71 | One step records at most one new identity. The sum of the tallies rises by at most the number of identities it records. |
| `Counting.FrameAppend` | app.py:50-71 | Handling detections `a` and then `b` equals handling `a + b`. |
| `Counting.RunIsFrameOfAll` | app.py:50-71 | A video is counted as one long sequence of detections. Frame boundaries play no part. |
| `Counting.SwapNeighbours` | app.py:62-71 | Swapping two neighbouring detections with different identities within a frame leaves the result unchanged. |
| `Counting.FrameTotal` | app.py:68-71 | Over a frame, the sum of the tallies grows by no more than the number of newly counted identities. |
| `Counting.TalliesBoundedByIdentities` | app.py:43-71 | From setup onward, the sum of all tallies never exceeds the number of counted identities. |
| `Counting.FrameOfCounted` | app.py:68 | A frame whose identities are all already counted changes nothing. |
| `Counting.LaterFramesOfCounted` | app.py:50-71 | Once every identity appearing in later frames is counted, those frames change nothing. |
| `Counting.CountedOnce` | app.py:68-69 | A counted identity stays counted through any later frames, and a later detection with it is a no-op. |
| `Counting.OscillatingCarCountedOnce` | app.py:62-71 | Car 9 moves in and out of the band around row 200 (rows 205, 195, 206, 194, 207). It is counted on the first frame, giving tally 1, and the later frames change nothing. |
| `Counter.CrossingCounter.constructor` | app.py:43-46 | The new counter has `lineY = height / 2` (floor), the given key order, and the state `Initial(trackClasses)`. |
| `Counter.CrossingCounter.Step` | app.py:62-71 | Updating the fields in place yields exactly `Counting.Step` of the old state. It keeps the invariant that the tally keys are the ordered classes and the tallies sum to at most the number of counted identities. |
| `Counter.CrossingCounter.ProcessFrame` | app.py:62-71 | The loop over one frame's tracked detections leaves the state `Counting.Frame(old state, lineY, tracked)` and keeps the invariant. |
| `Counter.TalliesAfter` | app.py:50-71 | The tallies after the first `n` frames have exactly the counted classes as keys. `Counter.RunNextFrame` relates the tallies after `i + 1` frames to those after `i` frames plus frame `i`. |
| `Counter.RunNextFrame` | app.py:50-71 | The state after frames `0..i` is the state after frames `0..i-1` followed by the counting of frame `i`. |
| `Counter.Banner` | app.py:84 | The banner is "Total Passed - " followed by the overlay text. Its placement in the frame loop is stated by `Counter.CountVideo`. |
| `Counter.CountVideo` | app.py:43-85 | For each frame `i`, the returned banner is "Total Passed - " followed by the overlay of the tallies after frames `0..i`. |
| `Counter.CountCarsAndTrucks` | app.py:43-85 | The same as `CountVideo` for the application's classes, "car" and "truck": banner `i` shows their tallies after frames `0..i`. |
| `Overlay.Capitalize` | app.py:83 | Same length and the same letters up to case. The first character is not lower-case and no later character is upper-case (ASCII). |
| `Overlay.CapitalizeIdempotent` | app.py:83 | Capitalizing twice equals capitalizing once. |
| `Overlay.CapitalizedClassNames` | app.py:83 | "car" is shown as "Car" and "truck" as "Truck". |
| `Overlay.NatToString` | app.py:83 | A tally is written as a non-empty string of decimal digits with no leading zero: a string starting with "0" is exactly "0", the notation of zero. |
| `Overlay.ParseNatToString` | app.py:83 | Reading back the decimal notation of a tally gives that tally. |
| `Overlay.NatToStringInjective` | app.py:83 | Different tallies are written differently. |
| `Overlay.Segment` | app.py:83 | One dictionary entry shown as the capitalized class name, ": " and the tally. Its layout is stated by `Overlay.SegmentReadsBack`. |
| `Overlay.Join` | app.py:83 | Parts joined with a separator between neighbours. Its layout is stated by `Overlay.JoinLayout`. |
| `Overlay.OverlayText` | app.py:83 | The segments of all tally keys, in key order, joined with a space, a vertical bar and a space. Its layout is stated by `Overlay.OverlaySegmentAt`, `Overlay.OverlaySeparatorAfter` and `Overlay.OverlayEnd`. |
| `Overlay.Segments` | app.py:83 | There is one segment per tally key. |
| `Overlay.SegmentsAt` | app.py:83 | Segments follow the key order: segment `i` is the capitalized name of class `order[i]`, ": " and that class's tally. |
| `Overlay.JoinLayout` | app.py:83 | The joined text holds part `i` at its offset. A separator follows each part except the last, and the last part ends the text. |
| `Overlay.OverlaySegmentAt` | app.py:83 | The overlay holds the segment of the `i`-th class and its tally where that segment starts. |
| `Overlay.SegmentStartNext` | app.py:83 | The next segment starts exactly after segment `i` and one separator. |
| `Overlay.OverlaySeparatorAfter` | app.py:83 | Each segment but the last is followed by the separator (a space, a vertical bar and a space), which reaches exactly to the start of the next segment. |
| `Overlay.OverlayEnd` | app.py:83 | The overlay is empty when there are no tallies. Otherwise it ends exactly with the last class's segment. |
| `Overlay.SegmentReadsBack` | app.py:83 | A segment in the text reads as the capitalized class name, then ": ", then digits that parse back to the tally. |
| `Overlay.OverlayExample` | app.py:83 | One car and two trucks, in the order car then truck, give "Car: 1", the separator, then "Truck: 2". |

## Left out

- Video decoding and encoding, the upload and download, and the UI text (app.py:11-12, 22-39, 87-97) are I/O with no counting logic.
- Model loading and detection (app.py:15-20, 55-56) are a neural network behind a foreign library. Detections are inputs.
- ByteTrack tracking (app.py:48, 60) is an external algorithm. Its output per frame is the input of `CountVideo`. For this reason `Detections.Filter` is modelled on its own and is not composed with the counter.
- The unused `class_ids` map (app.py:42) and the `model.names` lookup from class index to name (app.py:59, 63) are left out. Class names are strings directly.
- The truncation of floating-point box coordinates to integers (app.py:64) is left out. Boxes have integer coordinates. Dafny's `/ 2` rounds down like Python's `// 2` for every integer.
- Drawing boxes, labels, the line and the text, and the choice of colours (app.py:74-80, 84-85) are rendering. Only the banner's text is modelled.
- Overlay.Capitalize: changes the case of ASCII letters only. Python's `str.capitalize` also title-cases or lower-cases other Unicode letters.
- The key order of the tally dictionary is a parameter (`order` or `classOrder`) that lists each countable class once. In the source it is the iteration order of a Python set of strings, which can vary from run to run.
- Track identities are unbounded integers. The tracker's fixed-width integer type is not modelled.

/** The running-tally text drawn on every frame: one "Class: n" segment per
    tally, in the tally map's order, separated by " | ". */
module Overlay {

  // ---------------------------------------------------------------------------
  // Letter case (ASCII letters; every other character is left as it is)

  predicate IsLower(c: char) { 'a' <= c <= 'z' }

  predicate IsUpper(c: char) { 'A' <= c <= 'Z' }

  function ToUpper(c: char): char
  {
    if IsLower(c) then (c as int - 32) as char else c
  }

  function ToLower(c: char): char
  {
    if IsUpper(c) then (c as int + 32) as char else c
  }

  /** The string with every character in lower case. */
  function LowerAll(s: string): (r: string)
    ensures |r| == |s|
    ensures forall i :: 0 <= i < |s| ==> r[i] == ToLower(s[i])
  {
    if |s| == 0 then "" else [ToLower(s[0])] + LowerAll(s[1..])
  }

  /** The string with its first character in upper case and all others in
      lower case. */
  function Capitalize(s: string): (r: string)
    ensures |r| == |s|
    // the same letters, only their case may differ
    ensures forall i :: 0 <= i < |s| ==> ToLower(r[i]) == ToLower(s[i])
    ensures |s| > 0 ==> !IsLower(r[0])
    ensures forall i :: 0 < i < |r| ==> !IsUpper(r[i])
  {
    if |s| == 0 then ""
    else [ToUpper(s[0])] + LowerAll(s[1..])
  }

  /** Capitalizing a capitalized string changes nothing. */
  lemma CapitalizeIdempotent(s: string)
    ensures Capitalize(Capitalize(s)) == Capitalize(s)
  {
  }

  /** The two class names the application counts are shown as "Car" and "Truck". */
  lemma CapitalizedClassNames()
    ensures Capitalize("car") == "Car"
    ensures Capitalize("truck") == "Truck"
  {
  }

  // ---------------------------------------------------------------------------
  // Decimal notation of a tally

  predicate IsDigit(c: char) { '0' <= c <= '9' }

  predicate AllDigits(s: string)
  {
    forall i :: 0 <= i < |s| ==> IsDigit(s[i])
  }

  function DigitChar(d: nat): (c: char)
    requires d < 10
    ensures IsDigit(c)
  {
    ('0' as int + d) as char
  }

  function DigitValue(c: char): (d: nat)
    requires IsDigit(c)
    ensures d < 10
  {
    c as int - '0' as int
  }

  /** The decimal notation of `n`, without leading zeros. */
  function NatToString(n: nat): (s: string)
    ensures |s| > 0 && AllDigits(s)
    ensures s[0] == '0' ==> s == "0" && n == 0
    decreases n
  {
    if n < 10 then [DigitChar(n)] else NatToString(n / 10) + [DigitChar(n % 10)]
  }

  /** The number a string of decimal digits denotes. */
  function ParseDecimal(s: string): nat
    requires AllDigits(s)
    decreases |s|
  {
    if |s| == 0 then 0 else 10 * ParseDecimal(s[..|s| - 1]) + DigitValue(s[|s| - 1])
  }

  /** Reading back the decimal notation of a tally yields that tally. */
  lemma {:induction false} ParseNatToString(n: nat)
    ensures ParseDecimal(NatToString(n)) == n
    decreases n
  {
    var s := NatToString(n);
    if n < 10 {
      assert s[..0] == "";
    } else {
      ParseNatToString(n / 10);
      assert s[..|s| - 1] == NatToString(n / 10);
    }
  }

  /** Decimal notation is one-to-one: different tallies are shown differently. */
  lemma NatToStringInjective(m: nat, n: nat)
    requires NatToString(m) == NatToString(n)
    ensures m == n
  {
    ParseNatToString(m);
    ParseNatToString(n);
  }

  // ---------------------------------------------------------------------------
  // Joining segments with a separator

  /** The parts, with `sep` between each two neighbours. */
  function Join(parts: seq<string>, sep: string): string
    decreases |parts|
  {
    if |parts| == 0 then ""
    else if |parts| == 1 then parts[0]
    else parts[0] + sep + Join(parts[1..], sep)
  }

  /** Where part `i` starts when `parts` are laid out with `sep` between them. */
  function Offset(parts: seq<string>, sep: string, i: nat): nat
    requires i <= |parts|
  {
    if i == 0 then 0 else Offset(parts, sep, i - 1) + |parts[i - 1]| + |sep|
  }

  lemma {:induction false} OffsetShift(parts: seq<string>, sep: string, i: nat)
    requires i < |parts|
    ensures Offset(parts, sep, i + 1) == |parts[0]| + |sep| + Offset(parts[1..], sep, i)
  {
    if i > 0 {
      OffsetShift(parts, sep, i - 1);
      assert parts[1..][i - 1] == parts[i];
    }
  }

  lemma SliceOfAppend(a: string, b: string, lo: nat, hi: nat)
    requires |a| <= lo <= hi <= |a| + |b|
    ensures (a + b)[lo..hi] == b[lo - |a|..hi - |a|]
  {
  }

  lemma SliceOfSlice(s: string, lo: nat, hi: nat, i: nat, j: nat)
    requires lo <= hi <= |s| && i <= j <= hi - lo
    ensures s[lo..hi][i..j] == s[lo + i..lo + j]
  {
    assert forall k :: 0 <= k < j - i ==> s[lo..hi][i..j][k] == s[lo + i + k];
  }

  /** The joined text starts with the first part. */
  lemma JoinFirst(parts: seq<string>, sep: string)
    requires |parts| > 0
    ensures |parts[0]| <= |Join(parts, sep)|
    ensures Join(parts, sep)[0..|parts[0]|] == parts[0]
  {
  }

  /** The joined text holds part `i` at `Offset(parts, sep, i)`. */
  lemma {:induction false} JoinPart(parts: seq<string>, sep: string, i: nat)
    requires i < |parts|
    ensures Offset(parts, sep, i) + |parts[i]| <= |Join(parts, sep)|
    ensures Join(parts, sep)[Offset(parts, sep, i)..Offset(parts, sep, i) + |parts[i]|] == parts[i]
    decreases |parts|
  {
    if i == 0 {
      JoinFirst(parts, sep);
    } else {
      var head := parts[0] + sep;
      var rest := Join(parts[1..], sep);
      assert Join(parts, sep) == head + rest;
      JoinPart(parts[1..], sep, i - 1);
      OffsetShift(parts, sep, i - 1);
      assert parts[1..][i - 1] == parts[i];
      SliceOfAppend(head, rest, Offset(parts, sep, i), Offset(parts, sep, i) + |parts[i]|);
    }
  }

  /** Between part `i` and part `i + 1` the joined text holds `sep`. */
  lemma {:induction false} JoinSeparator(parts: seq<string>, sep: string, i: nat)
    requires i + 1 < |parts|
    ensures Offset(parts, sep, i + 1) <= |Join(parts, sep)|
    ensures Join(parts, sep)[Offset(parts, sep, i) + |parts[i]|..Offset(parts, sep, i + 1)] == sep
    decreases |parts|
  {
    var head := parts[0] + sep;
    var rest := Join(parts[1..], sep);
    assert Join(parts, sep) == head + rest;
    if i == 0 {
      assert (head + rest)[|parts[0]|..|parts[0]| + |sep|] == sep;
    } else {
      JoinSeparator(parts[1..], sep, i - 1);
      OffsetShift(parts, sep, i - 1);
      OffsetShift(parts, sep, i);
      assert parts[1..][i - 1] == parts[i];
      SliceOfAppend(head, rest, Offset(parts, sep, i) + |parts[i]|, Offset(parts, sep, i + 1));
    }
  }

  /** The joined text ends with its last part. */
  lemma {:induction false} JoinEnd(parts: seq<string>, sep: string)
    requires |parts| > 0
    ensures |Join(parts, sep)| == Offset(parts, sep, |parts| - 1) + |parts[|parts| - 1]|
    decreases |parts|
  {
    if |parts| > 1 {
      assert |Join(parts, sep)| == |parts[0]| + |sep| + |Join(parts[1..], sep)|;
      assert parts[1..][|parts| - 2] == parts[|parts| - 1];
      JoinEnd(parts[1..], sep);
      OffsetShift(parts, sep, |parts| - 2);
    }
  }

  /** The joined text holds part `i` at `Offset(parts, sep, i)`, then `sep`
      up to the next part's offset, or nothing more after the last part. */
  lemma JoinLayout(parts: seq<string>, sep: string, i: nat)
    requires i < |parts|
    ensures Offset(parts, sep, i) + |parts[i]| <= |Join(parts, sep)|
    ensures Join(parts, sep)[Offset(parts, sep, i)..Offset(parts, sep, i) + |parts[i]|] == parts[i]
    ensures i + 1 < |parts| ==>
      && Offset(parts, sep, i + 1) <= |Join(parts, sep)|
      && Join(parts, sep)[Offset(parts, sep, i) + |parts[i]|..Offset(parts, sep, i + 1)] == sep
    ensures i + 1 == |parts| ==> |Join(parts, sep)| == Offset(parts, sep, i) + |parts[i]|
  {
    JoinPart(parts, sep, i);
    if i + 1 < |parts| {
      JoinSeparator(parts, sep, i);
    } else {
      JoinEnd(parts, sep);
    }
  }

  // ---------------------------------------------------------------------------
  // The overlay text

  const Separator: string := " | "

  /** The segment shown for one class and its tally, e.g. "Car: 3". */
  function Segment(className: string, tally: nat): string
  {
    Capitalize(className) + ": " + NatToString(tally)
  }

  /** One segment per class of `order`, in that order. */
  function Segments(tallies: map<string, nat>, order: seq<string>): (parts: seq<string>)
    requires forall k :: k in order ==> k in tallies
    ensures |parts| == |order|
  {
    if |order| == 0 then [] else [Segment(order[0], tallies[order[0]])] + Segments(tallies, order[1..])
  }

  /** Segment `i` shows class `order[i]` with its tally. */
  lemma {:induction false} SegmentsAt(tallies: map<string, nat>, order: seq<string>, i: nat)
    requires forall k :: k in order ==> k in tallies
    requires i < |order|
    ensures Segments(tallies, order)[i] == Segment(order[i], tallies[order[i]])
  {
    if i > 0 {
      SegmentsAt(tallies, order[1..], i - 1);
      assert order[1..][i - 1] == order[i];
    }
  }

  /** The tally overlay for `tallies` listed in the map's order `order`. */
  function OverlayText(tallies: map<string, nat>, order: seq<string>): string
    requires forall k :: k in order ==> k in tallies
  {
    Join(Segments(tallies, order), Separator)
  }

  /** Where the segment of class `order[i]` starts in the overlay. */
  function SegmentStart(tallies: map<string, nat>, order: seq<string>, i: nat): nat
    requires forall k :: k in order ==> k in tallies
    requires i <= |order|
  {
    Offset(Segments(tallies, order), Separator, i)
  }

  /** The overlay holds the segment of class `order[i]` and its tally at
      `SegmentStart(tallies, order, i)`. */
  lemma OverlaySegmentAt(tallies: map<string, nat>, order: seq<string>, i: nat)
    requires forall k :: k in order ==> k in tallies
    requires i < |order|
    ensures SegmentStart(tallies, order, i) + |Segment(order[i], tallies[order[i]])| <= |OverlayText(tallies, order)|
    ensures OverlayText(tallies, order)[SegmentStart(tallies, order, i)..SegmentStart(tallies, order, i) + |Segment(order[i], tallies[order[i]])|]
         == Segment(order[i], tallies[order[i]])
  {
    SegmentsAt(tallies, order, i);
    JoinPart(Segments(tallies, order), Separator, i);
  }

  /** The next segment starts after segment `i` and one separator. */
  lemma SegmentStartNext(tallies: map<string, nat>, order: seq<string>, i: nat)
    requires forall k :: k in order ==> k in tallies
    requires i < |order|
    ensures SegmentStart(tallies, order, i + 1) == SegmentStart(tallies, order, i) + |Segment(order[i], tallies[order[i]])| + |Separator|
  {
    SegmentsAt(tallies, order, i);
  }

  /** Each segment but the last is followed by the separator " | ", which
      reaches up to where the next segment starts. */
  lemma OverlaySeparatorAfter(tallies: map<string, nat>, order: seq<string>, i: nat)
    requires forall k :: k in order ==> k in tallies
    requires i + 1 < |order|
    ensures SegmentStart(tallies, order, i + 1) <= |OverlayText(tallies, order)|
    ensures SegmentStart(tallies, order, i + 1) == SegmentStart(tallies, order, i) + |Segment(order[i], tallies[order[i]])| + |Separator|
    ensures OverlayText(tallies, order)[SegmentStart(tallies, order, i) + |Segment(order[i], tallies[order[i]])|..SegmentStart(tallies, order, i + 1)]
         == Separator
  {
    SegmentStartNext(tallies, order, i);
    JoinSeparator(Segments(tallies, order), Separator, i);
  }

  /** The overlay is empty when there is no tally, and otherwise ends with the
      last class's segment. */
  lemma OverlayEnd(tallies: map<string, nat>, order: seq<string>)
    requires forall k :: k in order ==> k in tallies
    ensures |order| == 0 ==> OverlayText(tallies, order) == ""
    ensures |order| > 0 ==>
      |OverlayText(tallies, order)|
        == SegmentStart(tallies, order, |order| - 1) + |Segment(order[|order| - 1], tallies[order[|order| - 1]])|
  {
    var parts := Segments(tallies, order);
    if |order| == 0 {
      assert |parts| == 0;
    } else {
      SegmentsAt(tallies, order, |order| - 1);
      JoinEnd(parts, Separator);
    }
  }

  /** The three parts of a segment, at their offsets within it. */
  lemma SegmentParts(className: string, tally: nat)
    ensures
      var name := Capitalize(className);
      var seg := Segment(className, tally);
      && |seg| == |name| + 2 + |NatToString(tally)|
      && seg[..|name|] == name
      && seg[|name|..|name| + 2] == ": "
      && seg[|name| + 2..] == NatToString(tally)
  {
    var name := Capitalize(className);
    var n := NatToString(tally);
    assert Segment(className, tally) == name + ": " + n;
  }

  /** A segment found at `start` in `text` reads back as its class name and tally. */
  lemma SegmentReadsBack(text: string, start: nat, className: string, tally: nat)
    requires start + |Segment(className, tally)| <= |text|
    requires text[start..start + |Segment(className, tally)|] == Segment(className, tally)
    ensures
      var name := Capitalize(className);
      var digits := start + |name| + 2;
      var end := start + |Segment(className, tally)|;
      && digits < end
      && text[start..start + |name|] == name
      && text[start + |name|..digits] == ": "
      && AllDigits(text[digits..end])
      && ParseDecimal(text[digits..end]) == tally
  {
    var name := Capitalize(className);
    var seg := Segment(className, tally);
    var end := start + |seg|;
    SegmentParts(className, tally);
    SliceOfSlice(text, start, end, 0, |name|);
    SliceOfSlice(text, start, end, |name|, |name| + 2);
    SliceOfSlice(text, start, end, |name| + 2, |seg|);
    ParseNatToString(tally);
  }

  /** The overlay for the application's classes, as the source's map order
      would show it after one car and two trucks. */
  lemma OverlayExample(tallies: map<string, nat>)
    requires tallies == map["car" := 1, "truck" := 2]
    ensures OverlayText(tallies, ["car", "truck"]) == "Car: 1 | Truck: 2"
  {
    ExampleSegments(tallies);
    JoinTwo("Car: 1", "Truck: 2", Separator);
  }

  lemma ExampleSegments(tallies: map<string, nat>)
    requires tallies == map["car" := 1, "truck" := 2]
    ensures Segments(tallies, ["car", "truck"]) == ["Car: 1", "Truck: 2"]
  {
    CarSegment();
    TruckSegment();
  }

  lemma JoinTwo(a: string, b: string, sep: string)
    ensures Join([a, b], sep) == a + sep + b
  {
    assert [a, b][1..] == [b];
  }

  lemma CarSegment()
    ensures Segment("car", 1) == "Car: 1"
  {
    CapitalizedClassNames();
    assert NatToString(1) == "1";
  }

  lemma TruckSegment()
    ensures Segment("truck", 2) == "Truck: 2"
  {
    CapitalizedClassNames();
    assert NatToString(2) == "2";
  }
}

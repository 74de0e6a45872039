/** The display segments the sound widget builds from the reduced
    detections: one equal-width band per kept detection, coloured by a hue
    rotation. */
module Segments {
  import opened Numbers
  import opened Reducer

  /** A colour as the widget writes it, `hsl(<hue>,100%,30%)`. */
  datatype Color = Hsl(hue: real, saturation: nat, lightness: nat)

  /** One entry of `detectedClasses`. `duration` is a percentage of the
      whole sound; `confidence` is a percentage too. */
  datatype Segment = Segment(className: string, start: real, duration: Number, color: Color, confidence: real)

  /** JavaScript `%` on non-negative operands. */
  function Rem(x: real, m: real): (r: real)
    requires x >= 0.0 && m > 0.0
    ensures 0.0 <= r < m
    ensures x < m ==> r == x
  {
    var q := (x / m).Floor;
    RemBounds(x, m, q);
    x - m * (q as real)
  }

  lemma RemBounds(x: real, m: real, q: int)
    requires x >= 0.0 && m > 0.0 && q == (x / m).Floor
    ensures m * (q as real) <= x < m * (q as real) + m
    ensures x < m ==> q == 0
  {
    var y := x / m;
    var below, above := m * (q as real), m * (q as real + 1.0);
    assert q as real <= y < q as real + 1.0;
    assert m * y == x;
    MulMonotone(m, q as real, y);
    MulMonotone(m, y, q as real + 1.0);
    assert above == below + m;
    assert m * y < above;
    assert below <= x;
    assert x < above;
    if x < m {
      if y >= 1.0 {
        MulMonotone(m, 1.0, y);
      }
      assert y < 1.0;
    }
  }

  lemma MulMonotone(c: real, a: real, b: real)
    requires c > 0.0 && a <= b
    ensures c * a <= c * b
    ensures a < b ==> c * a < c * b
  {
  }

  /** `_selectColor`: the hue of colour number `colorNum` out of `colors`;
      a count below one is taken as one. */
  function SelectColor(colorNum: nat, colors: int): (c: Color)
    ensures c.saturation == 100 && c.lightness == 30
    ensures 0.0 <= c.hue < 360.0
  {
    var n := if colors < 1 then 1 else colors;
    Hsl(Rem(colorNum as real * (360.0 / n as real), 360.0), 100, 30)
  }

  /** Colours `0 .. n-1` of a count `n` are spaced `360/n` degrees apart. */
  lemma {:induction false} HueIsEvenShare(i: nat, n: int)
    requires i < n
    ensures SelectColor(i, n).hue == i as real * 360.0 / n as real
  {
    var x := i as real * (360.0 / n as real);
    assert x < 360.0 by {
      assert i as real < n as real;
      assert x == 360.0 * (i as real / n as real);
      assert i as real / n as real < 1.0;
    }
  }

  /** The colours handed to the segments of one result are pairwise distinct. */
  lemma DistinctHues(i: nat, j: nat, n: int)
    requires i < n && j < n && i != j
    ensures SelectColor(i, n).hue != SelectColor(j, n).hue
  {
    HueIsEvenShare(i, n);
    HueIsEvenShare(j, n);
    assert i as real * 360.0 / n as real != j as real * 360.0 / n as real by {
      assert i as real * 360.0 != j as real * 360.0;
    }
  }

  /** A colour count below one behaves as one colour, whose only hue is 0. */
  lemma CountBelowOneIsOneColour(i: nat, colors: int)
    requires colors < 1
    ensures SelectColor(i, colors) == SelectColor(i, 1)
    ensures SelectColor(i, colors).hue == 0.0
  {
    var x := i as real * (360.0 / 1 as real);
    assert (x / 360.0).Floor == i;
  }

  /** The width of each of `n` segments, `((total / n) / total) * 100`; a
      total of zero gives `0 / 0`. */
  function SegmentWidth(total: real, n: nat): Number
    requires n > 0
  {
    if total == 0.0 then NaN else Finite((total / n as real) / total * 100.0)
  }

  /** The segment built for entry `i` of `n` reduced detections. */
  function SegmentAt(d: Detection, i: nat, n: nat, total: real): Segment
    requires i < n
  {
    Segment(d.className, d.time, SegmentWidth(total, n), SelectColor(i, n), d.confidence * 100.0)
  }

  /** The segments for a whole reduced list. */
  function SegmentsOf(reduced: seq<Detection>, total: real): seq<Segment>
  {
    seq(|reduced|, i requires 0 <= i < |reduced| => SegmentAt(reduced[i], i, |reduced|, total))
  }

  /** The JavaScript sum of the segments' widths. */
  function TotalWidth(segs: seq<Segment>): Number
  {
    if segs == [] then Finite(0.0) else Add(TotalWidth(DropLast(segs)), Last(segs).duration)
  }

  /** One segment per reduced detection, in order, carrying its class, its
      start time, its confidence as a percentage and colour `i` of `n`; the
      widths are equal shares `100/n` of the sound (NaN when the sound's
      duration is zero). */
  lemma SegmentsDescribeDetections(reduced: seq<Detection>, total: real, i: int)
    requires 0 <= i < |reduced|
    ensures |SegmentsOf(reduced, total)| == |reduced|
    ensures var seg := SegmentsOf(reduced, total)[i];
      && seg.className == reduced[i].className
      && seg.start == reduced[i].time
      && seg.confidence == 100.0 * reduced[i].confidence
      && seg.color == SelectColor(i, |reduced|)
      && (total != 0.0 ==> seg.duration == Finite(100.0 / |reduced| as real))
      && (total == 0.0 ==> seg.duration == NaN)
  {
    var n := |reduced| as real;
    if total != 0.0 {
      assert (total / n) / total == 1.0 / n;
    }
  }

  lemma {:induction false} SumOfEqualWidths(segs: seq<Segment>, w: real)
    requires forall k :: 0 <= k < |segs| ==> segs[k].duration == Finite(w)
    ensures TotalWidth(segs) == Finite(|segs| as real * w)
  {
    if segs != [] {
      SumOfEqualWidths(DropLast(segs), w);
    }
  }

  /** The widths of a non-empty result add up to the whole sound, 100%. */
  lemma WidthsSumTo100(reduced: seq<Detection>, total: real)
    requires reduced != [] && total != 0.0
    ensures TotalWidth(SegmentsOf(reduced, total)) == Finite(100.0)
  {
    var segs := SegmentsOf(reduced, total);
    var n := |reduced| as real;
    forall k | 0 <= k < |segs|
      ensures segs[k].duration == Finite(100.0 / n)
    {
      SegmentsDescribeDetections(reduced, total, k);
    }
    SumOfEqualWidths(segs, 100.0 / n);
    assert n * (100.0 / n) == 100.0;
  }

  /** The loop of `score` that turns the reduced list into `detectedClasses`. */
  method BuildSegments(reduced: seq<Detection>, total: real) returns (detections: seq<Segment>)
    ensures detections == SegmentsOf(reduced, total)
  {
    detections := [];
    var i := 0;
    while i < |reduced|
      invariant 0 <= i <= |reduced|
      invariant |detections| == i
      invariant forall k :: 0 <= k < i ==> detections[k] == SegmentAt(reduced[k], k, |reduced|, total)
    {
      var delta := total / |reduced| as real;
      var duration := if total == 0.0 then NaN else Finite(delta / total * 100.0);
      var segment := Segment(reduced[i].className, reduced[i].time, duration, SelectColor(i, |reduced|), reduced[i].confidence * 100.0);
      detections := detections + [segment];
      i := i + 1;
    }
  }
}

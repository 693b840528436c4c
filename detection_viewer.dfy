/**
 * The computations of the detection viewer component (components/detection-viewer.tsx):
 * the severity pie data, the confidence bar data, and where a detection's box is drawn
 * over an image shown with `object-contain` inside its container.
 */
module DetectionViewer {
  import opened Js
  import opened Wrap
  import opened Store

  // ----- severityData -----

  /** One slice of the severity chart. */
  datatype SeverityEntry = SeverityEntry(name: JsString, value: nat, fill: JsString)

  /** The slice names, in the chart's order. */
  function SeverityName(s: Severity): JsString {
    match s
    case Critical => Utf16("Critical")
    case High => Utf16("High")
    case Medium => Utf16("Medium")
    case Low => Utf16("Low")
  }

  /** The slice colours. */
  function SeverityColor(s: Severity): JsString {
    match s
    case Critical => Utf16("#dc2626")
    case High => Utf16("#ea580c")
    case Medium => Utf16("#eab308")
    case Low => Utf16("#22c55e")
  }

  /** `detections.filter(d => d.severity === s).length`. */
  function CountOf(ds: seq<Detection>, s: Severity): (r: nat)
    ensures r <= |ds|
    decreases |ds|
  {
    if ds == [] then 0
    else CountOf(ds[..|ds| - 1], s) + (if ds[|ds| - 1].severity == s then 1 else 0)
  }

  /** The unfiltered entry for one severity. */
  function EntryFor(ds: seq<Detection>, s: Severity): SeverityEntry {
    SeverityEntry(SeverityName(s), CountOf(ds, s), SeverityColor(s))
  }

  /** `.filter(d => d.value > 0)`. */
  function Positive(es: seq<SeverityEntry>): (r: seq<SeverityEntry>)
    ensures |r| <= |es|
    ensures forall e :: e in r <==> e in es && e.value > 0
    decreases |es|
  {
    if es == [] then []
    else if es[0].value > 0 then [es[0]] + Positive(es[1..])
    else Positive(es[1..])
  }

  /** The severity chart data: the four buckets, critical first, without the empty ones. */
  function SeverityData(ds: seq<Detection>): (r: seq<SeverityEntry>)
    ensures |r| <= 4
    ensures forall e :: e in r ==> e.value > 0 && e.value <= |ds|
  {
    Positive([EntryFor(ds, Critical), EntryFor(ds, High), EntryFor(ds, Medium), EntryFor(ds, Low)])
  }

  /** The sum of the slice values. */
  function Total(es: seq<SeverityEntry>): nat
    decreases |es|
  {
    if es == [] then 0 else es[0].value + Total(es[1..])
  }

  /** Every detection falls in exactly one bucket. */
  lemma {:induction false} BucketsPartition(ds: seq<Detection>)
    ensures CountOf(ds, Critical) + CountOf(ds, High) + CountOf(ds, Medium) + CountOf(ds, Low) == |ds|
    decreases |ds|
  {
    if ds != [] {
      BucketsPartition(ds[..|ds| - 1]);
    }
  }

  /** Dropping empty slices keeps the total. */
  lemma {:induction false} PositiveKeepsTotal(es: seq<SeverityEntry>)
    ensures Total(Positive(es)) == Total(es)
    decreases |es|
  {
    if es != [] {
      PositiveKeepsTotal(es[1..]);
    }
  }

  /** The chart's values add up to the number of detections. */
  lemma SeverityDataTotal(ds: seq<Detection>)
    ensures Total(SeverityData(ds)) == |ds|
  {
    var e0, e1, e2, e3 := EntryFor(ds, Critical), EntryFor(ds, High), EntryFor(ds, Medium), EntryFor(ds, Low);
    var es := [e0, e1, e2, e3];
    PositiveKeepsTotal(es);
    BucketsPartition(ds);
    assert es[1..] == [e1, e2, e3] && [e1, e2, e3][1..] == [e2, e3] && [e2, e3][1..] == [e3] && [e3][1..] == [];
    assert Total([e3]) == e3.value;
    assert Total([e2, e3]) == e2.value + e3.value;
    assert Total([e1, e2, e3]) == e1.value + e2.value + e3.value;
  }

  /** A severity has a slice, holding its count, exactly when some detection has it. */
  lemma SeverityDataSlices(ds: seq<Detection>, s: Severity)
    ensures EntryFor(ds, s) in SeverityData(ds) <==> CountOf(ds, s) > 0
    ensures forall e :: e in SeverityData(ds) ==> e.value > 0
  {
  }

  /** Dropping empty slices works entry by entry: it keeps the order of what it keeps. */
  lemma {:induction false} PositiveAppend(a: seq<SeverityEntry>, b: seq<SeverityEntry>)
    ensures Positive(a + b) == Positive(a) + Positive(b)
    decreases |a|
  {
    if a == [] {
      assert a + b == b;
    } else {
      assert (a + b)[1..] == a[1..] + b;
      PositiveAppend(a[1..], b);
    }
  }

  /** One entry is kept iff its value is positive. */
  lemma PositiveSingle(e: SeverityEntry)
    ensures Positive([e]) == if e.value > 0 then [e] else []
  {
    assert [e][1..] == [];
  }

  /** The slice for one severity, if that severity occurs. */
  function Slice(ds: seq<Detection>, s: Severity): seq<SeverityEntry> {
    if CountOf(ds, s) > 0 then [EntryFor(ds, s)] else []
  }

  /** The chart lists the occurring severities in the order Critical, High, Medium, Low, whichever are empty. */
  lemma SeverityDataOrder(ds: seq<Detection>)
    ensures SeverityData(ds) == Slice(ds, Critical) + Slice(ds, High) + Slice(ds, Medium) + Slice(ds, Low)
  {
    var e0, e1, e2, e3 := EntryFor(ds, Critical), EntryFor(ds, High), EntryFor(ds, Medium), EntryFor(ds, Low);
    assert [e0, e1, e2, e3] == [e0] + [e1] + [e2] + [e3];
    PositiveAppend([e0] + [e1] + [e2], [e3]);
    PositiveAppend([e0] + [e1], [e2]);
    PositiveAppend([e0], [e1]);
    PositiveSingle(e0);
    PositiveSingle(e1);
    PositiveSingle(e2);
    PositiveSingle(e3);
  }

  /** With every bucket filled the chart lists all four, critical first and low last. */
  lemma SeverityDataAllFour(ds: seq<Detection>)
    requires CountOf(ds, Critical) > 0 && CountOf(ds, High) > 0 && CountOf(ds, Medium) > 0 && CountOf(ds, Low) > 0
    ensures SeverityData(ds) == [EntryFor(ds, Critical), EntryFor(ds, High), EntryFor(ds, Medium), EntryFor(ds, Low)]
  {
    SeverityDataOrder(ds);
  }

  // ----- confidenceData -----

  /** One bar of the confidence chart. */
  datatype ConfidenceEntry = ConfidenceEntry(name: JsString, confidence: int)

  /** `s.substring(0, 10)`. */
  function Prefix10(s: JsString): (r: JsString)
    ensures |r| <= 10 && r <= s
    ensures |s| <= 10 ==> r == s
  {
    if |s| <= 10 then s else s[..10]
  }

  /** The confidence chart data: one bar per detection, in order. */
  function ConfidenceData(ds: seq<Detection>): (r: seq<ConfidenceEntry>)
    ensures |r| == |ds|
  {
    seq(|ds|, i requires 0 <= i < |ds| => ConfidenceEntry(Prefix10(ds[i].kind), Round(ds[i].confidence * 100.0)))
  }

  /** Each bar is named by the first ten code units of its type and shows the confidence in whole percent. */
  lemma ConfidenceBars(ds: seq<Detection>, i: nat)
    requires i < |ds|
    ensures var e := ConfidenceData(ds)[i];
      && |e.name| == Min10(|ds[i].kind|) && e.name == ds[i].kind[..|e.name|]
      && (e.confidence as real) - 0.5 <= ds[i].confidence * 100.0 < (e.confidence as real) + 0.5
      && (0.0 <= ds[i].confidence <= 1.0 ==> 0 <= e.confidence <= 100)
  {
  }

  /** The length of a ten-unit prefix of a string of length `n`. */
  function Min10(n: nat): nat {
    if n <= 10 then n else 10
  }

  // ----- boxStyle -----

  /** The measured container size and the image's natural size. */
  datatype Dims = Dims(contW: real, contH: real, natW: real, natH: real)

  /** The drawn box, in container pixels. */
  datatype Rect = Rect(left: real, top: real, width: real, height: real)

  /** `Math.min(contW / natW, contH / natH)`: the largest scale at which the image fits. */
  function Scale(d: Dims): real
    requires d.natW != 0.0 && d.natH != 0.0
  {
    MinReal(d.contW / d.natW, d.contH / d.natH)
  }

  /** The scale is the smaller of the width ratio and the height ratio. */
  lemma ScaleIsSmallerRatio(d: Dims)
    requires d.natW != 0.0 && d.natH != 0.0
    ensures Scale(d) <= d.contW / d.natW && Scale(d) <= d.contH / d.natH
    ensures Scale(d) == d.contW / d.natW || Scale(d) == d.contH / d.natH
  {
  }

  function DispW(d: Dims): real
    requires d.natW != 0.0 && d.natH != 0.0
  {
    d.natW * Scale(d)
  }

  function DispH(d: Dims): real
    requires d.natW != 0.0 && d.natH != 0.0
  {
    d.natH * Scale(d)
  }

  function OffsetX(d: Dims): real
    requires d.natW != 0.0 && d.natH != 0.0
  {
    (d.contW - DispW(d)) / 2.0
  }

  function OffsetY(d: Dims): real
    requires d.natW != 0.0 && d.natH != 0.0
  {
    (d.contH - DispH(d)) / 2.0
  }

  /**
   * `boxStyle`: for a detection with a box, once all four sizes are known, the box's fractions
   * mapped onto the displayed image. Otherwise the component draws a random placeholder,
   * which is not modelled: the result is then `None`.
   */
  function BoxStyle(box: Option<Box>, d: Dims): (r: Option<Rect>)
    ensures r.Some? <==> box.Some? && d.contW != 0.0 && d.contH != 0.0 && d.natW != 0.0 && d.natH != 0.0
    ensures r.Some? ==> r.value.width == box.value.width * DispW(d) && r.value.height == box.value.height * DispH(d)
  {
    if box.None? || d.contW == 0.0 || d.contH == 0.0 || d.natW == 0.0 || d.natH == 0.0 then None
    else
      var b := box.value;
      Some(Rect(OffsetX(d) + b.left * DispW(d), OffsetY(d) + b.top * DispH(d), b.width * DispW(d), b.height * DispH(d)))
  }

  /** Container and image have positive sizes. */
  predicate Measured(d: Dims) {
    d.contW > 0.0 && d.contH > 0.0 && d.natW > 0.0 && d.natH > 0.0
  }

  /** The displayed image fits the container and fills it along at least one side. */
  lemma FitsInside(d: Dims)
    requires Measured(d)
    ensures 0.0 < DispW(d) <= d.contW && 0.0 < DispH(d) <= d.contH
    ensures DispW(d) == d.contW || DispH(d) == d.contH
  {
    var sw, sh := d.contW / d.natW, d.contH / d.natH;
    assert d.natW * sw == d.contW;
    assert d.natH * sh == d.contH;
    assert sw > 0.0 && sh > 0.0;
    if sw <= sh {
      assert Scale(d) == sw;
      assert d.natH * sw <= d.natH * sh;
    } else {
      assert Scale(d) == sh;
      assert d.natW * sh <= d.natW * sw;
    }
  }

  /** The image keeps its aspect ratio. */
  lemma AspectPreserved(d: Dims)
    requires Measured(d)
    ensures DispW(d) * d.natH == DispH(d) * d.natW
  {
    var s := Scale(d);
    calc {
      DispW(d) * d.natH;
      (d.natW * s) * d.natH;
      (d.natH * s) * d.natW;
      DispH(d) * d.natW;
    }
  }

  /** The image is centred: equal, non-negative margins on both sides. */
  lemma Centred(d: Dims)
    requires Measured(d)
    ensures 2.0 * OffsetX(d) + DispW(d) == d.contW && 2.0 * OffsetY(d) + DispH(d) == d.contH
    ensures OffsetX(d) >= 0.0 && OffsetY(d) >= 0.0
  {
    FitsInside(d);
  }

  /** A sub-interval of [0, 1] scaled by a positive length and shifted by a margin stays within the margins. */
  lemma ScaledInterval(start: real, size: real, len: real, margin: real, outer: real)
    requires 0.0 <= start && 0.0 <= size && start + size <= 1.0 && 0.0 < len
    requires 0.0 <= margin && 2.0 * margin + len == outer
    ensures margin <= margin + start * len
    ensures (margin + start * len) + size * len <= margin + len <= outer
    ensures 0.0 <= size * len
  {
    assert start * len + size * len == (start + size) * len;
    assert (start + size) * len <= len;
  }

  /** `Centred` and `FitsInside` in the form `ScaledInterval` needs. */
  lemma Margins(d: Dims)
    requires Measured(d)
    ensures 0.0 < DispW(d) && 0.0 <= OffsetX(d) && 2.0 * OffsetX(d) + DispW(d) == d.contW
    ensures 0.0 < DispH(d) && 0.0 <= OffsetY(d) && 2.0 * OffsetY(d) + DispH(d) == d.contH
  {
    FitsInside(d);
    Centred(d);
  }

  /** A box given in fractions within [0, 1] is drawn inside the displayed image, hence inside the container. */
  lemma BoxStaysInside(b: Box, d: Dims)
    requires Measured(d)
    requires 0.0 <= b.left && 0.0 <= b.width && b.left + b.width <= 1.0
    requires 0.0 <= b.top && 0.0 <= b.height && b.top + b.height <= 1.0
    ensures var r := BoxStyle(Some(b), d).value;
      && OffsetX(d) <= r.left && r.left + r.width <= OffsetX(d) + DispW(d) <= d.contW
      && OffsetY(d) <= r.top && r.top + r.height <= OffsetY(d) + DispH(d) <= d.contH
      && 0.0 <= r.width && 0.0 <= r.height
  {
    Margins(d);
    var r := BoxStyle(Some(b), d).value;
    assert r == Rect(OffsetX(d) + b.left * DispW(d), OffsetY(d) + b.top * DispH(d), b.width * DispW(d), b.height * DispH(d));
    ScaledInterval(b.left, b.width, DispW(d), OffsetX(d), d.contW);
    ScaledInterval(b.top, b.height, DispH(d), OffsetY(d), d.contH);
  }
}

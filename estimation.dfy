/**
 * The quantity estimator of the estimation dialog: which detections count as materials,
 * and the loop that turns each box-bearing material detection into at most one estimate.
 */
module EstimationDialog {
  import opened Js
  import opened Wrap
  import opened Store
  import opened Materials

  const KW_PLYWOOD: JsString := Utf16("plywood")
  const KW_OSB: JsString := Utf16("osb")
  const KW_SHINGLE: JsString := Utf16("shingle")
  const KW_BUNDLE: JsString := Utf16("bundle")
  const KW_FELT: JsString := Utf16("felt")
  const KW_GRAVEL: JsString := Utf16("gravel")
  const KW_MULCH: JsString := Utf16("mulch")
  const KW_LUMBER: JsString := Utf16("lumber")
  const KW_DRYWALL: JsString := Utf16("drywall")

  const CUBIC_YARDS: JsString := Utf16("cubic yards")
  const BUNDLES: JsString := Utf16("bundles")
  const SHEETS: JsString := Utf16("sheets")
  const ROLLS: JsString := Utf16("rolls")
  const BOX_AREA_DEPTH: JsString := Utf16("box-area-depth")
  const AREA_COVERAGE: JsString := Utf16("area-coverage")
  const AREA_TILE: JsString := Utf16("area-tile")

  /** The dialog's initial image-width scale (ft) and loose-material depth (in). */
  const DEFAULT_SCALE_FT: real := 20.0
  const DEFAULT_DEPTH_IN: real := 3.0

  /** One line item of the estimate. */
  datatype Estimate = Estimate(
    id: JsString,
    material: JsString,
    quantity: real,
    units: JsString,
    methodName: JsString,
    confidence: real)

  /** The filter behind `materialDetections`: the lower-cased type names one of nine materials. */
  predicate IsMaterialDetection(d: Detection) {
    var t := Lower(d.kind);
    Contains(t, KW_PLYWOOD) || Contains(t, KW_OSB) || Contains(t, KW_SHINGLE) || Contains(t, KW_BUNDLE)
    || Contains(t, KW_FELT) || Contains(t, KW_GRAVEL) || Contains(t, KW_MULCH) || Contains(t, KW_LUMBER)
    || Contains(t, KW_DRYWALL)
  }

  /** `materialDetections`: the material detections, in their original order. */
  function MaterialDetections(detections: seq<Detection>): (r: seq<Detection>)
    ensures |r| <= |detections|
    ensures forall d :: d in r ==> d in detections && IsMaterialDetection(d)
    ensures forall d :: d in detections && IsMaterialDetection(d) ==> d in r
  {
    if detections == [] then []
    else (if IsMaterialDetection(detections[0]) then [detections[0]] else []) + MaterialDetections(detections[1..])
  }

  /** Filtering commutes with concatenation, so the filter keeps the detections' relative order. */
  lemma {:induction false} MaterialDetectionsAppend(a: seq<Detection>, b: seq<Detection>)
    ensures MaterialDetections(a + b) == MaterialDetections(a) + MaterialDetections(b)
  {
    if a == [] {
      assert a + b == b;
    } else {
      assert (a + b)[1..] == a[1..] + b;
      MaterialDetectionsAppend(a[1..], b);
    }
  }

  /** `imgHft`: the image is taken to be 16:9, so its height is 9/16 of its width. */
  function ImageHeightFt(widthFt: real): (h: real)
    ensures h * 16.0 == widthFt * 9.0
  {
    widthFt * (9.0 / 16.0)
  }

  /** `m`: the table entry stored under the exact name, falling back to the Plywood entry. */
  function MaterialFor(name: JsString): (m: Material)
    ensures Lookup(name).Some? ==> m == Lookup(name).value
    ensures Lookup(name).None? ==> m == Sheet(4.0, 8.0, 32.0)
  {
    match Lookup(name)
    case Some(entry) => entry
    case None => Lookup(PLYWOOD).value
  }

  predicate IsLoose(name: JsString) { Contains(Lower(name), KW_GRAVEL) || Contains(Lower(name), KW_MULCH) }
  predicate IsShingle(name: JsString) { Contains(Lower(name), KW_SHINGLE) || Contains(Lower(name), KW_BUNDLE) }
  predicate IsSheet(name: JsString) { Contains(Lower(name), KW_PLYWOOD) || Contains(Lower(name), KW_OSB) }
  predicate IsFelt(name: JsString) { Contains(Lower(name), KW_FELT) }

  /** `Math.max(1, Math.round(area / c))` as the real number the source stores. */
  function CountFor(area: real, c: real): (r: real)
    requires c != 0.0
    ensures r >= 1.0 && r == r.Floor as real
  {
    Max(1, Round(area / c)) as real
  }

  /**
   * One pass of the estimate loop's body for detection `d`: the if/else-if chain
   * over gravel/mulch, shingle/bundle, plywood/osb and felt, each guarded by `d.box`.
   */
  function EstimateFor(d: Detection, imgWft: real, imgHft: real, depthInches: real): (r: Option<Estimate>)
    ensures r.Some? <==> d.box.Some? && (IsLoose(d.kind) || IsShingle(d.kind) || IsSheet(d.kind) || IsFelt(d.kind))
    ensures r.Some? ==> r.value.id == d.id && r.value.confidence == d.confidence
  {
    var name := d.kind;
    var m := MaterialFor(name);
    if IsLoose(name) && d.box.Some? then
      var area := AreaFromBoxFraction(imgWft, imgHft, d.box.value);
      var yards := CubicYardsFromAreaAndDepth(area, depthInches);
      Some(Estimate(d.id, name, Round(yards * 100.0) as real / 100.0, CUBIC_YARDS, BOX_AREA_DEPTH, d.confidence))
    else if IsShingle(name) && d.box.Some? then
      var area := AreaFromBoxFraction(imgWft, imgHft, d.box.value);
      var cov := CoverageOf(m);
      var bundles := if cov.Some? && cov.value != 0.0 then CountFor(area, cov.value) else CountFor(area, 33.3);
      Some(Estimate(d.id, SHINGLE_BUNDLE, bundles, BUNDLES, AREA_COVERAGE, d.confidence))
    else if IsSheet(name) && d.box.Some? then
      var area := AreaFromBoxFraction(imgWft, imgHft, d.box.value);
      var sheetArea := SheetAreaOf(m);
      var sheets := CountFor(area, if sheetArea.Some? && sheetArea.value != 0.0 then sheetArea.value else 32.0);
      Some(Estimate(d.id, if Contains(name, OSB) then OSB else PLYWOOD, sheets, SHEETS, AREA_TILE, d.confidence))
    else if IsFelt(name) && d.box.Some? then
      var area := AreaFromBoxFraction(imgWft, imgHft, d.box.value);
      var cov := CoverageOf(m);
      var rolls := if cov.Some? && cov.value != 0.0 then CountFor(area, cov.value) else CountFor(area, 200.0);
      Some(Estimate(d.id, ROOFING_FELT, rolls, ROLLS, AREA_COVERAGE, d.confidence))
    else
      None
  }

  /** The estimates the loop has produced after visiting `ds`, at a width scale and a depth. */
  function EstimatesOf(ds: seq<Detection>, scaleFt: real, depthInches: real): (r: seq<Estimate>)
    ensures |r| <= |ds|
    ensures forall e :: e in r ==> exists d :: d in ds && EstimateFor(d, scaleFt, ImageHeightFt(scaleFt), depthInches) == Some(e)
  {
    if ds == [] then []
    else
      var last := ds[|ds| - 1];
      var r := EstimatesOf(ds[..|ds| - 1], scaleFt, depthInches) + ToSeq(EstimateFor(last, scaleFt, ImageHeightFt(scaleFt), depthInches));
      assert forall d :: d in ds[..|ds| - 1] ==> d in ds;
      r
  }

  /** One more detection adds its own estimate, if any, at the end. */
  lemma EstimatesOfSnoc(ds: seq<Detection>, d: Detection, scaleFt: real, depthInches: real)
    ensures EstimatesOf(ds + [d], scaleFt, depthInches)
         == EstimatesOf(ds, scaleFt, depthInches) + ToSeq(EstimateFor(d, scaleFt, ImageHeightFt(scaleFt), depthInches))
  {
    assert (ds + [d])[..|ds + [d]| - 1] == ds;
  }

  /** The `estimates` computation: one loop over the material detections, pushing into `est`. */
  method ComputeEstimates(materialDetections: seq<Detection>, scaleFtPerImageWidth: real, depthInches: real)
    returns (est: seq<Estimate>)
    ensures est == EstimatesOf(materialDetections, scaleFtPerImageWidth, depthInches)
  {
    est := [];
    var imgWft := scaleFtPerImageWidth;
    var imgHft := imgWft * (9.0 / 16.0);
    assert imgHft == ImageHeightFt(scaleFtPerImageWidth);
    for i := 0 to |materialDetections|
      invariant est == EstimatesOf(materialDetections[..i], scaleFtPerImageWidth, depthInches)
    {
      var d := materialDetections[i];
      var r := EstimateFor(d, imgWft, imgHft, depthInches);
      assert materialDetections[..i + 1] == materialDetections[..i] + [d];
      EstimatesOfSnoc(materialDetections[..i], d, scaleFtPerImageWidth, depthInches);
      if r.Some? {
        est := est + [r.value];
      }
    }
    assert materialDetections[..|materialDetections|] == materialDetections;
  }

  /** The loop's output on a concatenation is the concatenation of its outputs: estimates keep the detections' order. */
  lemma {:induction false} EstimatesOfAppend(a: seq<Detection>, b: seq<Detection>, scaleFt: real, depthInches: real)
    ensures EstimatesOf(a + b, scaleFt, depthInches) == EstimatesOf(a, scaleFt, depthInches) + EstimatesOf(b, scaleFt, depthInches)
    decreases |b|
  {
    if b == [] {
      assert a + b == a;
    } else {
      var b' := b[..|b| - 1];
      assert (a + b)[..|a + b| - 1] == a + b';
      EstimatesOfAppend(a, b', scaleFt, depthInches);
    }
  }

  /** A detection that yields an estimate is always a material detection. */
  lemma EstimateImpliesMaterial(d: Detection, imgWft: real, imgHft: real, depthInches: real)
    requires EstimateFor(d, imgWft, imgHft, depthInches).Some?
    ensures IsMaterialDetection(d)
  {
  }

  /**
   * Running the loop over `materialDetections` gives the same estimates as running it over all
   * detections: the filter drops only detections that would yield no estimate.
   */
  lemma {:induction false} FilterKeepsEstimates(detections: seq<Detection>, scaleFt: real, depthInches: real)
    ensures EstimatesOf(MaterialDetections(detections), scaleFt, depthInches) == EstimatesOf(detections, scaleFt, depthInches)
  {
    if detections != [] {
      var d := detections[0];
      var head := if IsMaterialDetection(d) then [d] else [];
      var rest := detections[1..];
      assert detections == [d] + rest;
      EstimatesOfAppend(head, MaterialDetections(rest), scaleFt, depthInches);
      EstimatesOfAppend([d], rest, scaleFt, depthInches);
      FilterKeepsEstimates(rest, scaleFt, depthInches);
      assert [d][..0] == [];
      if !IsMaterialDetection(d) {
        assert EstimateFor(d, scaleFt, ImageHeightFt(scaleFt), depthInches).None?;
      }
    }
  }

  /** #estimates <= #material detections <= #detections. */
  lemma DialogCounts(detections: seq<Detection>, scaleFt: real, depthInches: real)
    ensures |EstimatesOf(MaterialDetections(detections), scaleFt, depthInches)| <= |MaterialDetections(detections)| <= |detections|
  {
  }

  /** The area the box covers at a width scale, with the height taken as 9/16 of it. */
  function BoxAreaFt2(scaleFt: real, b: Box): real {
    AreaFromBoxFraction(scaleFt, ImageHeightFt(scaleFt), b)
  }

  /** Gravel and mulch: cubic yards `area * depth / 324`, rounded to two decimals, under the raw type name. */
  lemma LooseEstimate(d: Detection, scaleFt: real, depthInches: real)
    requires IsLoose(d.kind) && d.box.Some?
    ensures EstimateFor(d, scaleFt, ImageHeightFt(scaleFt), depthInches)
      == Some(Estimate(d.id, d.kind, Round(BoxAreaFt2(scaleFt, d.box.value) * depthInches / 324.0 * 100.0) as real / 100.0,
                       CUBIC_YARDS, BOX_AREA_DEPTH, d.confidence))
  {
    var area := BoxAreaFt2(scaleFt, d.box.value);
    assert CubicYardsFromAreaAndDepth(area, depthInches) == area * depthInches / 324.0;
  }

  /** No table key containing "shingle" or "bundle" is an area-coverage entry other than the shingle bundle. */
  lemma RoofingFeltIsNoShingle()
    ensures !IsShingle(ROOFING_FELT)
  {
    var lower := Lower(ROOFING_FELT);
    assert forall i :: 0 <= i < |lower| ==> lower[i] != 104 && lower[i] != 98;
    if Contains(lower, KW_SHINGLE) {
      ContainsUnit(lower, KW_SHINGLE, 1);
      assert false;
    }
    if Contains(lower, KW_BUNDLE) {
      ContainsUnit(lower, KW_BUNDLE, 0);
      assert false;
    }
  }

  /** "Shingle Bundle" itself is caught by the shingle branch. */
  lemma ShingleBundleIsShingle()
    ensures IsShingle(SHINGLE_BUNDLE)
  {
    var lower := Lower(SHINGLE_BUNDLE);
    assert lower[0..7] == KW_SHINGLE;
    ContainsAt(lower, KW_SHINGLE, 0);
  }

  /** Shingles and bundles: `max(1, round(area / 33.3))` bundles, whatever the exact type name. */
  lemma BundleEstimate(d: Detection, scaleFt: real, depthInches: real)
    requires !IsLoose(d.kind) && IsShingle(d.kind) && d.box.Some?
    ensures EstimateFor(d, scaleFt, ImageHeightFt(scaleFt), depthInches)
      == Some(Estimate(d.id, SHINGLE_BUNDLE, CountFor(BoxAreaFt2(scaleFt, d.box.value), 33.3), BUNDLES, AREA_COVERAGE, d.confidence))
  {
    RoofingFeltIsNoShingle();
    KeyLengths();
  }

  /** Plywood and OSB: `max(1, round(area / 32))` sheets, named "OSB" exactly when the raw name contains upper-case "OSB". */
  lemma SheetEstimate(d: Detection, scaleFt: real, depthInches: real)
    requires !IsLoose(d.kind) && !IsShingle(d.kind) && IsSheet(d.kind) && d.box.Some?
    ensures EstimateFor(d, scaleFt, ImageHeightFt(scaleFt), depthInches)
      == Some(Estimate(d.id, if Contains(d.kind, OSB) then OSB else PLYWOOD, CountFor(BoxAreaFt2(scaleFt, d.box.value), 32.0),
                       SHEETS, AREA_TILE, d.confidence))
  {
    KeyLengths();
  }

  /** Felt: `max(1, round(area / 200))` rolls of roofing felt. */
  lemma FeltEstimate(d: Detection, scaleFt: real, depthInches: real)
    requires !IsLoose(d.kind) && !IsShingle(d.kind) && !IsSheet(d.kind) && IsFelt(d.kind) && d.box.Some?
    ensures EstimateFor(d, scaleFt, ImageHeightFt(scaleFt), depthInches)
      == Some(Estimate(d.id, ROOFING_FELT, CountFor(BoxAreaFt2(scaleFt, d.box.value), 200.0), ROLLS, AREA_COVERAGE, d.confidence))
  {
    ShingleBundleIsShingle();
    KeyLengths();
  }

  /** A gravel box of 0.5 by 0.5 at the dialog's defaults covers 56.25 ft² and needs 0.52 cubic yards. */
  lemma GravelAtDefaults(d: Detection)
    requires d.kind == GRAVEL && d.box.Some? && d.box.value.width == 0.5 && d.box.value.height == 0.5
    ensures BoxAreaFt2(DEFAULT_SCALE_FT, d.box.value) == 56.25
    ensures EstimateFor(d, DEFAULT_SCALE_FT, ImageHeightFt(DEFAULT_SCALE_FT), DEFAULT_DEPTH_IN).Some?
    ensures EstimateFor(d, DEFAULT_SCALE_FT, ImageHeightFt(DEFAULT_SCALE_FT), DEFAULT_DEPTH_IN).value.quantity == 0.52
  {
    var lower := Lower(GRAVEL);
    assert lower[0..6] == KW_GRAVEL;
    ContainsAt(lower, KW_GRAVEL, 0);
    LooseEstimate(d, DEFAULT_SCALE_FT, DEFAULT_DEPTH_IN);
    assert BoxAreaFt2(DEFAULT_SCALE_FT, d.box.value) == 56.25;
    assert Round(56.25 * 3.0 / 324.0 * 100.0) == 52;
  }
}

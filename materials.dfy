/** The material table and the two unit conversions of lib/materials.ts. */
module Materials {
  import opened Js
  import opened Wrap
  import opened Store

  /** The three shapes of table entry: a rigid sheet, an area-coverage product and a loose material. */
  datatype Material =
    | Sheet(widthFt: real, heightFt: real, areaFt2: real)
    | Coverage(coverageFt2: real)
    | Loose(densityLbFt3: real, typicalDepthIn: real)

  const PLYWOOD: JsString := Utf16("Plywood")
  const OSB: JsString := Utf16("OSB")
  const SHINGLE_BUNDLE: JsString := Utf16("Shingle Bundle")
  const ROOFING_FELT: JsString := Utf16("Roofing felt")
  const GRAVEL: JsString := Utf16("Gravel")
  const MULCH: JsString := Utf16("Mulch")

  /** `MATERIALS[name]`: the entry stored under exactly this key, if any. */
  function Lookup(name: JsString): (r: Option<Material>)
    ensures r.Some? <==> name in {PLYWOOD, OSB, SHINGLE_BUNDLE, ROOFING_FELT, GRAVEL, MULCH}
  {
    if name == PLYWOOD then Some(Sheet(4.0, 8.0, 32.0))
    else if name == OSB then Some(Sheet(4.0, 8.0, 32.0))
    else if name == SHINGLE_BUNDLE then Some(Coverage(33.3))
    else if name == ROOFING_FELT then Some(Coverage(200.0))
    else if name == GRAVEL then Some(Loose(100.0, 2.0))
    else if name == MULCH then Some(Loose(25.0, 3.0))
    else None
  }

  /** The six keys have six different lengths, so they are pairwise distinct. */
  lemma KeyLengths()
    ensures |PLYWOOD| == 7 && |OSB| == 3 && |SHINGLE_BUNDLE| == 14
    ensures |ROOFING_FELT| == 12 && |GRAVEL| == 6 && |MULCH| == 5
  {
  }

  /** `m?.coverage_ft2`: present only on area-coverage entries. */
  function CoverageOf(m: Material): (r: Option<real>)
    ensures r.Some? <==> m.Coverage?
  {
    if m.Coverage? then Some(m.coverageFt2) else None
  }

  /** `m?.area_ft2`: present only on sheet entries. */
  function SheetAreaOf(m: Material): (r: Option<real>)
    ensures r.Some? <==> m.Sheet?
  {
    if m.Sheet? then Some(m.areaFt2) else None
  }

  /** Plywood and OSB are 4 ft by 8 ft sheets whose stated area is their width times their height. */
  lemma SheetEntries()
    ensures Lookup(PLYWOOD) == Some(Sheet(4.0, 8.0, 32.0))
    ensures Lookup(OSB) == Some(Sheet(4.0, 8.0, 32.0))
    ensures forall n :: n in {PLYWOOD, OSB} ==> Lookup(n).value.areaFt2 == Lookup(n).value.widthFt * Lookup(n).value.heightFt
  {
  }

  /** A shingle bundle covers 33.3 ft² and a roll of roofing felt 200 ft². */
  lemma CoverageEntries()
    ensures CoverageOf(Lookup(SHINGLE_BUNDLE).value) == Some(33.3)
    ensures CoverageOf(Lookup(ROOFING_FELT).value) == Some(200.0)
  {
    KeyLengths();
  }

  /** `areaFromBoxFraction`: the real-world area, in ft², covered by a box given in image fractions. */
  function AreaFromBoxFraction(imageWidthFt: real, imageHeightFt: real, box: Box): (r: real)
    ensures box.width == 0.0 || box.height == 0.0 ==> r == 0.0
    ensures imageWidthFt >= 0.0 && imageHeightFt >= 0.0 && box.width >= 0.0 && box.height >= 0.0 ==> r >= 0.0
  {
    imageWidthFt * imageHeightFt * box.width * box.height
  }

  /** The box's position plays no part in its area; only its two extents do. */
  lemma AreaIgnoresPosition(imageWidthFt: real, imageHeightFt: real, a: Box, b: Box)
    requires a.width == b.width && a.height == b.height
    ensures AreaFromBoxFraction(imageWidthFt, imageHeightFt, a) == AreaFromBoxFraction(imageWidthFt, imageHeightFt, b)
  {
  }

  /** `cubicYardsFromAreaAndDepth`: the volume of a layer `depthInches` thick over `areaFt2`, in cubic yards. */
  function CubicYardsFromAreaAndDepth(areaFt2: real, depthInches: real): (r: real)
    ensures r * 324.0 == areaFt2 * depthInches
    ensures areaFt2 == 0.0 || depthInches == 0.0 ==> r == 0.0
    ensures areaFt2 >= 0.0 && depthInches >= 0.0 ==> r >= 0.0
  {
    var depthFt := depthInches / 12.0;
    var cubicFt := areaFt2 * depthFt;
    cubicFt / 27.0
  }

  /** The volume is linear in the area and in the depth. */
  lemma CubicYardsLinear(a1: real, a2: real, d1: real, d2: real, k: real)
    ensures CubicYardsFromAreaAndDepth(a1 + a2, d1) == CubicYardsFromAreaAndDepth(a1, d1) + CubicYardsFromAreaAndDepth(a2, d1)
    ensures CubicYardsFromAreaAndDepth(a1, d1 + d2) == CubicYardsFromAreaAndDepth(a1, d1) + CubicYardsFromAreaAndDepth(a1, d2)
    ensures CubicYardsFromAreaAndDepth(k * a1, d1) == k * CubicYardsFromAreaAndDepth(a1, d1)
    ensures CubicYardsFromAreaAndDepth(a1, k * d1) == k * CubicYardsFromAreaAndDepth(a1, d1)
  {
  }
}

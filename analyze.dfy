/**
 * The deterministic fallback generator of the analyze route: a 31-polynomial string hash,
 * one xorshift32 round scaled into [0, 1], and a first-match keyword classifier that
 * emits a fixed set of detections with seeded confidences.
 */
module AnalyzeRoute {
  import opened Js
  import opened Wrap
  import opened Store

  const TWO32: nat := 0x1_0000_0000

  // ----- hashSeed -----

  /** The hash the loop holds after visiting `s`: each code unit does `h = (h * 31 + c) >>> 0`. */
  function HashOf(s: JsString): (h: nat)
    ensures h < TWO32
    ensures s == [] ==> h == 0
  {
    if s == [] then 0 else (HashOf(s[..|s| - 1]) * 31 + s[|s| - 1] as int) % TWO32
  }

  function Pow31(n: nat): nat {
    if n == 0 then 1 else 31 * Pow31(n - 1)
  }

  /** The polynomial `s[0]*31^(n-1) + ... + s[n-1]*31^0` over unbounded integers. */
  function Poly(s: JsString): nat {
    if s == [] then 0 else s[0] as nat * Pow31(|s| - 1) + Poly(s[1..])
  }

  /** Appending one code unit multiplies the polynomial by 31 and adds the unit. */
  lemma {:induction false} PolyAppend(p: JsString, c: CodeUnit)
    ensures Poly(p + [c]) == Poly(p) * 31 + c as nat
  {
    if p == [] {
      assert [] + [c] == [c];
      assert [c][1..] == [];
    } else {
      var q := p + [c];
      assert q[0] == p[0] && q[1..] == p[1..] + [c];
      PolyAppend(p[1..], c);
      calc {
        Poly(q);
        p[0] as nat * Pow31(|p|) + Poly(p[1..] + [c]);
        p[0] as nat * (31 * Pow31(|p| - 1)) + Poly(p[1..]) * 31 + c as nat;
        { assert p[0] as nat * (31 * Pow31(|p| - 1)) == (p[0] as nat * Pow31(|p| - 1)) * 31; }
        (p[0] as nat * Pow31(|p| - 1) + Poly(p[1..])) * 31 + c as nat;
      }
    }
  }

  /** Reducing before each step leaves the same residue as reducing once at the end. */
  lemma ModStep(a: nat, c: nat)
    ensures ((a % TWO32) * 31 + c) % TWO32 == (a * 31 + c) % TWO32
  {
    var q := a / TWO32;
    var r := a % TWO32;
    assert a == q * TWO32 + r;
    assert a * 31 + c == (q * 31) * TWO32 + (r * 31 + c);
    ModMultiple(q * 31, r * 31 + c);
  }

  lemma ModMultiple(k: nat, y: nat)
    ensures (k * TWO32 + y) % TWO32 == y % TWO32
  {
    var z := k * TWO32 + y;
    assert z == (k + y / TWO32) * TWO32 + y % TWO32;
  }

  /** `hashSeed(s)` is the polynomial hash of `s` with multiplier 31, taken modulo 2^32. */
  lemma {:induction false} HashIsPolynomial(s: JsString)
    ensures HashOf(s) == Poly(s) % TWO32
  {
    if s != [] {
      var p := s[..|s| - 1];
      var c := s[|s| - 1];
      assert s == p + [c];
      HashIsPolynomial(p);
      PolyAppend(p, c);
      ModStep(Poly(p), c as nat);
    }
  }

  /** `hashSeed`: the 32-bit polynomial rolling hash over the UTF-16 code units of `s`. */
  method HashSeed(s: JsString) returns (h: nat)
    ensures h == HashOf(s)
    ensures h == Poly(s) % TWO32
  {
    h := 0;
    for i := 0 to |s|
      invariant h == HashOf(s[..i])
    {
      assert s[..i + 1][..i] == s[..i];
      h := (h * 31 + s[i] as int) % TWO32;
    }
    assert s[..|s|] == s;
    HashIsPolynomial(s);
  }

  // ----- rand -----

  function Step13(x: bv32): bv32 { x ^ (x << 13) }
  function Step17(x: bv32): bv32 { x ^ (x >> 17) }
  function Step5(x: bv32): bv32 { x ^ (x << 5) }

  /** One xorshift32 round with shifts 13 left, 17 logical right and 5 left. */
  function XorShift32(x: bv32): bv32 {
    Step5(Step17(Step13(x)))
  }

  lemma Step13Zero(x: bv32) ensures Step13(x) == 0 <==> x == 0 {}
  lemma Step17Zero(x: bv32) ensures Step17(x) == 0 <==> x == 0 {}
  lemma Step5Zero(x: bv32) ensures Step5(x) == 0 <==> x == 0 {}

  /** The xorshift round maps zero, and only zero, to zero. */
  lemma XorShiftZero(x: bv32)
    ensures XorShift32(x) == 0 <==> x == 0
  {
    Step13Zero(x);
    Step17Zero(Step13(x));
    Step5Zero(Step17(Step13(x)));
  }

  /**
   * `seed || 123456789`, then the 32-bit view the shift operators take of it: the seed's
   * low 32 bits, which are zero exactly when the seed is a multiple of 2^32.
   */
  function StartState(seed: nat): (x: bv32)
    ensures seed == 0 ==> x == 123456789
    ensures seed != 0 ==> (x == 0 <==> seed % TWO32 == 0)
  {
    if seed == 0 then 123456789 else (seed % TWO32) as bv32
  }

  /** The last step of `rand`: a 32-bit state `(x >>> 0) / 0xffffffff`. */
  function Fraction(x: bv32): (r: real)
    ensures 0.0 <= r <= 1.0
    ensures r == 0.0 <==> x == 0
    ensures r == 1.0 <==> x == 0xffff_ffff
  {
    (x as int) as real / 4294967295.0
  }

  /** `rand(seed)`: one xorshift round from the start state, scaled into [0, 1]. */
  function RandValue(seed: nat): (r: real)
    ensures 0.0 <= r <= 1.0
  {
    Fraction(XorShift32(StartState(seed)))
  }

  /** `rand` is zero exactly when a nonzero seed has zero low 32 bits, which happens for seed = 2^32. */
  lemma RandZero(seed: nat)
    ensures RandValue(seed) == 0.0 <==> seed != 0 && seed % TWO32 == 0
  {
    XorShiftZero(StartState(seed));
  }

  /** The three in-place `^=` steps of `rand` on its 32-bit state. */
  method XorShiftInPlace(x0: bv32) returns (x: bv32)
    ensures x == XorShift32(x0)
    ensures x == 0 <==> x0 == 0
  {
    x := x0;
    x := Step13(x);  // x ^= x << 13
    x := Step17(x);  // x ^= x >>> 17
    x := Step5(x);   // x ^= x << 5
    XorShiftZero(x0);
  }

  /** `rand`: start from `seed || 123456789`, shift in place, scale. */
  method Rand(seed: nat) returns (r: real)
    ensures r == RandValue(seed)
    ensures 0.0 <= r <= 1.0
  {
    var x: bv32 := if seed == 0 then 123456789 else (seed % TWO32) as bv32;
    x := XorShiftInPlace(x);
    r := Fraction(x);
  }

  // ----- makeDetections -----

  const KW_ROOF: JsString := Utf16("roof")
  const KW_FOUNDATION: JsString := Utf16("foundation")
  const KW_CRACK: JsString := Utf16("crack")
  const KW_WATER: JsString := Utf16("water")

  const HAIL_IMPACT: JsString := Utf16("Hail Impact")
  const MISSING_SHINGLES: JsString := Utf16("Missing Shingles")
  const FLASHING_ISSUES: JsString := Utf16("Flashing Issues")
  const STRUCTURAL_CRACK: JsString := Utf16("Structural Crack")
  const EFFLORESCENCE: JsString := Utf16("Efflorescence")
  const WATER_STAINING: JsString := Utf16("Water Staining")
  const ANOMALY: JsString := Utf16("Anomaly")

  // Locations and explanations of the generated detections.
  const LOC_UPPER_LEFT: JsString := Utf16("Upper left section")
  const DESC_HAIL: JsString := Utf16("Circular impact marks consistent with hail")
  const LOC_CENTER: JsString := Utf16("Center area")
  const DESC_SHINGLES: JsString := Utf16("Exposed underlayment indicating shingle loss")
  const LOC_CHIMNEY: JsString := Utf16("Chimney area")
  const DESC_FLASHING: JsString := Utf16("Potential gaps in flashing around penetration")
  const LOC_FOUNDATION_WALL: JsString := Utf16("Lower foundation wall")
  const DESC_CRACK: JsString := Utf16("Vertical crack suggesting settlement movement")
  const LOC_CRACK_EDGES: JsString := Utf16("Crack edges")
  const DESC_EFFLORESCENCE: JsString := Utf16("Mineral deposits indicating water ingress")
  const DESC_WATER: JsString := Utf16("Discoloration consistent with moisture exposure")
  const LOC_GENERAL: JsString := Utf16("General area")
  const DESC_ANOMALY: JsString := Utf16("Pattern irregularity detected")

  /** The generator's result: its detections and the report's overall risk. */
  datatype Analysis = Analysis(detections: seq<Detection>, risk: Severity)

  /** The text the classifier searches: `${title} ${imagePath}`, lower-cased. */
  function Haystack(title: JsString, imagePath: JsString): JsString {
    Lower(title + [32 as CodeUnit] + imagePath)
  }

  /** A generated detection: no box, a fixed place and explanation. */
  function Synthetic(id: JsString, kind: JsString, confidence: real, severity: Severity, location: JsString, description: JsString): Detection {
    Detection(id, kind, confidence, location, severity, description, None)
  }

  /** The three roof findings; the k-th uses `rand(seed + k)`. */
  function RoofFindings(seed: nat, uuid: nat -> JsString): seq<Detection> {
    [Synthetic(uuid(0), HAIL_IMPACT, 0.85 + RandValue(seed) * 0.1, High,
               LOC_UPPER_LEFT, DESC_HAIL),
     Synthetic(uuid(1), MISSING_SHINGLES, 0.8 + RandValue(seed + 1) * 0.15, Medium,
               LOC_CENTER, DESC_SHINGLES),
     Synthetic(uuid(2), FLASHING_ISSUES, 0.7 + RandValue(seed + 2) * 0.2, Medium,
               LOC_CHIMNEY, DESC_FLASHING)]
  }

  /** The two foundation findings. */
  function CrackFindings(seed: nat, uuid: nat -> JsString): seq<Detection> {
    [Synthetic(uuid(0), STRUCTURAL_CRACK, 0.9 + RandValue(seed) * 0.08, Critical,
               LOC_FOUNDATION_WALL, DESC_CRACK),
     Synthetic(uuid(1), EFFLORESCENCE, 0.8 + RandValue(seed + 1) * 0.1, Medium,
               LOC_CRACK_EDGES, DESC_EFFLORESCENCE)]
  }

  /** The single water finding. */
  function WaterFindings(seed: nat, uuid: nat -> JsString): seq<Detection> {
    [Synthetic(uuid(0), WATER_STAINING, 0.82 + RandValue(seed) * 0.12, Medium,
               LOC_CENTER, DESC_WATER)]
  }

  /** The finding reported when no keyword occurs. */
  function DefaultFindings(seed: nat, uuid: nat -> JsString): seq<Detection> {
    [Synthetic(uuid(0), ANOMALY, 0.6 + RandValue(seed) * 0.2, Low,
               LOC_GENERAL, DESC_ANOMALY)]
  }

  /**
   * What `makeDetections` returns, with `uuid(k)` standing for the k-th `randomUUID()` of the call:
   * the first keyword group that occurs picks a fixed detection list, each confidence being a base
   * plus `rand(seed + k)` times a span.
   */
  function Fallback(title: JsString, imagePath: JsString, seedBase: JsString, uuid: nat -> JsString): (r: Analysis)
    ensures r.risk == High <==> Contains(Haystack(title, imagePath), KW_ROOF)
    ensures r.risk == Critical <==> !Contains(Haystack(title, imagePath), KW_ROOF) &&
                                    (Contains(Haystack(title, imagePath), KW_FOUNDATION) || Contains(Haystack(title, imagePath), KW_CRACK))
    ensures r.risk == Medium <==> !Contains(Haystack(title, imagePath), KW_ROOF) && !Contains(Haystack(title, imagePath), KW_FOUNDATION) &&
                                  !Contains(Haystack(title, imagePath), KW_CRACK) && Contains(Haystack(title, imagePath), KW_WATER)
  {
    var seed := HashOf(seedBase);
    var lower := Haystack(title, imagePath);
    if Contains(lower, KW_ROOF) then Analysis(RoofFindings(seed, uuid), High)
    else if Contains(lower, KW_FOUNDATION) || Contains(lower, KW_CRACK) then Analysis(CrackFindings(seed, uuid), Critical)
    else if Contains(lower, KW_WATER) then Analysis(WaterFindings(seed, uuid), Medium)
    else Analysis(DefaultFindings(seed, uuid), Low)
  }

  method PushRoof(seed: nat, uuid: nat -> JsString) returns (detections: seq<Detection>)
    ensures detections == RoofFindings(seed, uuid)
  {
    detections := [];
    var r0 := Rand(seed);
    detections := detections + [Synthetic(uuid(0), HAIL_IMPACT, 0.85 + r0 * 0.1, High,
                                          LOC_UPPER_LEFT, DESC_HAIL)];
    var r1 := Rand(seed + 1);
    detections := detections + [Synthetic(uuid(1), MISSING_SHINGLES, 0.8 + r1 * 0.15, Medium,
                                          LOC_CENTER, DESC_SHINGLES)];
    var r2 := Rand(seed + 2);
    detections := detections + [Synthetic(uuid(2), FLASHING_ISSUES, 0.7 + r2 * 0.2, Medium,
                                          LOC_CHIMNEY, DESC_FLASHING)];
  }

  method PushCrack(seed: nat, uuid: nat -> JsString) returns (detections: seq<Detection>)
    ensures detections == CrackFindings(seed, uuid)
  {
    detections := [];
    var r0 := Rand(seed);
    detections := detections + [Synthetic(uuid(0), STRUCTURAL_CRACK, 0.9 + r0 * 0.08, Critical,
                                          LOC_FOUNDATION_WALL, DESC_CRACK)];
    var r1 := Rand(seed + 1);
    detections := detections + [Synthetic(uuid(1), EFFLORESCENCE, 0.8 + r1 * 0.1, Medium,
                                          LOC_CRACK_EDGES, DESC_EFFLORESCENCE)];
  }

  /** `makeDetections`: classify, then push the branch's detections and set `risk`. */
  method MakeDetections(title: JsString, imagePath: JsString, seedBase: JsString, uuid: nat -> JsString)
    returns (detections: seq<Detection>, risk: Severity)
    ensures Analysis(detections, risk) == Fallback(title, imagePath, seedBase, uuid)
  {
    var seed := HashSeed(seedBase);
    var lower := Lower(title + [32 as CodeUnit] + imagePath);
    assert lower == Haystack(title, imagePath);
    risk := Low;
    if Contains(lower, KW_ROOF) {
      detections := PushRoof(seed, uuid);
      risk := High;
    } else if Contains(lower, KW_FOUNDATION) || Contains(lower, KW_CRACK) {
      detections := PushCrack(seed, uuid);
      risk := Critical;
    } else if Contains(lower, KW_WATER) {
      var r0 := Rand(seed);
      detections := [Synthetic(uuid(0), WATER_STAINING, 0.82 + r0 * 0.12, Medium,
                               LOC_CENTER, DESC_WATER)];
      risk := Medium;
    } else {
      var r0 := Rand(seed);
      detections := [Synthetic(uuid(0), ANOMALY, 0.6 + r0 * 0.2, Low,
                               LOC_GENERAL, DESC_ANOMALY)];
      risk := Low;
    }
  }

  function KindsOf(ds: seq<Detection>): (r: seq<JsString>)
    ensures |r| == |ds| && forall i :: 0 <= i < |ds| ==> r[i] == ds[i].kind
  {
    seq(|ds|, i requires 0 <= i < |ds| => ds[i].kind)
  }

  function SeveritiesOf(ds: seq<Detection>): (r: seq<Severity>)
    ensures |r| == |ds| && forall i :: 0 <= i < |ds| ==> r[i] == ds[i].severity
  {
    seq(|ds|, i requires 0 <= i < |ds| => ds[i].severity)
  }

  /** "roof" wins over every other keyword: Hail Impact (high), Missing Shingles and Flashing Issues (medium), risk high. */
  lemma RoofBranch(title: JsString, imagePath: JsString, seedBase: JsString, uuid: nat -> JsString)
    requires Contains(Haystack(title, imagePath), KW_ROOF)
    ensures var a := Fallback(title, imagePath, seedBase, uuid);
      && KindsOf(a.detections) == [HAIL_IMPACT, MISSING_SHINGLES, FLASHING_ISSUES]
      && SeveritiesOf(a.detections) == [High, Medium, Medium]
      && a.risk == High
      && 0.85 <= a.detections[0].confidence <= 0.95
      && 0.8 <= a.detections[1].confidence <= 0.95
      && 0.7 <= a.detections[2].confidence <= 0.9
  {
  }

  /** Without "roof", "foundation" or "crack" gives Structural Crack (critical) and Efflorescence (medium), risk critical. */
  lemma CrackBranch(title: JsString, imagePath: JsString, seedBase: JsString, uuid: nat -> JsString)
    requires !Contains(Haystack(title, imagePath), KW_ROOF)
    requires Contains(Haystack(title, imagePath), KW_FOUNDATION) || Contains(Haystack(title, imagePath), KW_CRACK)
    ensures var a := Fallback(title, imagePath, seedBase, uuid);
      && KindsOf(a.detections) == [STRUCTURAL_CRACK, EFFLORESCENCE]
      && SeveritiesOf(a.detections) == [Critical, Medium]
      && a.risk == Critical
      && 0.9 <= a.detections[0].confidence <= 0.98
      && 0.8 <= a.detections[1].confidence <= 0.9
  {
  }

  /** Then "water" gives one Water Staining (medium), risk medium. */
  lemma WaterBranch(title: JsString, imagePath: JsString, seedBase: JsString, uuid: nat -> JsString)
    requires var lower := Haystack(title, imagePath);
      !Contains(lower, KW_ROOF) && !Contains(lower, KW_FOUNDATION) && !Contains(lower, KW_CRACK) && Contains(lower, KW_WATER)
    ensures var a := Fallback(title, imagePath, seedBase, uuid);
      && KindsOf(a.detections) == [WATER_STAINING]
      && SeveritiesOf(a.detections) == [Medium]
      && a.risk == Medium
      && 0.82 <= a.detections[0].confidence <= 0.94
  {
  }

  /** With no keyword at all the result is one Anomaly (low), risk low. */
  lemma DefaultBranch(title: JsString, imagePath: JsString, seedBase: JsString, uuid: nat -> JsString)
    requires var lower := Haystack(title, imagePath);
      !Contains(lower, KW_ROOF) && !Contains(lower, KW_FOUNDATION) && !Contains(lower, KW_CRACK) && !Contains(lower, KW_WATER)
    ensures var a := Fallback(title, imagePath, seedBase, uuid);
      && KindsOf(a.detections) == [ANOMALY]
      && SeveritiesOf(a.detections) == [Low]
      && a.risk == Low
      && 0.6 <= a.detections[0].confidence <= 0.8
  {
  }

  /** The shape `FallbackInvariants` promises: 1 to 3 detections, each with a confidence in [0.6, 0.98], no box, and the k-th id. */
  predicate WellFormedFindings(ds: seq<Detection>, uuid: nat -> JsString) {
    && 1 <= |ds| <= 3
    && forall k :: 0 <= k < |ds| ==>
         && 0.6 <= ds[k].confidence <= 0.98
         && ds[k].box.None?
         && ds[k].id == uuid(k)
  }

  /** Each of the four fixed lists has that shape. */
  lemma FindingsWellFormed(seed: nat, uuid: nat -> JsString)
    ensures WellFormedFindings(RoofFindings(seed, uuid), uuid)
    ensures WellFormedFindings(CrackFindings(seed, uuid), uuid)
    ensures WellFormedFindings(WaterFindings(seed, uuid), uuid)
    ensures WellFormedFindings(DefaultFindings(seed, uuid), uuid)
  {
    var r0, r1, r2 := RandValue(seed), RandValue(seed + 1), RandValue(seed + 2);
    assert 0.0 <= r0 <= 1.0 && 0.0 <= r1 <= 1.0 && 0.0 <= r2 <= 1.0;
  }

  /**
   * The k-th finding of a branch draws `rand(seed + k)`: its confidence is the branch's base
   * for that position plus `rand(seed + k)` times the position's span.
   */
  lemma FindingsConfidences(seed: nat, uuid: nat -> JsString)
    ensures var ds := RoofFindings(seed, uuid);
      && |ds| == 3
      && ds[0].confidence == 0.85 + RandValue(seed) * 0.1
      && ds[1].confidence == 0.8 + RandValue(seed + 1) * 0.15
      && ds[2].confidence == 0.7 + RandValue(seed + 2) * 0.2
    ensures var ds := CrackFindings(seed, uuid);
      && |ds| == 2
      && ds[0].confidence == 0.9 + RandValue(seed) * 0.08
      && ds[1].confidence == 0.8 + RandValue(seed + 1) * 0.1
    ensures var ds := WaterFindings(seed, uuid);
      |ds| == 1 && ds[0].confidence == 0.82 + RandValue(seed) * 0.12
    ensures var ds := DefaultFindings(seed, uuid);
      |ds| == 1 && ds[0].confidence == 0.6 + RandValue(seed) * 0.2
  {
  }

  /** The list `Fallback` picks is one of the four fixed lists. */
  lemma FallbackPicks(title: JsString, imagePath: JsString, seedBase: JsString, uuid: nat -> JsString)
    ensures var ds, seed := Fallback(title, imagePath, seedBase, uuid).detections, HashOf(seedBase);
      || ds == RoofFindings(seed, uuid) || ds == CrackFindings(seed, uuid)
      || ds == WaterFindings(seed, uuid) || ds == DefaultFindings(seed, uuid)
  {
  }

  /** Every generated detection has a confidence in [0.6, 0.98], has no box, and the k-th carries the k-th id. */
  lemma FallbackInvariants(title: JsString, imagePath: JsString, seedBase: JsString, uuid: nat -> JsString)
    ensures var a := Fallback(title, imagePath, seedBase, uuid);
      && 1 <= |a.detections| <= 3
      && forall k :: 0 <= k < |a.detections| ==>
           && 0.6 <= a.detections[k].confidence <= 0.98
           && a.detections[k].box.None?
           && a.detections[k].id == uuid(k)
  {
    FallbackPicks(title, imagePath, seedBase, uuid);
    FindingsWellFormed(HashOf(seedBase), uuid);
    assert WellFormedFindings(Fallback(title, imagePath, seedBase, uuid).detections, uuid);
  }

  /** A detection with its id blanked out. */
  function WithoutId(d: Detection): Detection {
    d.(id := [])
  }

  /** Two detection lists agree apart from their ids. */
  predicate SameApartFromIds(ds1: seq<Detection>, ds2: seq<Detection>) {
    |ds1| == |ds2| && forall k :: 0 <= k < |ds1| ==> WithoutId(ds1[k]) == WithoutId(ds2[k])
  }

  /** Two fallback runs on the same inputs take the same branch, whatever their ids. */
  lemma FallbackSameBranch(title: JsString, imagePath: JsString, seedBase: JsString, u1: nat -> JsString, u2: nat -> JsString)
    ensures var a1, a2, seed := Fallback(title, imagePath, seedBase, u1), Fallback(title, imagePath, seedBase, u2), HashOf(seedBase);
      && a1.risk == a2.risk
      && (|| (a1.detections == RoofFindings(seed, u1) && a2.detections == RoofFindings(seed, u2))
          || (a1.detections == CrackFindings(seed, u1) && a2.detections == CrackFindings(seed, u2))
          || (a1.detections == WaterFindings(seed, u1) && a2.detections == WaterFindings(seed, u2))
          || (a1.detections == DefaultFindings(seed, u1) && a2.detections == DefaultFindings(seed, u2)))
  {
  }

  /** Same title, path and seed key give the same detections apart from the random ids, and the same risk. */
  lemma FallbackDeterministic(title: JsString, imagePath: JsString, seedBase: JsString, u1: nat -> JsString, u2: nat -> JsString)
    ensures var a1, a2 := Fallback(title, imagePath, seedBase, u1), Fallback(title, imagePath, seedBase, u2);
      && a1.risk == a2.risk
      && |a1.detections| == |a2.detections|
      && forall k :: 0 <= k < |a1.detections| ==> WithoutId(a1.detections[k]) == WithoutId(a2.detections[k])
  {
    var seed := HashOf(seedBase);
    FallbackSameBranch(title, imagePath, seedBase, u1, u2);
    assert SameApartFromIds(RoofFindings(seed, u1), RoofFindings(seed, u2));
    assert SameApartFromIds(CrackFindings(seed, u1), CrackFindings(seed, u2));
    assert SameApartFromIds(WaterFindings(seed, u1), WaterFindings(seed, u2));
    assert SameApartFromIds(DefaultFindings(seed, u1), DefaultFindings(seed, u2));
    assert SameApartFromIds(Fallback(title, imagePath, seedBase, u1).detections, Fallback(title, imagePath, seedBase, u2).detections);
  }

  /** A photo titled "Roof Damage A" at "/uploads/x.jpg" gets the three roof detections and risk high. */
  lemma RoofScenario(seedBase: JsString, uuid: nat -> JsString)
    ensures var a := Fallback(Utf16("Roof Damage A"), Utf16("/uploads/x.jpg"), seedBase, uuid);
      KindsOf(a.detections) == [HAIL_IMPACT, MISSING_SHINGLES, FLASHING_ISSUES] && a.risk == High
  {
    var title, path := Utf16("Roof Damage A"), Utf16("/uploads/x.jpg");
    var lower := Haystack(title, path);
    assert lower[0..4] == KW_ROOF;
    ContainsAt(lower, KW_ROOF, 0);
    RoofBranch(title, path, seedBase, uuid);
  }
}

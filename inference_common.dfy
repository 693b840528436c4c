/**
 * The pieces every provider adapter in lib/inference/ repeats word for word: the
 * three-tier severity mapping, `normalizeBox`, the label and confidence fallback chains,
 * iterating a response's items, and the loop that turns items into detections.
 * Each adapter file carries its own copy; the model defines each once.
 */
module InferenceCommon {
  import opened Js
  import opened Wrap
  import opened Store

  /** One HTTP answer: whether its status was 2xx, and its decoded JSON body. */
  datatype Response = Response(ok: bool, body: Value)

  /** Why an adapter throws instead of returning detections. */
  datatype Failure =
    | TypeError                  // property access on null/undefined, or `for...of` over a non-iterable
    | Unrepresentable            // a truthy non-string label or a non-numeric box field, which a typed Detection cannot hold
    | Thrown(message: JsString)  // an `Error` the adapter throws itself

  /** Ranks the severities, critical highest. */
  function Rank(s: Severity): (r: nat)
    ensures r <= 3
  {
    match s
    case Low => 0
    case Medium => 1
    case High => 2
    case Critical => 3
  }

  /** `sev` / `severityFromConfidence`: 0.9 and up is high, 0.8 and up medium, the rest low. */
  function Sev(c: real): (r: Severity)
    ensures r != Critical
    ensures r == High <==> 0.9 <= c
    ensures r == Medium <==> 0.8 <= c < 0.9
    ensures r == Low <==> c < 0.8
  {
    if c >= 0.9 then High else if c >= 0.8 then Medium else Low
  }

  /** A higher confidence never gives a lower severity. */
  lemma SevMonotone(c1: real, c2: real)
    requires c1 <= c2
    ensures Rank(Sev(c1)) <= Rank(Sev(c2))
  {
  }

  // ----- normalizeBox -----

  /** `b` has numeric `left`, `top`, `width` and `height` properties. */
  predicate IsFractionBox(b: Value) {
    Prop(b, Utf16("left")).Num? && Prop(b, Utf16("top")).Num? &&
    Prop(b, Utf16("width")).Num? && Prop(b, Utf16("height")).Num?
  }

  /** `meta.imageWidth || meta.imgW || meta.w || undefined`. */
  function MetaWidth(b: Value): (r: Value)
    ensures Truthy(Prop(b, Utf16("imageWidth"))) ==> r == Prop(b, Utf16("imageWidth"))
    ensures !Truthy(Prop(b, Utf16("imageWidth"))) && Truthy(Prop(b, Utf16("imgW"))) ==> r == Prop(b, Utf16("imgW"))
    ensures (!Truthy(Prop(b, Utf16("imageWidth"))) && !Truthy(Prop(b, Utf16("imgW"))) && Truthy(Prop(b, Utf16("w")))
      ==> r == Prop(b, Utf16("w")))
    ensures (!Truthy(Prop(b, Utf16("imageWidth"))) && !Truthy(Prop(b, Utf16("imgW"))) && !Truthy(Prop(b, Utf16("w")))
      ==> r == Undefined)
    ensures r == Undefined || Truthy(r)
  {
    var vs := [Prop(b, Utf16("imageWidth")), Prop(b, Utf16("imgW")), Prop(b, Utf16("w"))];
    assert vs[0] == Prop(b, Utf16("imageWidth")) && vs[1] == Prop(b, Utf16("imgW")) && vs[2] == Prop(b, Utf16("w"));
    FirstTruthy(vs, Undefined)
  }

  /** `meta.imageHeight || meta.imgH || meta.h || undefined`. */
  function MetaHeight(b: Value): (r: Value)
    ensures Truthy(Prop(b, Utf16("imageHeight"))) ==> r == Prop(b, Utf16("imageHeight"))
    ensures !Truthy(Prop(b, Utf16("imageHeight"))) && Truthy(Prop(b, Utf16("imgH"))) ==> r == Prop(b, Utf16("imgH"))
    ensures (!Truthy(Prop(b, Utf16("imageHeight"))) && !Truthy(Prop(b, Utf16("imgH"))) && Truthy(Prop(b, Utf16("h")))
      ==> r == Prop(b, Utf16("h")))
    ensures (!Truthy(Prop(b, Utf16("imageHeight"))) && !Truthy(Prop(b, Utf16("imgH"))) && !Truthy(Prop(b, Utf16("h")))
      ==> r == Undefined)
    ensures r == Undefined || Truthy(r)
  {
    var vs := [Prop(b, Utf16("imageHeight")), Prop(b, Utf16("imgH")), Prop(b, Utf16("h"))];
    assert vs[0] == Prop(b, Utf16("imageHeight")) && vs[1] == Prop(b, Utf16("imgH")) && vs[2] == Prop(b, Utf16("h"));
    FirstTruthy(vs, Undefined)
  }

  /** `b` is a 4-element array of numbers `[x1, y1, x2, y2]` with positive numeric image dimensions attached. */
  predicate IsPixelBox(b: Value) {
    && b.Arr? && |b.elems| == 4
    && b.elems[0].Num? && b.elems[1].Num? && b.elems[2].Num? && b.elems[3].Num?
    && MetaWidth(b).Num? && MetaHeight(b).Num? && MetaWidth(b).n > 0.0 && MetaHeight(b).n > 0.0
  }

  /**
   * `normalizeBox`: a fractional box is passed through unchanged; a pixel box `[x1, y1, x2, y2]`
   * with the image size attached is divided by that size; anything else gives no box.
   */
  function NormalizeBox(b: Value): (r: Option<Box>)
    ensures !Truthy(b) ==> r.None?
    ensures Truthy(b) && IsFractionBox(b) ==>
      r == Some(Box(Prop(b, Utf16("left")).n, Prop(b, Utf16("top")).n, Prop(b, Utf16("width")).n, Prop(b, Utf16("height")).n))
    ensures r.Some? <==> Truthy(b) && (IsFractionBox(b) || IsPixelBox(b))
  {
    if !Truthy(b) then None
    else if IsFractionBox(b) then
      Some(Box(Prop(b, Utf16("left")).n, Prop(b, Utf16("top")).n, Prop(b, Utf16("width")).n, Prop(b, Utf16("height")).n))
    else if IsPixelBox(b) then
      var w, h := MetaWidth(b).n, MetaHeight(b).n;
      var x1, y1, x2, y2 := b.elems[0].n, b.elems[1].n, b.elems[2].n, b.elems[3].n;
      Some(Box(x1 / w, y1 / h, (x2 - x1) / w, (y2 - y1) / h))
    else None
  }

  /** Scaling a converted pixel box back by the image size gives the original corners. */
  lemma PixelBoxRoundTrip(b: Value)
    requires Truthy(b) && !IsFractionBox(b) && IsPixelBox(b)
    ensures var box, w, h := NormalizeBox(b).value, MetaWidth(b).n, MetaHeight(b).n;
      && box.left * w == b.elems[0].n && (box.left + box.width) * w == b.elems[2].n
      && box.top * h == b.elems[1].n && (box.top + box.height) * h == b.elems[3].n
  {
    var box, w, h := NormalizeBox(b).value, MetaWidth(b).n, MetaHeight(b).n;
    var x1, y1, x2, y2 := b.elems[0].n, b.elems[1].n, b.elems[2].n, b.elems[3].n;
    assert box == Box(x1 / w, y1 / h, (x2 - x1) / w, (y2 - y1) / h);
    calc {
      (box.left + box.width) * w;
      (x1 / w + (x2 - x1) / w) * w;
      (x1 / w) * w + ((x2 - x1) / w) * w;
      x1 + (x2 - x1);
    }
    calc {
      (box.top + box.height) * h;
      (y1 / h + (y2 - y1) / h) * h;
      (y1 / h) * h + ((y2 - y1) / h) * h;
      y1 + (y2 - y1);
    }
  }

  /**
   * An array decoded from JSON has no named properties, so it carries no image size and
   * `normalizeBox` never converts it: such a box is always dropped.
   */
  lemma DecodedArrayBoxDropped(elems: seq<Value>)
    ensures NormalizeBox(Arr(elems, map[])).None?
  {
    var b := Arr(elems, map[]);
    assert Prop(b, Utf16("left")) == Undefined;
    assert MetaWidth(b) == Undefined;
  }

  // ----- label and confidence -----

  /** The label properties DINO-X and GroundingDINO try, in order. */
  const DINO_LABEL_KEYS: seq<JsString> := [Utf16("label"), Utf16("text"), Utf16("class"), Utf16("type")]

  const UNKNOWN: JsString := Utf16("Unknown")

  /** Key `keys[i]` of `it` is the first of `keys` whose value is truthy. */
  predicate FirstTruthyKey(it: Value, keys: seq<JsString>, i: int) {
    0 <= i < |keys| && Truthy(Prop(it, keys[i])) && forall j :: 0 <= j < i ==> !Truthy(Prop(it, keys[j]))
  }

  /** `it.k1 || it.k2 || ... || 'Unknown'`, which must come out a string. */
  function LabelOf(it: Value, keys: seq<JsString>): (r: Result<JsString, Failure>)
    ensures forall i :: FirstTruthyKey(it, keys, i) ==>
      (r.Ok? <==> Prop(it, keys[i]).Str?) && (r.Ok? ==> r.value == Prop(it, keys[i]).s && r.value != [])
    ensures (forall i :: 0 <= i < |keys| ==> !Truthy(Prop(it, keys[i]))) ==> r == Ok(UNKNOWN)
  {
    var vs := seq(|keys|, i requires 0 <= i < |keys| => Prop(it, keys[i]));
    var v := FirstTruthy(vs, Str(UNKNOWN));
    FirstTruthyFirst(vs, Str(UNKNOWN));
    assert forall i :: FirstTruthyKey(it, keys, i) ==> v == Prop(it, keys[i]) by {
      forall i | FirstTruthyKey(it, keys, i) ensures v == Prop(it, keys[i]) {
        assert vs[i] == Prop(it, keys[i]);
        assert forall j :: 0 <= j < i ==> vs[j] == Prop(it, keys[j]);
      }
    }
    if v.Str? then Ok(v.s) else Err(Unrepresentable)
  }

  /** `FirstTruthy` returns the earliest truthy value. */
  lemma {:induction false} FirstTruthyFirst(vs: seq<Value>, last: Value)
    ensures (exists i :: 0 <= i < |vs| && Truthy(vs[i])) ==>
      exists i :: 0 <= i < |vs| && Truthy(vs[i]) && FirstTruthy(vs, last) == vs[i] && forall j :: 0 <= j < i ==> !Truthy(vs[j])
    ensures forall i :: 0 <= i < |vs| && Truthy(vs[i]) && (forall j :: 0 <= j < i ==> !Truthy(vs[j])) ==> FirstTruthy(vs, last) == vs[i]
  {
    if vs != [] && !Truthy(vs[0]) {
      FirstTruthyFirst(vs[1..], last);
      if exists i :: 0 <= i < |vs| && Truthy(vs[i]) {
        var i :| 0 <= i < |vs| && Truthy(vs[i]);
        assert Truthy(vs[1..][i - 1]);
        var k :| 0 <= k < |vs[1..]| && Truthy(vs[1..][k]) && FirstTruthy(vs[1..], last) == vs[1..][k] &&
                 forall j :: 0 <= j < k ==> !Truthy(vs[1..][j]);
        assert forall j :: 0 <= j < k + 1 ==> !Truthy(vs[j]) by {
          forall j | 0 <= j < k + 1 ensures !Truthy(vs[j]) {
            if j > 0 { assert vs[j] == vs[1..][j - 1]; }
          }
        }
      }
    }
  }

  /** `typeof it.confidence === 'number' ? it.confidence : (typeof it.score === 'number' ? it.score : 0)`. */
  function ConfidenceOf(it: Value): (r: real)
    ensures Prop(it, Utf16("confidence")).Num? ==> r == Prop(it, Utf16("confidence")).n
    ensures !Prop(it, Utf16("confidence")).Num? && Prop(it, Utf16("score")).Num? ==> r == Prop(it, Utf16("score")).n
    ensures !Prop(it, Utf16("confidence")).Num? && !Prop(it, Utf16("score")).Num? ==> r == 0.0
  {
    var c, s := Prop(it, Utf16("confidence")), Prop(it, Utf16("score"));
    if c.Num? then c.n else if s.Num? then s.n else 0.0
  }

  /** `it.box || it.bbox || it.boundingBox`. */
  function RawBox(it: Value): (r: Value)
    ensures Truthy(Prop(it, Utf16("box"))) ==> r == Prop(it, Utf16("box"))
    ensures !Truthy(Prop(it, Utf16("box"))) && Truthy(Prop(it, Utf16("bbox"))) ==> r == Prop(it, Utf16("bbox"))
    ensures !Truthy(Prop(it, Utf16("box"))) && !Truthy(Prop(it, Utf16("bbox"))) ==> r == Prop(it, Utf16("boundingBox"))
  {
    FirstTruthy([Prop(it, Utf16("box")), Prop(it, Utf16("bbox"))], Prop(it, Utf16("boundingBox")))
  }

  // ----- items -----

  /** `for (const it of v)`: an array's elements, a string's code points, a TypeError for anything else. */
  function Iterate(v: Value): (r: Result<seq<Value>, Failure>)
    ensures v.Arr? ==> r == Ok(v.elems)
    ensures !v.Arr? && !v.Str? ==> r == Err(TypeError)
    ensures v.Str? ==> r.Ok? && |r.value| == |CodePoints(v.s)| && forall i :: 0 <= i < |r.value| ==> r.value[i] == Str(CodePoints(v.s)[i])
  {
    match v
    case Arr(elems, _) => Ok(elems)
    case Str(s) =>
      var cps := CodePoints(s);
      Ok(seq(|cps|, i requires 0 <= i < |cps| => Str(cps[i])))
    case _ => Err(TypeError)
  }

  /**
   * `Array.isArray(data.detections) ? data.detections : data`, then iterated, as GroundingDINO
   * and the custom endpoint do: reading `.detections` of null or undefined throws.
   */
  function DetectionsOrSelf(data: Value): (r: Result<seq<Value>, Failure>)
    ensures Nullish(data) ==> r == Err(TypeError)
    ensures !Nullish(data) && Prop(data, Utf16("detections")).Arr? ==> r == Ok(Prop(data, Utf16("detections")).elems)
    ensures !Nullish(data) && !Prop(data, Utf16("detections")).Arr? ==> r == Iterate(data)
  {
    if Nullish(data) then Err(TypeError)
    else
      var d := Prop(data, Utf16("detections"));
      if d.Arr? then Ok(d.elems) else Iterate(data)
  }

  // ----- item to detection -----

  const DETECTED_REGION: JsString := Utf16("Detected region")

  /** `${label}-${suffix}`. */
  function DashJoin(name: JsString, suffix: JsString): (r: JsString)
    ensures |r| == |name| + 1 + |suffix| && r[..|name|] == name && r[|name|] == '-' as int as CodeUnit
  {
    name + [('-' as int) as CodeUnit] + suffix
  }

  /** The detection both DINO adapters build from one item, with `rid` the random id suffix. */
  function DinoDetection(it: Value, rid: JsString): (r: Result<Detection, Failure>)
    ensures Nullish(it) ==> r == Err(TypeError)
    ensures r.Ok? ==> && LabelOf(it, DINO_LABEL_KEYS) == Ok(r.value.kind)
                      && r.value.description == r.value.kind
                      && r.value.id == DashJoin(r.value.kind, rid)
                      && r.value.confidence == ConfidenceOf(it)
                      && r.value.severity == Sev(ConfidenceOf(it))
                      && r.value.location == DETECTED_REGION
                      && r.value.box == NormalizeBox(RawBox(it))
    ensures !Nullish(it) ==> (r.Ok? <==> LabelOf(it, DINO_LABEL_KEYS).Ok?)
  {
    if Nullish(it) then Err(TypeError)
    else match LabelOf(it, DINO_LABEL_KEYS)
      case Err(e) => Err(e)
      case Ok(name) =>
        var conf := ConfidenceOf(it);
        Ok(Detection(DashJoin(name, rid), name, conf, DETECTED_REGION, Sev(conf), name, NormalizeBox(RawBox(it))))
  }

  /** How one adapter turns an item and its id suffix into a detection. */
  type Converter = (Value, JsString) -> Result<Detection, Failure>

  /** The detections an item loop builds: one per item in order, the `k`-th with suffix `rid(k)`; the first failing item aborts. */
  function ItemDetections(convert: Converter, items: seq<Value>, rid: nat -> JsString): (r: Result<seq<Detection>, Failure>)
    ensures r.Ok? <==> forall k :: 0 <= k < |items| ==> convert(items[k], rid(k)).Ok?
    ensures r.Ok? ==> |r.value| == |items| && forall k :: 0 <= k < |items| ==> convert(items[k], rid(k)) == Ok(r.value[k])
    decreases |items|
  {
    if items == [] then Ok([])
    else
      var n := |items| - 1;
      assert forall k :: 0 <= k < n ==> items[..n][k] == items[k];
      match ItemDetections(convert, items[..n], rid)
      case Err(e) => Err(e)
      case Ok(ds) =>
        match convert(items[n], rid(n))
        case Err(e) => Err(e)
        case Ok(d) => Ok(ds + [d])
  }

  /** A failed run reports the error of the first item that fails. */
  lemma {:induction false} FirstFailureReported(convert: Converter, items: seq<Value>, rid: nat -> JsString)
    requires ItemDetections(convert, items, rid).Err?
    ensures exists k :: 0 <= k < |items| && convert(items[k], rid(k)) == Err(ItemDetections(convert, items, rid).error) &&
                        forall j :: 0 <= j < k ==> convert(items[j], rid(j)).Ok?
  {
    var n := |items| - 1;
    assert forall k :: 0 <= k < n ==> items[..n][k] == items[k];
    if ItemDetections(convert, items[..n], rid).Err? {
      FirstFailureReported(convert, items[..n], rid);
    } else {
      assert convert(items[n], rid(n)) == Err(ItemDetections(convert, items, rid).error);
    }
  }

  /** `for (const it of items) detections.push(...)`, the loop every JSON adapter runs. */
  method MapItems(convert: Converter, items: seq<Value>, rid: nat -> JsString) returns (r: Result<seq<Detection>, Failure>)
    ensures r == ItemDetections(convert, items, rid)
  {
    var detections: seq<Detection> := [];
    for k := 0 to |items|
      invariant ItemDetections(convert, items[..k], rid) == Ok(detections)
    {
      assert items[..k + 1][..k] == items[..k];
      var d := convert(items[k], rid(k));
      if d.Err? {
        NoRecoveryAfterFailure(convert, items, rid, k + 1, |items|);
        assert items[..|items|] == items;
        return Err(d.error);
      }
      detections := detections + [d.value];
    }
    assert items[..|items|] == items;
    r := Ok(detections);
  }

  /** Once a prefix fails, every longer prefix fails with the same error. */
  lemma {:induction false} NoRecoveryAfterFailure(convert: Converter, items: seq<Value>, rid: nat -> JsString, k: nat, n: nat)
    requires 0 < k <= n <= |items|
    requires ItemDetections(convert, items[..k], rid).Err?
    ensures ItemDetections(convert, items[..n], rid) == ItemDetections(convert, items[..k], rid)
    decreases n - k
  {
    if n > k {
      NoRecoveryAfterFailure(convert, items, rid, k, n - 1);
      assert items[..n][..n - 1] == items[..n - 1];
    }
  }
}

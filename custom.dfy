/**
 * The custom-endpoint adapter (lib/inference/custom.ts). Unlike the DINO adapters it reads no
 * `text` label and passes box fields through with `??` defaults instead of `normalizeBox`.
 */
module Custom {
  import opened Js
  import opened Wrap
  import opened Store
  import opened InferenceCommon

  const MISSING_URL: JsString := Utf16("Missing CUSTOM_INFERENCE_URL")
  const INFERENCE_FAILED: JsString := Utf16("Custom inference failed")

  /** The label properties the custom adapter tries, in order: no `text`. */
  const CUSTOM_LABEL_KEYS: seq<JsString> := [Utf16("label"), Utf16("class"), Utf16("type")]

  /** `b.key ?? b.alt ?? 0`, which must come out a number. */
  function BoxField(b: Value, key: JsString, alt: JsString): (r: Result<real, Failure>)
    ensures !Nullish(Prop(b, key)) ==> (r.Ok? <==> Prop(b, key).Num?) && (r.Ok? ==> r.value == Prop(b, key).n)
    ensures Nullish(Prop(b, key)) && !Nullish(Prop(b, alt)) ==> (r.Ok? <==> Prop(b, alt).Num?) && (r.Ok? ==> r.value == Prop(b, alt).n)
    ensures Nullish(Prop(b, key)) && Nullish(Prop(b, alt)) ==> r == Ok(0.0)
  {
    var v := Coalesce([Prop(b, key), Prop(b, alt)], Num(0.0));
    if v.Num? then Ok(v.n) else Err(Unrepresentable)
  }

  /** The box of one item: absent iff the raw box is falsy, otherwise each field with its default. */
  function CustomBox(b: Value): (r: Result<Option<Box>, Failure>)
    ensures !Truthy(b) ==> r == Ok(None)
    ensures r.Ok? && Truthy(b) ==>
      && r.value.Some?
      && BoxField(b, Utf16("left"), Utf16("x")) == Ok(r.value.value.left)
      && BoxField(b, Utf16("top"), Utf16("y")) == Ok(r.value.value.top)
      && BoxField(b, Utf16("width"), Utf16("w")) == Ok(r.value.value.width)
      && BoxField(b, Utf16("height"), Utf16("h")) == Ok(r.value.value.height)
    ensures Truthy(b) ==> (r.Ok? <==> BoxField(b, Utf16("left"), Utf16("x")).Ok? && BoxField(b, Utf16("top"), Utf16("y")).Ok? &&
                                      BoxField(b, Utf16("width"), Utf16("w")).Ok? && BoxField(b, Utf16("height"), Utf16("h")).Ok?)
  {
    if !Truthy(b) then Ok(None)
    else
      var left, top := BoxField(b, Utf16("left"), Utf16("x")), BoxField(b, Utf16("top"), Utf16("y"));
      var width, height := BoxField(b, Utf16("width"), Utf16("w")), BoxField(b, Utf16("height"), Utf16("h"));
      if left.Ok? && top.Ok? && width.Ok? && height.Ok? then Ok(Some(Box(left.value, top.value, width.value, height.value)))
      else Err(Unrepresentable)
  }

  /** The detection the custom adapter builds from one item. */
  function CustomDetection(it: Value, rid: JsString): (r: Result<Detection, Failure>)
    ensures Nullish(it) ==> r == Err(TypeError)
    ensures r.Ok? ==> && LabelOf(it, CUSTOM_LABEL_KEYS) == Ok(r.value.kind)
                      && r.value.description == r.value.kind
                      && r.value.id == DashJoin(r.value.kind, rid)
                      && r.value.confidence == ConfidenceOf(it)
                      && r.value.severity == Sev(ConfidenceOf(it))
                      && r.value.location == DETECTED_REGION
                      && CustomBox(RawBox(it)) == Ok(r.value.box)
    ensures !Nullish(it) ==> (r.Ok? <==> LabelOf(it, CUSTOM_LABEL_KEYS).Ok? && CustomBox(RawBox(it)).Ok?)
  {
    if Nullish(it) then Err(TypeError)
    else match LabelOf(it, CUSTOM_LABEL_KEYS)
      case Err(e) => Err(e)
      case Ok(name) =>
        var conf := ConfidenceOf(it);
        match CustomBox(RawBox(it))
        case Err(e) => Err(e)
        case Ok(box) => Ok(Detection(DashJoin(name, rid), name, conf, DETECTED_REGION, Sev(conf), name, box))
  }

  /** `analyzeWithCustom`, with `url` the configured endpoint and `rid(k)` the k-th id suffix. */
  function CustomOutcome(url: Option<JsString>, res: Response, rid: nat -> JsString): (r: Result<seq<Detection>, Failure>)
    ensures url.None? || url.value == [] ==> r == Err(Thrown(MISSING_URL))
    ensures url.Some? && url.value != [] && !res.ok ==> r == Err(Thrown(INFERENCE_FAILED))
    ensures r.Ok? ==> DetectionsOrSelf(res.body).Ok? && r == ItemDetections(CustomDetection, DetectionsOrSelf(res.body).value, rid)
    ensures url.Some? && url.value != [] && res.ok && DetectionsOrSelf(res.body).Err? ==> r == Err(DetectionsOrSelf(res.body).error)
    ensures url.Some? && url.value != [] && res.ok && DetectionsOrSelf(res.body).Ok? ==>
      r == ItemDetections(CustomDetection, DetectionsOrSelf(res.body).value, rid)
  {
    if url.None? || url.value == [] then Err(Thrown(MISSING_URL))
    else if !res.ok then Err(Thrown(INFERENCE_FAILED))
    else match DetectionsOrSelf(res.body)
      case Err(e) => Err(e)
      case Ok(items) => ItemDetections(CustomDetection, items, rid)
  }

  /** `analyzeWithCustom`. */
  method AnalyzeWithCustom(url: Option<JsString>, res: Response, rid: nat -> JsString)
    returns (r: Result<seq<Detection>, Failure>)
    ensures r == CustomOutcome(url, res, rid)
  {
    if url.None? || url.value == [] {
      return Err(Thrown(MISSING_URL));
    }
    if !res.ok {
      return Err(Thrown(INFERENCE_FAILED));
    }
    var items := DetectionsOrSelf(res.body);
    if items.Err? {
      return Err(items.error);
    }
    r := MapItems(CustomDetection, items.value, rid);
  }

  /** A `text` field alone does not name a custom item: it is "Unknown". */
  lemma TextIsNotALabel(t: JsString, rid: JsString)
    ensures var r := CustomDetection(Obj(map[Utf16("text") := Str(t)]), rid);
      r.Ok? && r.value.kind == UNKNOWN
  {
    var it := Obj(map[Utf16("text") := Str(t)]);
    assert Utf16("text") != Utf16("label") && Utf16("text") != Utf16("class") && Utf16("text") != Utf16("type") by {
      assert Utf16("text")[0] != Utf16("label")[0] && Utf16("text")[0] != Utf16("class")[0];
      assert Utf16("text")[1] != Utf16("type")[1];
    }
    assert forall i :: 0 <= i < |CUSTOM_LABEL_KEYS| ==> Prop(it, CUSTOM_LABEL_KEYS[i]) == Undefined;
    assert Prop(it, Utf16("box")) == Undefined by { assert |Utf16("box")| != |Utf16("text")|; }
    assert Prop(it, Utf16("boundingBox")) == Undefined by { assert |Utf16("boundingBox")| != |Utf16("text")|; }
  }

  /** Pixel coordinates are not converted: `{x, y, w, h}` is copied into the box as it is. */
  lemma PixelFieldsPassThrough(x: real, y: real, w: real, h: real)
    ensures var b := Obj(map[Utf16("x") := Num(x), Utf16("y") := Num(y), Utf16("w") := Num(w), Utf16("h") := Num(h)]);
      CustomBox(b) == Ok(Some(Box(x, y, w, h)))
  {
    var b := Obj(map[Utf16("x") := Num(x), Utf16("y") := Num(y), Utf16("w") := Num(w), Utf16("h") := Num(h)]);
    assert Utf16("x")[0] != Utf16("y")[0] && Utf16("x")[0] != Utf16("w")[0] && Utf16("x")[0] != Utf16("h")[0];
    assert Utf16("y")[0] != Utf16("w")[0] && Utf16("y")[0] != Utf16("h")[0] && Utf16("w")[0] != Utf16("h")[0];
    assert Prop(b, Utf16("x")) == Num(x) && Prop(b, Utf16("y")) == Num(y);
    assert Prop(b, Utf16("w")) == Num(w) && Prop(b, Utf16("h")) == Num(h);
    assert Prop(b, Utf16("left")) == Undefined && Prop(b, Utf16("top")) == Undefined;
    assert Prop(b, Utf16("width")) == Undefined && Prop(b, Utf16("height")) == Undefined;
  }
}

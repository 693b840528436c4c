/**
 * The GroundingDINO adapter (lib/inference/groundingdino.ts): one POST to a configured
 * endpoint, whose answer is given as `res`; its items become detections exactly as DINO-X's do.
 */
module GroundingDino {
  import opened Js
  import opened Wrap
  import opened Store
  import opened InferenceCommon

  const MISSING_URL: JsString := Utf16("Missing GROUNDDINO_URL")
  const INFERENCE_FAILED: JsString := Utf16("GroundingDINO inference failed")

  /** `analyzeWithGroundingDINO`, with `url` the configured endpoint and `rid(k)` the k-th id suffix. */
  function GroundingDinoOutcome(url: Option<JsString>, res: Response, rid: nat -> JsString): (r: Result<seq<Detection>, Failure>)
    ensures url.None? || url.value == [] ==> r == Err(Thrown(MISSING_URL))
    ensures url.Some? && url.value != [] && !res.ok ==> r == Err(Thrown(INFERENCE_FAILED))
    ensures r.Ok? ==> DetectionsOrSelf(res.body).Ok? && r == ItemDetections(DinoDetection, DetectionsOrSelf(res.body).value, rid)
    ensures url.Some? && url.value != [] && res.ok && DetectionsOrSelf(res.body).Err? ==> r == Err(DetectionsOrSelf(res.body).error)
    ensures url.Some? && url.value != [] && res.ok && DetectionsOrSelf(res.body).Ok? ==>
      r == ItemDetections(DinoDetection, DetectionsOrSelf(res.body).value, rid)
  {
    if url.None? || url.value == [] then Err(Thrown(MISSING_URL))
    else if !res.ok then Err(Thrown(INFERENCE_FAILED))
    else match DetectionsOrSelf(res.body)
      case Err(e) => Err(e)
      case Ok(items) => ItemDetections(DinoDetection, items, rid)
  }

  /** `analyzeWithGroundingDINO`. */
  method AnalyzeWithGroundingDino(url: Option<JsString>, res: Response, rid: nat -> JsString)
    returns (r: Result<seq<Detection>, Failure>)
    ensures r == GroundingDinoOutcome(url, res, rid)
  {
    if url.None? || url.value == [] {
      return Err(Thrown(MISSING_URL));
    }
    if !res.ok {
      return Err(Thrown(INFERENCE_FAILED));
    }
    var items := DetectionsOrSelf(res.body);
    if items.Err? {
      return Err(items.error);
    }
    r := MapItems(DinoDetection, items.value, rid);
  }

  /** A body of `null` makes `data.detections` throw. */
  lemma NullBodyThrows(url: JsString, rid: nat -> JsString)
    requires url != []
    ensures GroundingDinoOutcome(Some(url), Response(true, Null), rid) == Err(TypeError)
  {
  }

  /** A detections-less object body is not iterable and throws: there is no empty-list fallback. */
  lemma ObjectBodyThrows(url: JsString, fields: map<JsString, Value>, rid: nat -> JsString)
    requires url != [] && (Utf16("detections") in fields ==> !fields[Utf16("detections")].Arr?)
    ensures GroundingDinoOutcome(Some(url), Response(true, Obj(fields)), rid) == Err(TypeError)
  {
  }

  /** A bare array body gives one detection per element, in order. */
  lemma ArrayBodyItems(url: JsString, elems: seq<Value>, rid: nat -> JsString)
    requires url != []
    ensures GroundingDinoOutcome(Some(url), Response(true, Arr(elems, map[])), rid) == ItemDetections(DinoDetection, elems, rid)
  {
  }

  /** A string item has none of the looked-up properties: it becomes an "Unknown" detection with confidence 0 and no box. */
  lemma StringItemUnknown(t: JsString, rid: JsString)
    ensures DinoDetection(Str(t), rid) == Ok(Detection(DashJoin(UNKNOWN, rid), UNKNOWN, 0.0, DETECTED_REGION, Low, UNKNOWN, None))
  {
    assert forall i :: 0 <= i < |DINO_LABEL_KEYS| ==> Prop(Str(t), DINO_LABEL_KEYS[i]) == Undefined;
  }

  /** A string body is iterated by code point: one "Unknown" detection with no box and confidence 0 per code point. */
  lemma StringBodyUnknowns(url: JsString, s: JsString, rid: nat -> JsString)
    requires url != []
    ensures var r := GroundingDinoOutcome(Some(url), Response(true, Str(s)), rid);
      && r.Ok? && |r.value| == |CodePoints(s)|
      && forall k :: 0 <= k < |r.value| ==>
           r.value[k].kind == UNKNOWN && r.value[k].box.None? && r.value[k].confidence == 0.0 && r.value[k].severity == Low
  {
    var items := DetectionsOrSelf(Str(s)).value;
    assert |items| == |CodePoints(s)|;
    forall k | 0 <= k < |items|
      ensures DinoDetection(items[k], rid(k)) ==
              Ok(Detection(DashJoin(UNKNOWN, rid(k)), UNKNOWN, 0.0, DETECTED_REGION, Low, UNKNOWN, None))
    {
      StringItemUnknown(items[k].s, rid(k));
    }
  }
}

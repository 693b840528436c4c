/**
 * The Amazon Rekognition adapter (lib/inference/awsRekognition.ts): the labels a
 * DetectLabels call returned are expanded into one detection per instance, or one
 * scene-wide detection for a label without instances. The SDK call itself is the input
 * `sent`, its answer or its rejection; its typed records are modelled with every optional
 * field an `Option`.
 */
module Rekognition {
  import opened Js
  import opened Wrap
  import opened Store
  import opened InferenceCommon

  /** A Rekognition `BoundingBox`, in fractions of the image. */
  datatype BoundingBox = BoundingBox(left: Option<real>, top: Option<real>, width: Option<real>, height: Option<real>)

  /** One located occurrence of a label. */
  datatype Instance = Instance(boundingBox: Option<BoundingBox>)

  /** A detected label: its name, its confidence in percent and its instances. */
  datatype Label = Label(name: Option<JsString>, confidence: Option<real>, instances: Option<seq<Instance>>)

  const MISSING_CREDENTIALS: JsString := Utf16("Missing AWS credentials")
  const SCENE: JsString := Utf16("Scene")
  const UNDEFINED: JsString := Utf16("undefined")

  const KW_CRACK: JsString := Utf16("crack")
  const KW_ROOF: JsString := Utf16("roof")
  const KW_SHINGLE: JsString := Utf16("shingle")
  const KW_WATER: JsString := Utf16("water")
  const KW_LEAK: JsString := Utf16("leak")
  const KW_STAIN: JsString := Utf16("stain")
  const KW_CHIMNEY: JsString := Utf16("chimney")
  const KW_PLYWOOD: JsString := Utf16("plywood")
  const KW_GRAVEL: JsString := Utf16("gravel")
  const KW_MULCH: JsString := Utf16("mulch")

  const STRUCTURAL_CRACK: JsString := Utf16("Structural Crack")
  const ROOF_SURFACE: JsString := Utf16("Roof Surface")
  const SHINGLE: JsString := Utf16("Shingle")
  const WATER_STAINING: JsString := Utf16("Water Staining")
  const FLASHING_AREA: JsString := Utf16("Flashing Area")
  const PLYWOOD: JsString := Utf16("Plywood")
  const LOOSE_MATERIAL: JsString := Utf16("Loose Material")

  /** The name has none of the ten keywords, in any letter case. */
  predicate NoKeyword(name: JsString) {
    var n := Lower(name);
    !Contains(n, KW_CRACK) && !Contains(n, KW_ROOF) && !Contains(n, KW_SHINGLE) &&
    !Contains(n, KW_WATER) && !Contains(n, KW_LEAK) && !Contains(n, KW_STAIN) &&
    !Contains(n, KW_CHIMNEY) && !Contains(n, KW_PLYWOOD) && !Contains(n, KW_GRAVEL) && !Contains(n, KW_MULCH)
  }

  /** The lower-cased name contains the keyword `k`. */
  predicate Mentions(name: JsString, k: JsString) {
    Contains(Lower(name), k)
  }

  /** `mapLabelToType`: the first keyword group found in the lower-cased name picks the type; otherwise the name is kept. */
  function MapLabelToType(name: JsString): (r: JsString)
    ensures r == name || r in [STRUCTURAL_CRACK, ROOF_SURFACE, SHINGLE, WATER_STAINING, FLASHING_AREA, PLYWOOD, LOOSE_MATERIAL]
    ensures NoKeyword(name) ==> r == name
    ensures Mentions(name, KW_CRACK) ==> r == STRUCTURAL_CRACK
    ensures !Mentions(name, KW_CRACK) && Mentions(name, KW_ROOF) ==> r == ROOF_SURFACE
    ensures !Mentions(name, KW_CRACK) && !Mentions(name, KW_ROOF) && Mentions(name, KW_SHINGLE) ==> r == SHINGLE
    ensures (!Mentions(name, KW_CRACK) && !Mentions(name, KW_ROOF) && !Mentions(name, KW_SHINGLE) &&
            (Mentions(name, KW_WATER) || Mentions(name, KW_LEAK) || Mentions(name, KW_STAIN))) ==> r == WATER_STAINING
    ensures (!Mentions(name, KW_CRACK) && !Mentions(name, KW_ROOF) && !Mentions(name, KW_SHINGLE) &&
            !Mentions(name, KW_WATER) && !Mentions(name, KW_LEAK) && !Mentions(name, KW_STAIN) &&
            Mentions(name, KW_CHIMNEY)) ==> r == FLASHING_AREA
    ensures (!Mentions(name, KW_CRACK) && !Mentions(name, KW_ROOF) && !Mentions(name, KW_SHINGLE) &&
            !Mentions(name, KW_WATER) && !Mentions(name, KW_LEAK) && !Mentions(name, KW_STAIN) &&
            !Mentions(name, KW_CHIMNEY) && Mentions(name, KW_PLYWOOD)) ==> r == PLYWOOD
    ensures (!Mentions(name, KW_CRACK) && !Mentions(name, KW_ROOF) && !Mentions(name, KW_SHINGLE) &&
            !Mentions(name, KW_WATER) && !Mentions(name, KW_LEAK) && !Mentions(name, KW_STAIN) &&
            !Mentions(name, KW_CHIMNEY) && !Mentions(name, KW_PLYWOOD) &&
            (Mentions(name, KW_GRAVEL) || Mentions(name, KW_MULCH))) ==> r == LOOSE_MATERIAL
  {
    var n := Lower(name);
    if Contains(n, KW_CRACK) then STRUCTURAL_CRACK
    else if Contains(n, KW_ROOF) then ROOF_SURFACE
    else if Contains(n, KW_SHINGLE) then SHINGLE
    else if Contains(n, KW_WATER) || Contains(n, KW_LEAK) || Contains(n, KW_STAIN) then WATER_STAINING
    else if Contains(n, KW_CHIMNEY) then FLASHING_AREA
    else if Contains(n, KW_PLYWOOD) then PLYWOOD
    else if Contains(n, KW_GRAVEL) || Contains(n, KW_MULCH) then LOOSE_MATERIAL
    else name
  }

  /** "Roof Crack" holds both "roof" and "crack"; crack is tried first, so it is a Structural Crack. */
  lemma RoofCrackIsStructural()
    ensures MapLabelToType(Utf16("Roof Crack")) == STRUCTURAL_CRACK
  {
    var n := Lower(Utf16("Roof Crack"));
    assert n[5..10] == KW_CRACK;
    ContainsAt(n, KW_CRACK, 5);
  }

  /** Matching ignores letter case: "WATER LEAK" is Water Staining. */
  lemma UpperCaseWaterLeak()
    ensures MapLabelToType(Utf16("WATER LEAK")) == WATER_STAINING
  {
    var n := Lower(Utf16("WATER LEAK"));
    assert n[0..5] == KW_WATER;
    ContainsAt(n, KW_WATER, 0);
    assert !Contains(n, KW_CRACK) by {
      if Contains(n, KW_CRACK) { ContainsUnit(n, KW_CRACK, 0); }
    }
    assert !Contains(n, KW_ROOF) by {
      if Contains(n, KW_ROOF) { ContainsUnit(n, KW_ROOF, 1); }
    }
    assert !Contains(n, KW_SHINGLE) by {
      if Contains(n, KW_SHINGLE) { ContainsUnit(n, KW_SHINGLE, 0); }
    }
  }

  /** `label.Name || 'Unknown'`. */
  function NameOf(l: Label): (r: JsString)
    ensures r != []
    ensures l.name.Some? && l.name.value != [] ==> r == l.name.value
    ensures l.name.None? || l.name.value == [] ==> r == UNKNOWN
  {
    if l.name.Some? && l.name.value != [] then l.name.value else UNKNOWN
  }

  /** `${label.Name}`: a missing name prints as "undefined". */
  function NameText(l: Label): JsString {
    if l.name.Some? then l.name.value else UNDEFINED
  }

  /** `(label.Confidence || 0) / 100`: the percentage as a fraction. */
  function ConfidenceOfLabel(l: Label): (r: real)
    ensures l.confidence.Some? ==> r * 100.0 == l.confidence.value
    ensures l.confidence.None? ==> r == 0.0
  {
    if l.confidence.Some? then l.confidence.value / 100.0 else 0.0
  }

  /** `x || 0` for an optional number. */
  function OrZero(x: Option<real>): real {
    if x.Some? then x.value else 0.0
  }

  /** An instance's box: absent iff it has no bounding box, missing fields read as 0. */
  function InstanceBox(inst: Instance): (r: Option<Box>)
    ensures r.Some? <==> inst.boundingBox.Some?
    ensures r.Some? ==> var b := inst.boundingBox.value;
      && (b.left.Some? ==> r.value.left == b.left.value) && (b.left.None? ==> r.value.left == 0.0)
      && (b.top.Some? ==> r.value.top == b.top.value) && (b.top.None? ==> r.value.top == 0.0)
      && (b.width.Some? ==> r.value.width == b.width.value) && (b.width.None? ==> r.value.width == 0.0)
      && (b.height.Some? ==> r.value.height == b.height.value) && (b.height.None? ==> r.value.height == 0.0)
  {
    match inst.boundingBox
    case None => None
    case Some(b) => Some(Box(OrZero(b.left), OrZero(b.top), OrZero(b.width), OrZero(b.height)))
  }

  /** The label has at least one instance. */
  predicate HasInstances(l: Label) {
    l.instances.Some? && |l.instances.value| > 0
  }

  /** The detection pushed for one instance of a label. */
  function InstanceDetection(l: Label, inst: Instance, rid: JsString): Detection {
    var kind, conf := MapLabelToType(NameOf(l)), ConfidenceOfLabel(l);
    Detection(DashJoin(NameText(l), rid), kind, conf, DETECTED_REGION, Sev(conf), kind, InstanceBox(inst))
  }

  /** The detection pushed for a label without instances. */
  function SceneDetection(l: Label, rid: JsString): Detection {
    var kind, conf := MapLabelToType(NameOf(l)), ConfidenceOfLabel(l);
    Detection(DashJoin(NameText(l), rid), kind, conf, SCENE, Sev(conf), kind, None)
  }

  /** The detections for `insts`, the `j`-th taking id suffix `rid(base + j)`. */
  function InstanceRun(l: Label, insts: seq<Instance>, rid: nat -> JsString, base: nat): (r: seq<Detection>)
    ensures |r| == |insts|
    ensures forall j :: 0 <= j < |insts| ==> r[j] == InstanceDetection(l, insts[j], rid(base + j))
  {
    seq(|insts|, j requires 0 <= j < |insts| => InstanceDetection(l, insts[j], rid(base + j)))
  }

  /** How many detections a label contributes: `max(1, #instances)`. */
  function Slots(l: Label): (r: nat)
    ensures r >= 1
    ensures HasInstances(l) ==> r == |l.instances.value|
  {
    if HasInstances(l) then |l.instances.value| else 1
  }

  /** One label's detections when `base` detections precede it. */
  function LabelDetections(l: Label, rid: nat -> JsString, base: nat): (r: seq<Detection>)
    ensures |r| == Slots(l)
    ensures forall d :: d in r ==> d.kind == MapLabelToType(NameOf(l)) && d.description == d.kind
    ensures forall d :: d in r ==> d.confidence == ConfidenceOfLabel(l) && d.severity == Sev(ConfidenceOfLabel(l))
    ensures !HasInstances(l) ==> r == [SceneDetection(l, rid(base))]
  {
    if HasInstances(l) then InstanceRun(l, l.instances.value, rid, base) else [SceneDetection(l, rid(base))]
  }

  /** `Σ max(1, #instances)` over the labels. */
  function TotalSlots(labels: seq<Label>): nat
    decreases |labels|
  {
    if labels == [] then 0 else TotalSlots(labels[..|labels| - 1]) + Slots(labels[|labels| - 1])
  }

  /** The detections of the whole loop; ids are numbered by push order. */
  function Expansion(labels: seq<Label>, rid: nat -> JsString): (r: seq<Detection>)
    ensures |r| == TotalSlots(labels)
    decreases |labels|
  {
    if labels == [] then []
    else
      var pre := Expansion(labels[..|labels| - 1], rid);
      pre + LabelDetections(labels[|labels| - 1], rid, |pre|)
  }

  /** `res.Labels || []`. */
  function LabelsOf(labels: Option<seq<Label>>): seq<Label> {
    if labels.Some? then labels.value else []
  }

  /** The inner loop: push one detection per instance, numbering ids on from `|detections|`. */
  method PushInstances(lbl: Label, insts: seq<Instance>, rid: nat -> JsString, detections0: seq<Detection>)
    returns (detections: seq<Detection>)
    ensures detections == detections0 + InstanceRun(lbl, insts, rid, |detections0|)
  {
    var kind := MapLabelToType(NameOf(lbl));
    var conf := ConfidenceOfLabel(lbl);
    var sev := Sev(conf);
    detections := detections0;
    for j := 0 to |insts|
      invariant detections == detections0 + InstanceRun(lbl, insts[..j], rid, |detections0|)
    {
      var b := insts[j].boundingBox;
      var box := if b.Some? then Some(Box(OrZero(b.value.left), OrZero(b.value.top), OrZero(b.value.width), OrZero(b.value.height))) else None;
      assert InstanceRun(lbl, insts[..j + 1], rid, |detections0|) ==
             InstanceRun(lbl, insts[..j], rid, |detections0|) + [InstanceDetection(lbl, insts[j], rid(|detections0| + j))];
      detections := detections + [Detection(DashJoin(NameText(lbl), rid(|detections|)), kind, conf, DETECTED_REGION, sev, kind, box)];
    }
    assert insts[..|insts|] == insts;
  }

  /** The label/instance expansion loop of `analyzeWithRekognition`. */
  method ExpandLabels(labels: Option<seq<Label>>, rid: nat -> JsString) returns (detections: seq<Detection>)
    ensures detections == Expansion(LabelsOf(labels), rid)
  {
    var ls := if labels.Some? then labels.value else [];
    detections := [];
    for i := 0 to |ls|
      invariant detections == Expansion(ls[..i], rid)
    {
      assert ls[..i + 1][..i] == ls[..i];
      var lbl := ls[i];
      if lbl.instances.Some? && |lbl.instances.value| > 0 {
        detections := PushInstances(lbl, lbl.instances.value, rid, detections);
      } else {
        var kind := MapLabelToType(NameOf(lbl));
        var conf := ConfidenceOfLabel(lbl);
        detections := detections + [Detection(DashJoin(NameText(lbl), rid(|detections|)), kind, conf, SCENE, Sev(conf), kind, None)];
      }
    }
    assert ls[..|ls|] == ls;
  }

  /** Every label contributes at least one detection. */
  lemma {:induction false} AtLeastOnePerLabel(labels: seq<Label>)
    ensures TotalSlots(labels) >= |labels|
    decreases |labels|
  {
    if labels != [] {
      AtLeastOnePerLabel(labels[..|labels| - 1]);
    }
  }

  /** Only scene detections lack a box unless an instance had no bounding box; scene detections never have one. */
  lemma {:induction false} SceneHasNoBox(labels: seq<Label>, rid: nat -> JsString)
    ensures forall d :: d in Expansion(labels, rid) && d.location == SCENE ==> d.box.None?
    ensures forall d :: d in Expansion(labels, rid) ==> d.location == SCENE || d.location == DETECTED_REGION
    decreases |labels|
  {
    if labels != [] {
      var l := labels[|labels| - 1];
      SceneHasNoBox(labels[..|labels| - 1], rid);
      var pre := Expansion(labels[..|labels| - 1], rid);
      assert SCENE != DETECTED_REGION by { assert |SCENE| != |DETECTED_REGION|; }
      forall d | d in LabelDetections(l, rid, |pre|)
        ensures d.location == SCENE ==> d.box.None?
        ensures d.location == SCENE || d.location == DETECTED_REGION
      {
        if HasInstances(l) {
          var j :| 0 <= j < |l.instances.value| && InstanceRun(l, l.instances.value, rid, |pre|)[j] == d;
        }
      }
    }
  }

  /** `AWS_REGION`, `AWS_ACCESS_KEY_ID` and `AWS_SECRET_ACCESS_KEY` are all set and not empty. */
  predicate HasCredentials(region: Option<JsString>, accessKeyId: Option<JsString>, secretAccessKey: Option<JsString>) {
    region.Some? && region.value != [] && accessKeyId.Some? && accessKeyId.value != [] &&
    secretAccessKey.Some? && secretAccessKey.value != []
  }

  /**
   * `analyzeWithRekognition` from the credential check on, with `sent` what `client.send` gave:
   * the answer's `Labels`, or the error it was rejected with.
   */
  function RekognitionOutcome(region: Option<JsString>, accessKeyId: Option<JsString>, secretAccessKey: Option<JsString>,
                              sent: Result<Option<seq<Label>>, Failure>, rid: nat -> JsString): (r: Result<seq<Detection>, Failure>)
    ensures !HasCredentials(region, accessKeyId, secretAccessKey) ==> r == Err(Thrown(MISSING_CREDENTIALS))
    ensures HasCredentials(region, accessKeyId, secretAccessKey) && sent.Err? ==> r == Err(sent.error)
    ensures HasCredentials(region, accessKeyId, secretAccessKey) && sent.Ok? ==> r == Ok(Expansion(LabelsOf(sent.value), rid))
    ensures r.Ok? ==> sent.Ok? && |r.value| == TotalSlots(LabelsOf(sent.value)) >= |LabelsOf(sent.value)|
  {
    if !HasCredentials(region, accessKeyId, secretAccessKey) then Err(Thrown(MISSING_CREDENTIALS))
    else match sent
      case Err(e) => Err(e)
      case Ok(labels) =>
        AtLeastOnePerLabel(LabelsOf(labels));
        Ok(Expansion(LabelsOf(labels), rid))
  }

  /** `analyzeWithRekognition`. */
  method AnalyzeWithRekognition(region: Option<JsString>, accessKeyId: Option<JsString>, secretAccessKey: Option<JsString>,
                                sent: Result<Option<seq<Label>>, Failure>, rid: nat -> JsString) returns (r: Result<seq<Detection>, Failure>)
    ensures r == RekognitionOutcome(region, accessKeyId, secretAccessKey, sent, rid)
  {
    if !HasCredentials(region, accessKeyId, secretAccessKey) {
      return Err(Thrown(MISSING_CREDENTIALS));
    }
    if sent.Err? {
      return Err(sent.error);
    }
    var detections := ExpandLabels(sent.value, rid);
    r := Ok(detections);
  }
}

# ImageTagging: detection-to-estimate core, in Dafny

ImageTagging is a Next.js application for inspecting property photos.

1. A photo is analysed. The analyze route (app/api/analyze/route.ts:53) always uses a deterministic fallback generator. The four vision-provider adapters in lib/inference map a provider's answer to detections, but no file of the application calls them. Either way the result is a list of *detections*: a type, a confidence, a severity and an optional bounding box in image fractions.
2. The detection viewer draws those boxes over the image and charts severities and confidences.
3. The estimation dialog turns material detections (plywood, shingles, gravel, …) into material quantities.

This project models that path and proves what each step promises:

| Module (file) | What it models |
|---|---|
| `Js` (js.dfy) | The small part of JavaScript the code relies on: strings as UTF-16 code units, ASCII `toLowerCase`, `includes`, `Math.round`, truthiness, `||` and `??` chains, `for…of` over a string, and the dynamic values a decoded JSON answer holds. |
| `Store` (store.dfy) | The `Detection` record and the four severity levels. |
| `Materials` (materials.dfy) | The material table and its two unit conversions. |
| `EstimationDialog` (estimation.dfy) | The material filter and the estimate loop. |
| `AnalyzeRoute` (analyze.dfy) | `hashSeed`, `rand` (one xorshift32 round on `bv32`) and the `makeDetections` keyword classifier. |
| `InferenceCommon` (inference_common.dfy) | What the provider adapters share: `sev`, `normalizeBox`, the label and confidence fallbacks, iterating items, and the item-to-detection loop. |
| `Dinox`, `GroundingDino`, `Custom`, `Rekognition` | One module per provider adapter. |
| `DetectionViewer` (detection_viewer.dfy) | The severity data, the confidence data and the letterboxed box placement. |

Modelling conventions:

- JavaScript numbers are `real`. `Math.round(x)` is `floor(x + 0.5)`.
- Strings are sequences of UTF-16 code units, so `charCodeAt` is simply indexing.
- Everything outside the model is a parameter:
  - Environment variables are `Option<JsString>`; a missing or empty value is falsy.
  - HTTP answers are `Response(ok, body)` values. DINO-X's status answers are a function `poll(k)` of the attempt number.
  - Random ids are functions `nat -> JsString` of the push index: `randomUUID()` in the analyze route, `Math.random().toString(36).slice(2)` in the adapters.
- A thrown exception is an `Err(Failure)` result.

Behaviour worth knowing:

- `sev` is written out identically in lib/inference/dinox.ts:3-7, lib/inference/groundingdino.ts:3-7 and lib/inference/custom.ts:3-7. `severityFromConfidence` in lib/inference/awsRekognition.ts:4-8 is the same function. All four are `InferenceCommon.Sev`.
- Likewise, the two identical copies of `normalizeBox` (dinox.ts:9-24, groundingdino.ts:9-24) are `InferenceCommon.NormalizeBox`.
- Provider output is not filtered. No file of the core performs IoU matching, non-maximum suppression or a minimum-confidence cut: the DINO-X, GroundingDINO and custom adapters map every item they receive to exactly one detection (`InferenceCommon.ItemDetections`), and Rekognition yields max(1, number of `Instances`) detections per label (`Rekognition.Expansion`, `Rekognition.AtLeastOnePerLabel`). The one confidence floor is the `MinConfidence: 70` passed to Rekognition (lib/inference/awsRekognition.ts:29), which the service applies.
- `rand` (app/api/analyze/route.ts:13-19) divides a 32-bit value by `0xffffffff`, so its range is the closed interval [0, 1], not the half-open [0, 1) of `Math.random`. The value 1 is reached exactly for the state `0xffffffff` (`AnalyzeRoute.Fraction`).
- `rand` is 0 exactly when a nonzero seed has zero low 32 bits (`AnalyzeRoute.RandZero`). The index `seed + k` reaches 2^32 when `hashSeed` returns 2^32 − k.
- `normalizeBox` converts pixel boxes only for arrays that carry image-size properties. An array decoded from JSON has none, so such a box is always dropped (`InferenceCommon.DecodedArrayBoxDropped`).
- GroundingDINO and the custom endpoint iterate a string body by code point, yielding one "Unknown" detection per code point (`GroundingDino.StringBodyUnknowns`). A plain object body makes them throw (`GroundingDino.ObjectBodyThrows`).

## Model

| member | source | states |
|---|---|---|
| Js.Lower | components/estimation-dialog.tsx:34 | `Lower` keeps the length, lower-cases each ASCII capital letter and leaves every other code unit unchanged. |
| Js.Round | components/estimation-dialog.tsx:49 | `Math.round(x)` is the integer r with r ≤ x + 0.5 < r + 1. |
| Js.FirstTruthy | lib/inference/dinox.ts:70 | An `a \|\| b \|\| … \|\| last` chain gives its first truthy member, and `last` when every member is falsy. |
| Js.Coalesce | lib/inference/custom.ts:33 | An `a ?? b ?? last` chain gives its first member that is neither null nor undefined, and `last` when all are. |
| Js.CodePoints | lib/inference/groundingdino.ts:39 | `for…of` over a string visits pieces that join back into the string. A high surrogate followed by a low one is a single two-unit piece; every other code unit, a lone surrogate included, is a piece of its own. |
| Js.Prop | lib/inference/dinox.ts:66 | `v?.key` reads an object field or an array's named property, and is `undefined` otherwise. |
| Js.Contains | components/estimation-dialog.tsx:35 | `s.includes(k)`: `k` occurs in `s` as a contiguous run of code units starting at some index. |
| Materials.Lookup | lib/materials.ts:1-8 | The table has an entry exactly for Plywood, OSB, Shingle Bundle, Roofing felt, Gravel and Mulch. |
| Materials.KeyLengths | lib/materials.ts:1-8 | The six keys have six different lengths, so they are distinct. |
| Materials.SheetEntries | lib/materials.ts:2-3 | Plywood and OSB are 4 ft × 8 ft sheets with `area_ft2 = 32 = width × height`. |
| Materials.CoverageEntries | lib/materials.ts:4-5 | A shingle bundle covers 33.3 ft² and a roll of felt covers 200 ft². |
| Materials.CoverageOf | components/estimation-dialog.tsx:52 | `m?.coverage_ft2` exists exactly for coverage entries. |
| Materials.SheetAreaOf | components/estimation-dialog.tsx:56 | `m?.area_ft2` exists exactly for sheet entries. |
| Materials.AreaFromBoxFraction | lib/materials.ts:10-12 | The area is 0 when the box's width or height is 0, and ≥ 0 when all four factors are ≥ 0. |
| Materials.AreaIgnoresPosition | lib/materials.ts:10-12 | Boxes with the same width and height have the same area, wherever they sit. |
| Materials.CubicYardsFromAreaAndDepth | lib/materials.ts:14-18 | yards × 324 = area × depth. Zero area or zero depth gives 0. Non-negative inputs give a non-negative result. |
| Materials.CubicYardsLinear | lib/materials.ts:14-18 | The volume is additive and homogeneous in both the area and the depth. |
| EstimationDialog.MaterialDetections | components/estimation-dialog.tsx:32-37 | A detection is kept iff its lower-cased type contains one of the nine material words. No detection is added. |
| EstimationDialog.MaterialDetectionsAppend | components/estimation-dialog.tsx:32-37 | The filter distributes over concatenation, so it keeps the detections' order. |
| EstimationDialog.ImageHeightFt | components/estimation-dialog.tsx:41-42 | height × 16 = width × 9. |
| EstimationDialog.MaterialFor | components/estimation-dialog.tsx:45 | `m` is the entry stored under the exact type name, else the Plywood entry. |
| EstimationDialog.CountFor | components/estimation-dialog.tsx:50-61 | `max(1, round(area / c))` is a whole number ≥ 1, even for a zero-area box. |
| EstimationDialog.EstimateFor | components/estimation-dialog.tsx:43-63 | An estimate exists iff the detection has a box and its type matches one keyword group. The estimate copies the id and confidence. |
| EstimationDialog.EstimatesOf | components/estimation-dialog.tsx:39-65 | There are never more estimates than detections. Each estimate comes from one of the detections. |
| EstimationDialog.EstimatesOfSnoc | components/estimation-dialog.tsx:39-65 | One more detection appends its own estimate, if it yields one, after the earlier estimates. |
| EstimationDialog.ComputeEstimates | components/estimation-dialog.tsx:39-65 | The push loop produces exactly `EstimatesOf` of its input. |
| EstimationDialog.EstimatesOfAppend | components/estimation-dialog.tsx:43-63 | Estimates of a concatenation are the concatenated estimates, so they follow the detections' order. |
| EstimationDialog.EstimateImpliesMaterial | components/estimation-dialog.tsx:32-61 | Every detection yielding an estimate passes the material filter. |
| EstimationDialog.FilterKeepsEstimates | components/estimation-dialog.tsx:32-65 | Running the loop over the filtered list gives the same estimates as running it over all detections. |
| EstimationDialog.DialogCounts | components/estimation-dialog.tsx:32-65 | #estimates ≤ #material detections ≤ #detections. |
| EstimationDialog.LooseEstimate | components/estimation-dialog.tsx:46-49 | Gravel and mulch give `round(area × depth / 324 × 100) / 100` cubic yards, "box-area-depth", under the raw type name. |
| EstimationDialog.RoofingFeltIsNoShingle | components/estimation-dialog.tsx:50-53 | "Roofing felt" never reaches the shingle branch, so that branch's coverage is always 33.3. |
| EstimationDialog.ShingleBundleIsShingle | components/estimation-dialog.tsx:50-61 | "Shingle Bundle" is taken by the shingle branch, so the felt branch's coverage is always 200. |
| EstimationDialog.BundleEstimate | components/estimation-dialog.tsx:50-53 | Shingle and bundle types give `max(1, round(area / 33.3))` bundles of "Shingle Bundle". |
| EstimationDialog.SheetEstimate | components/estimation-dialog.tsx:54-57 | Plywood and OSB types give `max(1, round(area / 32))` sheets. The material is "OSB" iff the raw type contains upper-case "OSB". |
| EstimationDialog.FeltEstimate | components/estimation-dialog.tsx:58-61 | Felt types give `max(1, round(area / 200))` rolls of "Roofing felt". |
| EstimationDialog.GravelAtDefaults | components/estimation-dialog.tsx:28-49 | At scale 20 ft and depth 3 in, a 0.5 × 0.5 gravel box covers 56.25 ft² and needs 0.52 cubic yards. |
| AnalyzeRoute.HashOf | app/api/analyze/route.ts:7-11 | The hash is < 2^32, and the empty string hashes to 0. |
| AnalyzeRoute.PolyAppend | app/api/analyze/route.ts:9 | Appending a code unit multiplies the polynomial by 31 and adds the unit. |
| AnalyzeRoute.HashIsPolynomial | app/api/analyze/route.ts:7-11 | `hashSeed(s)` = Σ s[i]·31^(n−1−i) mod 2^32. |
| AnalyzeRoute.HashSeed | app/api/analyze/route.ts:7-11 | The loop computes `HashOf(s)`, which is the polynomial hash mod 2^32. |
| AnalyzeRoute.XorShiftZero | app/api/analyze/route.ts:15-17 | The xorshift round maps zero, and only zero, to zero. |
| AnalyzeRoute.XorShift32 | app/api/analyze/route.ts:15-17 | One xorshift32 round, shifting 13 left, 17 right (logical, `>>>`) and 5 left on the 32-bit pattern; XorShiftZero proves it fixes only 0. |
| AnalyzeRoute.StartState | app/api/analyze/route.ts:14 | Seed 0 starts from 123456789. Any other seed starts from its low 32 bits, which are 0 iff the seed is a multiple of 2^32. |
| AnalyzeRoute.Fraction | app/api/analyze/route.ts:18 | `(x >>> 0) / 0xffffffff` lies in [0, 1]. It is 0 iff x = 0, and 1 iff x = 0xffffffff. |
| AnalyzeRoute.RandValue | app/api/analyze/route.ts:13-19 | `rand(seed)` lies in [0, 1]. |
| AnalyzeRoute.RandZero | app/api/analyze/route.ts:13-19 | `rand(seed)` = 0 iff the seed is nonzero with zero low 32 bits. |
| AnalyzeRoute.XorShiftInPlace | app/api/analyze/route.ts:15-17 | The three `^=` steps compute the xorshift round and keep a nonzero state nonzero. |
| AnalyzeRoute.Rand | app/api/analyze/route.ts:13-19 | The method computes `RandValue(seed)`, a value in [0, 1]. |
| AnalyzeRoute.PushRoof | app/api/analyze/route.ts:27-29 | The three roof pushes produce exactly the roof findings. |
| AnalyzeRoute.PushCrack | app/api/analyze/route.ts:32-33 | The two foundation pushes produce exactly the foundation findings. |
| AnalyzeRoute.MakeDetections | app/api/analyze/route.ts:21-43 | The method returns exactly `Fallback(title, imagePath, seedBase, uuid)`. |
| AnalyzeRoute.Fallback | app/api/analyze/route.ts:21-43 | The risk is high iff "roof" occurs in the lower-cased "title path". It is critical iff "roof" is absent and "foundation" or "crack" occurs, and medium iff only "water" of the keywords occurs. |
| AnalyzeRoute.RoofBranch | app/api/analyze/route.ts:26-30 | If "roof" occurs, whatever else occurs: Hail Impact (high), Missing Shingles (medium), Flashing Issues (medium) with confidences in [0.85, 0.95], [0.8, 0.95], [0.7, 0.9]; risk high. |
| AnalyzeRoute.CrackBranch | app/api/analyze/route.ts:31-34 | Without "roof", "foundation" or "crack" gives Structural Crack (critical, [0.9, 0.98]) and Efflorescence (medium, [0.8, 0.9]); risk critical. |
| AnalyzeRoute.WaterBranch | app/api/analyze/route.ts:35-37 | Next, "water" gives one Water Staining (medium, [0.82, 0.94]); risk medium. |
| AnalyzeRoute.DefaultBranch | app/api/analyze/route.ts:38-41 | With no keyword: one Anomaly (low, [0.6, 0.8]); risk low. |
| AnalyzeRoute.FindingsConfidences | app/api/analyze/route.ts:27-39 | The k-th finding of each branch has confidence base + rand(seed + k) · span, with that position's base and span (roof 0.85/0.1, 0.8/0.15, 0.7/0.2; crack 0.9/0.08, 0.8/0.1; water 0.82/0.12; default 0.6/0.2). |
| AnalyzeRoute.FindingsWellFormed | app/api/analyze/route.ts:25-42 | Each of the four fixed detection lists has 1 to 3 entries, confidences in [0.6, 0.98], no box, and the k-th UUID on the k-th entry. |
| AnalyzeRoute.FallbackInvariants | app/api/analyze/route.ts:21-43 | There are 1 to 3 detections. Every confidence lies in [0.6, 0.98], no detection has a box, and the k-th carries the k-th UUID. |
| AnalyzeRoute.FallbackDeterministic | app/api/analyze/route.ts:21-43 | The same title, path and seed text give the same risk, count and detections, apart from the random ids. |
| AnalyzeRoute.RoofScenario | app/api/analyze/route.ts:23-30 | Title "Roof Damage A" at "/uploads/x.jpg" gives the three roof detections and risk high. |
| InferenceCommon.Sev | lib/inference/dinox.ts:3-7 | ≥ 0.9 gives high, [0.8, 0.9) medium, and below that low. It never gives critical. |
| InferenceCommon.SevMonotone | lib/inference/awsRekognition.ts:4-8 | A higher confidence never gives a lower severity. |
| InferenceCommon.NormalizeBox | lib/inference/dinox.ts:9-24 | A falsy input gives no box. Four numeric left/top/width/height are passed through unchanged. Otherwise there is a box iff the input is a 4-number array with positive numeric image width and height. |
| InferenceCommon.MetaWidth | lib/inference/dinox.ts:17 | `w = (meta.imageWidth \|\| meta.imgW \|\| meta.w) \|\| undefined`: the first truthy of the three properties, in that order, else undefined. |
| InferenceCommon.MetaHeight | lib/inference/dinox.ts:18 | `h = (meta.imageHeight \|\| meta.imgH \|\| meta.h) \|\| undefined`: the first truthy of the three properties, in that order, else undefined. |
| InferenceCommon.PixelBoxRoundTrip | lib/inference/groundingdino.ts:14-21 | For a converted pixel box, left·w = x1, (left+width)·w = x2, top·h = y1 and (top+height)·h = y2. |
| InferenceCommon.DecodedArrayBoxDropped | lib/inference/dinox.ts:14-23 | An array without named properties, as JSON decoding produces, never yields a box. |
| InferenceCommon.LabelOf | lib/inference/dinox.ts:70 | The label is the first truthy of the given keys if it is a string, an error if it is not, and "Unknown" when all keys are falsy. |
| InferenceCommon.FirstTruthyFirst | lib/inference/dinox.ts:70 | An `\|\|` chain returns its earliest truthy member. |
| InferenceCommon.ConfidenceOf | lib/inference/dinox.ts:71 | The confidence is `confidence` if it is a number, else `score` if that is a number, else 0. |
| InferenceCommon.RawBox | lib/inference/dinox.ts:72 | The raw box is `box` if truthy, else `bbox` if truthy, else `boundingBox`. |
| InferenceCommon.Iterate | lib/inference/groundingdino.ts:39 | `for…of` over an array visits its elements. Over a string it visits exactly the string's code points, each as a string value. Anything else throws a TypeError. |
| InferenceCommon.DetectionsOrSelf | lib/inference/groundingdino.ts:37 | The items are `data.detections` if that is an array, else `data` itself. Null or undefined data throws. |
| InferenceCommon.DashJoin | lib/inference/dinox.ts:74 | `${label}-${suffix}` starts with the label followed by "-". |
| InferenceCommon.DinoDetection | lib/inference/dinox.ts:69-82 | Type and description are the label, the id is label-suffix, the severity is `sev(conf)`, "Detected region", and the box is `normalizeBox(box \|\| bbox \|\| boundingBox)`. A null item throws. |
| InferenceCommon.ItemDetections | lib/inference/groundingdino.ts:38-53 | It succeeds iff every item converts, and then yields exactly one detection per item, in order. |
| InferenceCommon.FirstFailureReported | lib/inference/dinox.ts:69-82 | A failed run reports the error of the first failing item. |
| InferenceCommon.MapItems | lib/inference/dinox.ts:68-83 | The push loop computes `ItemDetections`. |
| InferenceCommon.NoRecoveryAfterFailure | lib/inference/custom.ts:22-35 | Once an item throws, later items change nothing. |
| Dinox.WaitForResult | lib/inference/dinox.ts:41-55 | The method makes 1 to 60 requests and fails at once on a non-2xx answer. It returns the first answer whose status is present and not waiting/running; after 60 unfinished answers it times out. |
| Dinox.Finished | lib/inference/dinox.ts:49-50 | A status answer is final iff `data.status` is truthy and neither "waiting" nor "running". |
| Dinox.PollFrom | lib/inference/dinox.ts:44-54 | Polling from attempt k either returns a finished body that some 2xx answer at attempt k..59 carried, or fails with the status-polling error or the time-out, and nothing else. |
| Dinox.PollSkipsUnfinished | lib/inference/dinox.ts:44-53 | Unfinished 2xx answers, including ones with no status, only move polling on. |
| Dinox.PollTimeoutIff | lib/inference/dinox.ts:41-55 | Polling times out iff all 60 answers are 2xx and unfinished. |
| Dinox.PollReadsSixty | lib/inference/dinox.ts:45 | Only the first 60 answers can affect the outcome. |
| Dinox.ResultOf | lib/inference/dinox.ts:66 | The result is `data.result` if truthy, else `data` if truthy, else the whole answer. |
| Dinox.ItemsOf | lib/inference/dinox.ts:67 | The items are `result.detections` if it is an array, else `result` if it is an array, else none. |
| Dinox.NestedResultItems | lib/inference/dinox.ts:66-67 | `{data: {result: {detections: xs}}}` yields exactly `xs`. |
| Dinox.ScalarResultNoItems | lib/inference/dinox.ts:67 | A result that is neither array nor object gives no items rather than an error. |
| Dinox.DinoxOutcome | lib/inference/dinox.ts:57-83 | The checks run in source order. A missing token gives "Missing DINOX_TOKEN". A non-2xx creation answer gives "DINOX task creation failed". A falsy `data.task_uuid` gives "Missing task_uuid". A polling failure or time-out is passed through. Otherwise the result is the mapped items of the finished answer. |
| Dinox.AnalyzeWithDinox | lib/inference/dinox.ts:57-84 | The method computes `DinoxOutcome`. |
| GroundingDino.GroundingDinoOutcome | lib/inference/groundingdino.ts:26-53 | A missing URL fails first, then a non-2xx answer. For a 2xx answer, an error from `DetectionsOrSelf(body)` is passed through; otherwise the result is exactly the mapped items. |
| GroundingDino.AnalyzeWithGroundingDino | lib/inference/groundingdino.ts:26-54 | The method computes `GroundingDinoOutcome`. |
| GroundingDino.NullBodyThrows | lib/inference/groundingdino.ts:37 | A `null` body throws a TypeError. |
| GroundingDino.ObjectBodyThrows | lib/inference/groundingdino.ts:37-39 | An object body without a detections array throws, because there is no empty-list fallback. |
| GroundingDino.ArrayBodyItems | lib/inference/groundingdino.ts:37-52 | A bare array body is mapped element by element. |
| GroundingDino.StringItemUnknown | lib/inference/groundingdino.ts:40-42 | A string item becomes an "Unknown" detection with confidence 0, severity low and no box. |
| GroundingDino.StringBodyUnknowns | lib/inference/groundingdino.ts:37-52 | A string body gives one "Unknown" detection per code point. |
| Custom.BoxField | lib/inference/custom.ts:33 | The field is `b.key ?? b.alt ?? 0` and must be a number. |
| Custom.CustomBox | lib/inference/custom.ts:25-33 | A box exists iff the raw box is truthy. Its fields are `left ?? x ?? 0`, `top ?? y ?? 0`, `width ?? w ?? 0` and `height ?? h ?? 0`, unconverted. |
| Custom.CustomDetection | lib/inference/custom.ts:22-34 | The label comes from label/class/type, the confidence from confidence/score/0, and the severity is `sev(conf)`. "Detected region", with the defaulted box. |
| Custom.CustomOutcome | lib/inference/custom.ts:9-36 | A missing URL fails first, then a non-2xx answer. For a 2xx answer, an error from `DetectionsOrSelf(body)` is passed through; otherwise the result is exactly the items mapped with the custom conversion. |
| Custom.AnalyzeWithCustom | lib/inference/custom.ts:9-37 | The method computes `CustomOutcome`. |
| Custom.TextIsNotALabel | lib/inference/custom.ts:23 | A `text` field alone gives an "Unknown" detection. |
| Custom.PixelFieldsPassThrough | lib/inference/custom.ts:33 | `{x, y, w, h}` is copied into the box without any conversion. |
| Rekognition.MapLabelToType | lib/inference/awsRekognition.ts:10-20 | The groups are tried in order. crack gives Structural Crack; then roof Roof Surface; then shingle Shingle; then water, leak or stain Water Staining; then chimney Flashing Area; then plywood Plywood; then gravel or mulch Loose Material. A name with no keyword is kept unchanged. Each group applies only when no earlier group matches. |
| Rekognition.RoofCrackIsStructural | lib/inference/awsRekognition.ts:12-13 | "Roof Crack" maps to Structural Crack. |
| Rekognition.UpperCaseWaterLeak | lib/inference/awsRekognition.ts:11-15 | Matching ignores case: "WATER LEAK" maps to Water Staining. |
| Rekognition.NameOf | lib/inference/awsRekognition.ts:34 | The name mapped is never empty. It is the label's Name when that is present and non-empty, and "Unknown" otherwise. |
| Rekognition.NameText | lib/inference/awsRekognition.ts:41 | `${label.Name}` in the id: the name as given, or "undefined" when it is missing. |
| Rekognition.ConfidenceOfLabel | lib/inference/awsRekognition.ts:35 | The confidence is Confidence/100, or 0 when missing. |
| Rekognition.InstanceBox | lib/inference/awsRekognition.ts:39-49 | A box exists iff the instance has a BoundingBox. Missing Left/Top/Width/Height read as 0. |
| Rekognition.InstanceRun | lib/inference/awsRekognition.ts:38-51 | There is one detection per instance, in order, with consecutive id suffixes. |
| Rekognition.Slots | lib/inference/awsRekognition.ts:37-61 | A label contributes max(1, #instances) detections. |
| Rekognition.LabelDetections | lib/inference/awsRekognition.ts:34-61 | Each detection has the mapped type as type and description, and the label's confidence and severity. A label without instances gives one "Scene" detection. |
| Rekognition.Expansion | lib/inference/awsRekognition.ts:32-63 | The total is Σ max(1, #instances). |
| Rekognition.PushInstances | lib/inference/awsRekognition.ts:38-51 | The inner loop appends exactly `InstanceRun`. |
| Rekognition.ExpandLabels | lib/inference/awsRekognition.ts:32-63 | The nested loop computes `Expansion(Labels \|\| [])`. |
| Rekognition.AtLeastOnePerLabel | lib/inference/awsRekognition.ts:37-61 | There are at least as many detections as labels. |
| Rekognition.SceneHasNoBox | lib/inference/awsRekognition.ts:44-59 | Every location is "Detected region" or "Scene", and scene detections have no box. |
| Rekognition.RekognitionOutcome | lib/inference/awsRekognition.ts:22-63 | It fails with "Missing AWS credentials" iff the region, key id or secret is missing or empty. A rejected `client.send` passes its error through. Otherwise the result is exactly `Expansion(Labels \|\| [])`: Σ max(1, #instances) ≥ #labels detections. |
| Rekognition.AnalyzeWithRekognition | lib/inference/awsRekognition.ts:22-64 | The method computes `RekognitionOutcome`. |
| DetectionViewer.CountOf | components/detection-viewer.tsx:42-45 | A bucket count never exceeds the number of detections. |
| DetectionViewer.SeverityData | components/detection-viewer.tsx:41-46 | The chart has at most four slices, each with a value between 1 and the number of detections. |
| DetectionViewer.Positive | components/detection-viewer.tsx:46 | The filter keeps exactly the entries with value > 0, and never more entries than it was given. |
| DetectionViewer.BucketsPartition | components/detection-viewer.tsx:41-46 | The four bucket counts add up to the number of detections. |
| DetectionViewer.PositiveKeepsTotal | components/detection-viewer.tsx:46 | Dropping empty slices keeps the total. |
| DetectionViewer.PositiveAppend | components/detection-viewer.tsx:46 | The filter distributes over concatenation, so the kept entries stay in their original order. |
| DetectionViewer.PositiveSingle | components/detection-viewer.tsx:46 | A single entry is kept iff its value is positive. |
| DetectionViewer.SeverityDataTotal | components/detection-viewer.tsx:41-46 | The chart's values sum to the number of detections. |
| DetectionViewer.SeverityDataSlices | components/detection-viewer.tsx:41-46 | A severity has a slice iff its count is > 0, and every slice is non-empty. |
| DetectionViewer.SeverityDataOrder | components/detection-viewer.tsx:41-46 | For every pattern of empty buckets, the chart is the slices of the severities that occur, in the order Critical, High, Medium, Low. |
| DetectionViewer.SeverityDataAllFour | components/detection-viewer.tsx:41-46 | With all four buckets filled, the chart is exactly the Critical, High, Medium and Low entries. |
| DetectionViewer.Prefix10 | components/detection-viewer.tsx:49 | `substring(0, 10)` is a prefix of at most 10 units, and the whole string when it is shorter. |
| DetectionViewer.ConfidenceData | components/detection-viewer.tsx:48-51 | There is one entry per detection. |
| DetectionViewer.ConfidenceBars | components/detection-viewer.tsx:48-51 | Each bar is named by the first min(10, n) units of the type and shows round(conf × 100), which is in [0, 100] for conf in [0, 1]. |
| DetectionViewer.BoxStyle | components/detection-viewer.tsx:71-90 | A box is placed iff the detection has one and all four sizes are nonzero. Its size is scaled by the displayed image size. |
| DetectionViewer.Scale | components/detection-viewer.tsx:80 | `Math.min` of the two ratios contW/natW and contH/natH (its facts are in ScaleIsSmallerRatio). |
| DetectionViewer.ScaleIsSmallerRatio | components/detection-viewer.tsx:80 | The scale is at most each ratio, contW/natW and contH/natH, and equals one of them. |
| DetectionViewer.DispW | components/detection-viewer.tsx:81 | The displayed width, natW × scale; FitsInside proves it is at most contW. |
| DetectionViewer.DispH | components/detection-viewer.tsx:82 | The displayed height, natH × scale; FitsInside proves it is at most contH. |
| DetectionViewer.OffsetX | components/detection-viewer.tsx:83 | The left margin; Centred proves it is ≥ 0 and equal on both sides. |
| DetectionViewer.OffsetY | components/detection-viewer.tsx:84 | The top margin; Centred proves it is ≥ 0 and equal on both sides. |
| DetectionViewer.FitsInside | components/detection-viewer.tsx:80-82 | dispW ≤ contW and dispH ≤ contH, with equality on at least one side. |
| DetectionViewer.AspectPreserved | components/detection-viewer.tsx:80-82 | dispW · natH = dispH · natW. |
| DetectionViewer.Centred | components/detection-viewer.tsx:83-84 | 2·offsetX + dispW = contW, 2·offsetY + dispH = contH, and both offsets are ≥ 0. |
| DetectionViewer.Margins | components/detection-viewer.tsx:81-84 | The displayed width and height are positive, and each margin is ≥ 0 with 2·margin + displayed size = container size. |
| DetectionViewer.BoxStaysInside | components/detection-viewer.tsx:85-89 | A box with fractions in [0, 1] is drawn inside the displayed image, hence inside the container. |

## Left out

- I/O is not modelled; each of these becomes an input:
  - HTTP requests, JSON decoding, environment variables, `bytes.toString('base64')` and the request payloads (prompts, `MinConfidence: 70`);
  - the AWS SDK call, whose answer or rejection is an input;
  - DINO-X's one-second sleep between polls.
- A `res.json()` that itself throws is not modelled.
- The request URLs are not modelled: DINO-X's default base URL and `apiPath` only build a URL.
- `createTask` is modelled only by the checks on its answer (2xx, truthy `data.task_uuid`).
- The analyze route's POST handler and the report store are not part of this model: reading photos, writing the report, and dates.
- Randomness (`randomUUID`, `Math.random`) is replaced by id-suffix functions passed in.
- `boxStyle`'s random placeholder for a detection without a box is not modelled: `DetectionViewer.BoxStyle` returns `None` there.
- JavaScript numbers are real numbers: floating-point rounding is not modelled, nor NaN or infinities, which JSON cannot carry.
  - For example, `area / 33.3`, or `Math.round` of a value exactly at a half, may differ from the binary result.
  - The rounding-to-two-decimals of cubic yards is exact in the model.
- `Js.Lower` lower-cases ASCII letters only. JavaScript's `toLowerCase` also folds non-ASCII letters. Some of them change length (U+0130 becomes two code units), and some fold into an ASCII letter (U+212A, the Kelvin sign, becomes `k`, so "CRAC\u212A" matches "crack" in the source but not in the model).
- InferenceCommon.NormalizeBox: a 4-element array whose first element is a number but a later one is not yields no box here. In the source it yields a box of NaN or coerced values.
- InferenceCommon.LabelOf: a truthy label that is not a string is reported as `Unrepresentable` rather than stored, because the `type` field of a modelled Detection is a string.
- Custom.BoxField: a box field that is present but not a number is reported as `Unrepresentable` rather than stored.
- Object properties inherited from prototypes (such as `constructor`) are not modelled: a missing property reads as `undefined`.
- The recharts rendering, CSS strings and React state of the viewer and dialog are not modelled. Neither are the dialog's save action and its form inputs: scale and depth are parameters.

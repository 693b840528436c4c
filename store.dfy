/**
 * The records that all components exchange: the `Detection` and `Risk` types of lib/store.ts,
 * with the optional `box` that the components' own `Detection` interfaces add
 * (components/estimation-dialog.tsx, components/detection-viewer.tsx).
 */
module Store {
  import opened Js
  import opened Wrap

  /** `Risk`: the four severity levels, also used as a report's overall risk. */
  datatype Severity = Critical | High | Medium | Low

  /** A bounding box in fractions of the image width and height. */
  datatype Box = Box(left: real, top: real, width: real, height: real)

  /** One finding; `kind` is the source's `type` field, `box` is absent when the provider gave no location. */
  datatype Detection = Detection(
    id: JsString,
    kind: JsString,
    confidence: real,
    location: JsString,
    severity: Severity,
    description: JsString,
    box: Option<Box>)
}

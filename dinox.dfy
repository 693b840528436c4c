/**
 * The DINO-X adapter (lib/inference/dinox.ts): create a task, poll its status until it
 * leaves "waiting"/"running", then map the result's items to detections. The two HTTP
 * endpoints are given as their answers: `created` for the DINO-X task creation request and
 * `poll(k)` for the k-th status request.
 */
module Dinox {
  import opened Js
  import opened Wrap
  import opened Store
  import opened InferenceCommon

  /** The most status requests `waitForResult` makes. */
  const MAX_ATTEMPTS: nat := 60

  const WAITING: JsString := Utf16("waiting")
  const RUNNING: JsString := Utf16("running")

  const MISSING_TOKEN: JsString := Utf16("Missing DINOX_TOKEN")
  const CREATE_FAILED: JsString := Utf16("DINOX task creation failed")
  const MISSING_UUID: JsString := Utf16("Missing task_uuid")
  const POLL_FAILED: JsString := Utf16("DINOX status polling failed")
  const POLL_TIMEOUT: JsString := Utf16("DINOX polling timeout")

  /** `json?.data?.status`. */
  function StatusOf(json: Value): Value {
    Prop(Prop(json, Utf16("data")), Utf16("status"))
  }

  /** The DINO-X task is done: its status is present and is neither "waiting" nor "running". */
  predicate Finished(json: Value) {
    var st := StatusOf(json);
    Truthy(st) && st != Str(WAITING) && st != Str(RUNNING)
  }

  /** The outcome of `waitForResult` once `attempts` requests have come back unfinished. */
  function PollFrom(poll: nat -> Response, attempts: nat): (r: Result<Value, Failure>)
    ensures r.Ok? ==> Finished(r.value) && exists k :: attempts <= k < MAX_ATTEMPTS && poll(k) == Response(true, r.value)
    ensures r.Err? ==> r.error == Thrown(POLL_TIMEOUT) || r.error == Thrown(POLL_FAILED)
    decreases MAX_ATTEMPTS - attempts
  {
    if attempts >= MAX_ATTEMPTS then Err(Thrown(POLL_TIMEOUT))
    else if !poll(attempts).ok then Err(Thrown(POLL_FAILED))
    else if Finished(poll(attempts).body) then Ok(poll(attempts).body)
    else PollFrom(poll, attempts + 1)
  }

  /**
   * `waitForResult`: request the status up to 60 times, failing on the first non-2xx answer and
   * returning the first finished body; `requests` is how many requests were made.
   */
  method WaitForResult(poll: nat -> Response) returns (r: Result<Value, Failure>, requests: nat)
    ensures r == PollFrom(poll, 0)
    ensures 1 <= requests <= MAX_ATTEMPTS
    ensures forall j :: 0 <= j < requests - 1 ==> poll(j).ok && !Finished(poll(j).body)
    ensures r.Ok? ==> poll(requests - 1).ok && Finished(poll(requests - 1).body) && r.value == poll(requests - 1).body
    ensures r == Err(Thrown(POLL_FAILED)) ==> !poll(requests - 1).ok
    ensures r == Err(Thrown(POLL_TIMEOUT)) ==> requests == MAX_ATTEMPTS
  {
    var attempts := 0;
    while attempts < MAX_ATTEMPTS
      invariant 0 <= attempts <= MAX_ATTEMPTS
      invariant forall j :: 0 <= j < attempts ==> poll(j).ok && !Finished(poll(j).body)
      decreases MAX_ATTEMPTS - attempts
    {
      var res := poll(attempts);
      if !res.ok {
        PollSkipsUnfinished(poll, attempts);
        return Err(Thrown(POLL_FAILED)), attempts + 1;
      }
      var status := StatusOf(res.body);
      if Truthy(status) && status != Str(WAITING) && status != Str(RUNNING) {
        PollSkipsUnfinished(poll, attempts);
        return Ok(res.body), attempts + 1;
      }
      attempts := attempts + 1;
    }
    PollSkipsUnfinished(poll, MAX_ATTEMPTS);
    r, requests := Err(Thrown(POLL_TIMEOUT)), MAX_ATTEMPTS;
  }

  /** After `k` unfinished answers the outcome is decided by the remaining ones. */
  lemma {:induction false} PollSkipsUnfinished(poll: nat -> Response, k: nat)
    requires k <= MAX_ATTEMPTS
    requires forall j :: 0 <= j < k ==> poll(j).ok && !Finished(poll(j).body)
    ensures PollFrom(poll, 0) == PollFrom(poll, k)
  {
    if k > 0 {
      PollSkipsUnfinished(poll, k - 1);
    }
  }

  /** Polling times out exactly when all 60 answers are 2xx and unfinished. */
  lemma PollTimeoutIff(poll: nat -> Response)
    ensures PollFrom(poll, 0) == Err(Thrown(POLL_TIMEOUT)) <==>
            forall j :: 0 <= j < MAX_ATTEMPTS ==> poll(j).ok && !Finished(poll(j).body)
  {
    if forall j :: 0 <= j < MAX_ATTEMPTS ==> poll(j).ok && !Finished(poll(j).body) {
      PollSkipsUnfinished(poll, MAX_ATTEMPTS);
    } else {
      var k :| 0 <= k < MAX_ATTEMPTS && !(poll(k).ok && !Finished(poll(k).body)) &&
               forall j :: 0 <= j < k ==> poll(j).ok && !Finished(poll(j).body) by {
        FirstStop(poll, MAX_ATTEMPTS);
      }
      PollSkipsUnfinished(poll, k);
    }
  }

  /** If some answer below `n` stops the polling, there is a first one. */
  lemma {:induction false} FirstStop(poll: nat -> Response, n: nat)
    requires exists k :: 0 <= k < n && !(poll(k).ok && !Finished(poll(k).body))
    ensures exists k :: 0 <= k < n && !(poll(k).ok && !Finished(poll(k).body)) &&
                        forall j :: 0 <= j < k ==> poll(j).ok && !Finished(poll(j).body)
  {
    if forall j :: 0 <= j < n - 1 ==> poll(j).ok && !Finished(poll(j).body) {
      assert !(poll(n - 1).ok && !Finished(poll(n - 1).body));
    } else {
      FirstStop(poll, n - 1);
    }
  }

  /** Only the first 60 answers matter: two servers agreeing on them give the same outcome. */
  lemma {:induction false} PollReadsSixty(p1: nat -> Response, p2: nat -> Response, k: nat)
    requires k <= MAX_ATTEMPTS
    requires forall j :: k <= j < MAX_ATTEMPTS ==> p1(j) == p2(j)
    ensures PollFrom(p1, k) == PollFrom(p2, k)
    decreases MAX_ATTEMPTS - k
  {
    if k < MAX_ATTEMPTS {
      PollReadsSixty(p1, p2, k + 1);
    }
  }

  /** `final?.data?.result || final?.data || final`. */
  function ResultOf(final: Value): (r: Value)
    ensures Truthy(Prop(Prop(final, Utf16("data")), Utf16("result"))) ==> r == Prop(Prop(final, Utf16("data")), Utf16("result"))
    ensures !Truthy(Prop(Prop(final, Utf16("data")), Utf16("result"))) && Truthy(Prop(final, Utf16("data"))) ==> r == Prop(final, Utf16("data"))
    ensures !Truthy(Prop(Prop(final, Utf16("data")), Utf16("result"))) && !Truthy(Prop(final, Utf16("data"))) ==> r == final
  {
    FirstTruthy([Prop(Prop(final, Utf16("data")), Utf16("result")), Prop(final, Utf16("data"))], final)
  }

  /** The items: `result.detections` if it is an array, else `result` if it is one, else none. */
  function ItemsOf(final: Value): (r: seq<Value>)
    ensures Prop(ResultOf(final), Utf16("detections")).Arr? ==> r == Prop(ResultOf(final), Utf16("detections")).elems
    ensures !Prop(ResultOf(final), Utf16("detections")).Arr? && ResultOf(final).Arr? ==> r == ResultOf(final).elems
    ensures !Prop(ResultOf(final), Utf16("detections")).Arr? && !ResultOf(final).Arr? ==> r == []
  {
    var result := ResultOf(final);
    var d := Prop(result, Utf16("detections"));
    if d.Arr? then d.elems else if result.Arr? then result.elems else []
  }

  /** The usual answer shape `{ data: { result: { detections: [...] } } }` yields exactly its detection list. */
  lemma NestedResultItems(items: seq<Value>, rest: map<JsString, Value>)
    ensures var final := Obj(map[Utf16("data") := Obj(map[Utf16("result") := Obj(map[Utf16("detections") := Arr(items, rest)])])]);
      ItemsOf(final) == items
  {
  }

  /** An answer holding neither a detections array nor an array never fails: it gives no items. */
  lemma ScalarResultNoItems(final: Value)
    requires !ResultOf(final).Arr? && !ResultOf(final).Obj?
    ensures ItemsOf(final) == []
  {
  }

  /** `DINOX_TOKEN` is set and not empty. */
  predicate HasToken(token: Option<JsString>) {
    token.Some? && token.value != []
  }

  /** `json?.data?.task_uuid` of the task creation answer. */
  function TaskUuid(created: Response): Value {
    Prop(Prop(created.body, Utf16("data")), Utf16("task_uuid"))
  }

  /**
   * `analyzeWithDinox` from the token check to the returned detections, with `created` the
   * answer to the DINO-X task creation request, `poll` the status answers and `rid(k)` the k-th id suffix.
   */
  function DinoxOutcome(token: Option<JsString>, created: Response, poll: nat -> Response, rid: nat -> JsString): (r: Result<seq<Detection>, Failure>)
    ensures token.None? || token.value == [] ==> r == Err(Thrown(MISSING_TOKEN))
    ensures r.Ok? ==> created.ok && PollFrom(poll, 0).Ok? && ItemDetections(DinoDetection, ItemsOf(PollFrom(poll, 0).value), rid) == r
    ensures HasToken(token) && !created.ok ==> r == Err(Thrown(CREATE_FAILED))
    ensures HasToken(token) && created.ok && !Truthy(TaskUuid(created)) ==> r == Err(Thrown(MISSING_UUID))
    ensures HasToken(token) && created.ok && Truthy(TaskUuid(created)) ==>
      && (PollFrom(poll, 0).Err? ==> r == Err(PollFrom(poll, 0).error))
      && (PollFrom(poll, 0).Ok? ==> r == ItemDetections(DinoDetection, ItemsOf(PollFrom(poll, 0).value), rid))
  {
    if !HasToken(token) then Err(Thrown(MISSING_TOKEN))
    else if !created.ok then Err(Thrown(CREATE_FAILED))
    else if !Truthy(TaskUuid(created)) then Err(Thrown(MISSING_UUID))
    else match PollFrom(poll, 0)
      case Err(e) => Err(e)
      case Ok(final) => ItemDetections(DinoDetection, ItemsOf(final), rid)
  }

  /** `analyzeWithDinox`. */
  method AnalyzeWithDinox(token: Option<JsString>, created: Response, poll: nat -> Response, rid: nat -> JsString)
    returns (r: Result<seq<Detection>, Failure>)
    ensures r == DinoxOutcome(token, created, poll, rid)
  {
    if token.None? || token.value == [] {
      return Err(Thrown(MISSING_TOKEN));
    }
    if !created.ok {
      return Err(Thrown(CREATE_FAILED));
    }
    var uuid := TaskUuid(created);
    if !Truthy(uuid) {
      return Err(Thrown(MISSING_UUID));
    }
    var final, _ := WaitForResult(poll);
    if final.Err? {
      return Err(final.error);
    }
    var items := ItemsOf(final.value);
    r := MapItems(DinoDetection, items, rid);
  }
}

/**
 * The browser-side proxy of `src/frontend/ServerProxy.js`. Each call decides
 * locally whether a request goes out, builds it, and turns what `fetch` settles
 * to into the value the view sees. The network is an input: either a response
 * (any status, with its body text) or a transport failure. No call rejects
 * because of the network; only a malformed text passed to `saveRecent` does.
 */
module ServerProxy {
  import opened Wrappers
  import opened Records
  import opened Http

  /**
   * The `id` argument as a JavaScript value; `NonString` is a value without a
   * `length` (a number, a boolean). A non-string with a `length`, such as an
   * array, has no case: the view passes only `event.target.id`, which is
   * always a string.
   */
  datatype JsId = Undefined | Null | Str(s: string) | NonString

  /** A response body as text: the JSON listing of the store, or any other text (an error page, an empty body). */
  datatype WireText = DocsJson(docs: seq<Doc>) | OtherText(s: string)

  /** What `fetch` settles to. */
  datatype HttpOutcome = Responded(status: int, text: WireText) | TransportError

  /** The value `getAll` and `saveRecent` return: the body text, or the `[]` they start from. */
  datatype ProxyValue = NullValue | BodyText(text: WireText) | EmptyArray

  /** How an async function ends: with a value, or by rejecting. */
  datatype Settled<T> = Resolved(value: T) | Rejected

  /** The local id guard: only a non-empty string other than "undefined" may be sent. */
  predicate IdAccepted(id: JsId)
  {
    id.Str? && id.s != "" && id.s != "undefined"
  }

  /** `id.length`: a TypeError for undefined and null, `undefined` for a value without a length. */
  function LengthOf(id: JsId): Result<Option<nat>, string>
  {
    match id
    case Undefined => Failure("TypeError")
    case Null => Failure("TypeError")
    case Str(s) => Success(Some(|s|))
    case NonString => Success(None)
  }

  function BoolText(b: bool): string
  {
    if b then "true" else "false"
  }

  /** `DELETE /delete?id=<id>`. */
  function DeleteRequest(id: string): Request
  {
    Request(DELETE, "/delete", map["id" := id], None)
  }

  /** `PUT /update` with body `{"id": "<id>", "priority": "<priority>"}` and no query. */
  function UpdateRequest(id: string, priority: bool): Request
  {
    Request(PUT, "/update", map[], Some(map["id" := id, PriorityKey := BoolText(priority)]))
  }

  /** The success rule of delete and update: a response whose status is exactly 200. */
  predicate Succeeded(outcome: HttpOutcome)
  {
    outcome.Responded? && outcome.status == 200
  }

  /** `getAll`: any response's body text (whatever its status), `[]` when the transport fails. */
  method GetAll(outcome: HttpOutcome) returns (recents: ProxyValue, sent: Request)
    ensures sent == Request(GET, "/all", map[], None)
    ensures recents != NullValue
    ensures recents.BodyText? <==> outcome.Responded?
    ensures outcome.Responded? ==> recents.text == outcome.text
    ensures outcome.TransportError? ==> recents == EmptyArray
  {
    recents := EmptyArray;
    sent := Request(GET, "/all", map[], None);
    if outcome.Responded? {
      recents := BodyText(outcome.text);
    }
  }

  /**
   * `saveRecent(t)`: `parsed` is what `JSON.parse(t)` gives (`None` when it
   * throws, which rejects the call before any request). The parsed object is
   * re-serialised as the body of `POST /create`.
   */
  method SaveRecent(parsed: Option<JsonObject>, outcome: HttpOutcome) returns (r: Settled<ProxyValue>, sent: Option<Request>)
    ensures parsed.None? ==> r == Rejected && sent == None
    ensures parsed.Some? ==> sent == Some(Request(POST, "/create", map[], parsed))
    ensures parsed.Some? && outcome.Responded? ==> r == Resolved(BodyText(outcome.text))
    ensures parsed.Some? && outcome.TransportError? ==> r == Resolved(EmptyArray)
  {
    if parsed.None? {
      return Rejected, None;
    }
    var recents := EmptyArray;
    sent := Some(Request(POST, "/create", map[], parsed));
    if outcome.Responded? {
      recents := BodyText(outcome.text);
    }
    r := Resolved(recents);
  }

  /** `deleteRecent(id)`: a request only for an accepted id; true exactly for a 200. */
  method DeleteRecent(id: JsId, outcome: HttpOutcome) returns (success: bool, sent: Option<Request>)
    ensures sent.Some? <==> IdAccepted(id)
    ensures sent.Some? ==> sent.value == DeleteRequest(id.s)
    ensures success <==> sent.Some? && Succeeded(outcome)
  {
    success, sent := false, None;
    var length := LengthOf(id);
    if length.Failure? {
      return;
    }
    if length.value == Some(0) || id == Str("undefined") {
      return;
    }
    if length.value.Some? && length.value.value > 0 {
      sent := Some(DeleteRequest(id.s));
      if outcome.Responded? && outcome.status == 200 {
        success := true;
      }
    }
  }

  /** `updateRecent(id, priority)`: the same guard and success rule; id and priority go in the body. */
  method UpdateRecent(id: JsId, priority: bool, outcome: HttpOutcome) returns (success: bool, sent: Option<Request>)
    ensures sent.Some? <==> IdAccepted(id)
    ensures sent.Some? ==> sent.value == UpdateRequest(id.s, priority)
    ensures sent.Some? ==> sent.value.query == map[] &&
                           sent.value.body == Some(map["id" := id.s, PriorityKey := BoolText(priority)])
    ensures success <==> sent.Some? && Succeeded(outcome)
  {
    success, sent := false, None;
    var length := LengthOf(id);
    if length.Failure? {
      return;
    }
    if length.value == Some(0) || id == Str("undefined") {
      return;
    }
    if length.value.Some? && length.value.value > 0 {
      sent := Some(UpdateRequest(id.s, priority));
      if outcome.Responded? && outcome.status == 200 {
        success := true;
      }
    }
  }
}

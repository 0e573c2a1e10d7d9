/**
 * The HTTP boundary between the browser-side proxy and the Express service:
 * requests as the routes see them (method, path, parsed query, parsed JSON body)
 * and the response object the handlers write to.
 */
module Http {
  import opened Wrappers
  import opened Records
  import opened Store

  datatype Verb = GET | POST | PUT | DELETE | OtherVerb(name: string)

  /**
   * A request: `request.query` as a map and `request.body`, `None` standing for
   * `undefined`. Whether an absent body reaches a handler as `undefined` or as
   * the `{}` some versions of the JSON body parser leave depends on the Express
   * version; the body is an input, so both are covered.
   */
  datatype Request = Request(verb: Verb, path: string, query: map<string, string>, body: Option<JsonObject>)

  /** One piece of a response body. */
  datatype Chunk =
    | Text(s: string)              // `write`/`send` of a string
    | Listing(docs: seq<Doc>)      // `json` of the store's listing
    | Diagnostic(err: StoreError)  // the failure interpolated into an error page
    | IndexDocument                // the UI entry document sent as a file

  /** What a handler has done to its response: status, body pieces, calls that end it. */
  datatype Reply = Reply(status: int, chunks: seq<Chunk>, ends: nat)

  /** The Node/Express response of one request; the status is 200 until a head is written. */
  class Response {
    var status: int
    var chunks: seq<Chunk>
    var ends: nat

    constructor ()
      ensures Pristine()
    {
      status, chunks, ends := 200, [], 0;
    }

    /** Nothing has been written to this response yet. */
    ghost predicate Pristine()
      reads this
    {
      status == 200 && chunks == [] && ends == 0
    }

    function Snapshot(): Reply
      reads this
    {
      Reply(status, chunks, ends)
    }

    /** `writeHead(code, …)` and `status(code)`: only the status changes. */
    method WriteHead(code: int)
      modifies this
      ensures Snapshot() == old(Snapshot()).(status := code)
    {
      status := code;
    }

    /** `write(piece)`: appends to the body. */
    method Write(c: Chunk)
      modifies this
      ensures Snapshot() == old(Snapshot()).(chunks := old(chunks) + [c])
    {
      chunks := chunks + [c];
    }

    /** `end()`. */
    method End()
      modifies this
      ensures Snapshot() == old(Snapshot()).(ends := old(ends) + 1)
    {
      ends := ends + 1;
    }

    /** `send(piece)` and `json(value)`: write the whole body and end the response. */
    method Send(c: Chunk)
      modifies this
      ensures Snapshot() == old(Snapshot()).(chunks := old(chunks) + [c], ends := old(ends) + 1)
    {
      chunks := chunks + [c];
      ends := ends + 1;
    }
  }
}

/**
  The parts of Go's `net/http` that the handlers and the products client
  touch: outbound requests and responses, a transport that answers requests
  (the `Do` seam), and the response writer of an inbound request.
  Byte payloads are carried as strings; nothing here looks inside them.
 */
module NetHttp {
  import opened Wrappers

  datatype Request = Request(verb: string, url: string)

  /** A response body: the bytes `io.ReadAll` delivers, or the error it stops with. */
  datatype Body = Body(data: string, readError: Option<Error>)

  datatype Response = Response(statusCode: int, body: Body)

  /** `io.ReadAll(response.Body)`. */
  function ReadAll(body: Body): Result<string, Error> {
    match body.readError
    case Some(e) => Failure(e)
    case None => Success(body.data)
  }

  /**
    A transport with a `Do` method: `http.Client` or a test double. What the
    network (or the double) answers to each request is `exchange`; `sent`
    records every request handed to `Do`, in order.
   */
  class Client {
    const timeoutSeconds: nat
    const exchange: Request -> Result<Response, Error>
    var sent: seq<Request>

    constructor (timeoutSeconds: nat, exchange: Request -> Result<Response, Error>)
      ensures this.timeoutSeconds == timeoutSeconds && this.exchange == exchange
      ensures sent == []
    {
      this.timeoutSeconds := timeoutSeconds;
      this.exchange := exchange;
      sent := [];
    }

    method Do(request: Request) returns (r: Result<Response, Error>)
      modifies this
      ensures sent == old(sent) + [request]
      ensures r == exchange(request)
    {
      sent := sent + [request];
      r := exchange(request);
    }
  }

  /** One call on a response writer: `WriteHeader(code)` or `Write(data)`. */
  datatype Event = Header(code: int) | Data(bytes: string)

  /**
    The status the client receives after the writer saw `events`: the first
    `WriteHeader` wins and later ones are ignored; a `Write` before any
    `WriteHeader` sends 200; so does a handler that writes nothing.
   */
  function StatusOf(events: seq<Event>): int {
    if events == [] then 200
    else match events[0]
      case Header(code) => code
      case Data(_) => 200
  }

  /** The response body: every `Write` in order, whatever the status. */
  function BodyOf(events: seq<Event>): string {
    if events == [] then ""
    else BodyOf(events[..|events| - 1]) + match events[|events| - 1]
      case Header(_) => ""
      case Data(bytes) => bytes
  }

  /** `http.StatusText` for the two codes the handlers pass to it. */
  function StatusText(code: int): string
    requires code == 400 || code == 500
  {
    if code == 400 then "Bad Request" else "Internal Server Error"
  }

  /** The calls `http.Error(w, http.StatusText(code), code)` makes on the writer. */
  function ErrorReply(code: int): seq<Event>
    requires code == 400 || code == 500
  {
    [Header(code), Data(StatusText(code) + "\n")]
  }

  /** An error reply sends its code, with the status text as the body. */
  lemma ErrorReplyContents(code: int)
    requires code == 400 || code == 500
    ensures StatusOf(ErrorReply(code)) == code
    ensures BodyOf(ErrorReply(code)) == StatusText(code) + "\n"
  {
    var events := ErrorReply(code);
    assert events[..1] == [Header(code)] && [Header(code)][..0] == [];
    assert BodyOf([Header(code)]) == "";
  }

  /**
    The writer of one inbound response. `wroteHeader`, `status` and `body`
    are what `net/http` keeps; `events` logs every call made on it.
   */
  class ResponseWriter {
    var wroteHeader: bool
    var status: int
    var body: string
    var events: seq<Event>

    ghost predicate Valid()
      reads this
    {
      wroteHeader == (events != []) &&
      (wroteHeader ==> status == StatusOf(events)) &&
      body == BodyOf(events)
    }

    constructor ()
      ensures Valid() && events == []
    {
      wroteHeader, status, body, events := false, 0, "", [];
    }

    /** The status the client receives if the handler stops now. */
    function Code(): (c: int)
      reads this
      requires Valid()
      ensures c == StatusOf(events)
    {
      if wroteHeader then status else 200
    }

    method WriteHeader(code: int)
      requires Valid()
      modifies this
      ensures Valid() && events == old(events) + [Header(code)]
    {
      if !wroteHeader {
        wroteHeader, status := true, code;
      }
      events := events + [Header(code)];
      assert events[..|events| - 1] == old(events);
    }

    method Write(data: string)
      requires Valid()
      modifies this
      ensures Valid() && events == old(events) + [Data(data)]
    {
      if !wroteHeader {
        wroteHeader, status := true, 200;
      }
      body := body + data;
      events := events + [Data(data)];
      assert events[..|events| - 1] == old(events);
    }
  }

  /** `http.Error(w, text, code)`: set the status, then write the text and a newline. */
  method HttpError(w: ResponseWriter, text: string, code: int)
    requires w.Valid()
    modifies w
    ensures w.Valid() && w.events == old(w.events) + [Header(code), Data(text + "\n")]
  {
    w.WriteHeader(code);
    w.Write(text + "\n");
  }

  /** Whatever comes after, the first call on a writer fixes the status. */
  lemma {:induction false} StatusKeptByLaterCalls(events: seq<Event>, later: seq<Event>)
    requires events != []
    ensures StatusOf(events + later) == StatusOf(events)
  {
    assert (events + later)[0] == events[0];
  }
}

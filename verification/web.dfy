/**
  The refactored lesson-1 web handler. It checks the `productId` path
  parameter, asks a product client for the product and renders it. Its
  `http.Error` calls are not followed by `return`, so a failed check does not
  stop the handler: the client is still called and rendering still happens.
  The client receives the parameter as it came in, not the parsed number.
 */
module Web {
  import opened Wrappers
  import opened Strconv
  import opened NetHttp
  import opened Products

  /**
    The `ProductClient` interface as a recording double: `answer` is what the
    client returns for an id, `requested` the ids it has been asked for.
   */
  class ProductClient {
    const answer: string -> ProductResult
    var requested: seq<string>

    constructor (answer: string -> ProductResult)
      ensures this.answer == answer && requested == []
    {
      this.answer := answer;
      requested := [];
    }

    method GetProduct(productId: string) returns (r: ProductResult)
      modifies this
      ensures requested == old(requested) + [productId]
      ensures r == answer(productId)
    {
      requested := requested + [productId];
      r := answer(productId);
    }
  }

  /**
    The calls GetProduct makes on the response writer when the parameter is
    `productIdParam`, the client returns `fetched` and rendering does what
    `render` says: one 400 reply for an empty parameter, one for a parameter
    Atoi rejects, one 500 reply for a client error, then the render outcome.
   */
  function Replies(productIdParam: string, fetched: ProductResult, render: Renderer): (events: seq<Event>)
  {
    (if |productIdParam| == 0 then ErrorReply(400) else []) +
    (if Atoi(productIdParam).None? then ErrorReply(400) else []) +
    (if fetched.err.Some? then ErrorReply(500) else []) +
    RenderReplies(render(fetched.product))
  }

  /** What rendering writes: the JSON, or a 500 reply when it fails. */
  function RenderReplies(rendered: Result<string, Error>): seq<Event> {
    match rendered
    case Failure(_) => ErrorReply(500)
    case Success(json) => [Data(json)]
  }

  /** `server`: the handler's dependencies. */
  class Server {
    const productClient: ProductClient

    /** `NewServer`. */
    constructor NewServer(productClient: ProductClient)
      ensures this.productClient == productClient
    {
      this.productClient := productClient;
    }

    /** The `GET /products/{productId}` handler; `productIdParam` is "" when the parameter is absent. */
    method GetProduct(w: ResponseWriter, productIdParam: string, render: Renderer)
      requires w.Valid() && w.events == []
      modifies w, productClient
      ensures w.Valid()
      ensures w.events == Replies(productIdParam, productClient.answer(productIdParam), render)
      ensures productClient.requested == old(productClient.requested) + [productIdParam]
    {
      if |productIdParam| == 0 {
        HttpError(w, StatusText(400), 400);
      }
      ghost var checked := w.events;
      assert checked == (if |productIdParam| == 0 then ErrorReply(400) else []);
      var parsed := Atoi(productIdParam);
      if parsed.None? {
        HttpError(w, StatusText(400), 400);
      }
      ghost var validated := w.events;
      assert validated == checked + (if parsed.None? then ErrorReply(400) else []);
      var product := productClient.GetProduct(productIdParam);
      if product.err.Some? {
        HttpError(w, StatusText(500), 500);
      }
      ghost var fetched := w.events;
      assert fetched == validated + (if product.err.Some? then ErrorReply(500) else []);
      var rendered := render(product.product);
      if rendered.Failure? {
        HttpError(w, StatusText(500), 500);
        assert w.events == fetched + RenderReplies(rendered);
        return;
      }
      w.Write(rendered.value);
      assert w.events == fetched + RenderReplies(rendered);
    }
  }

  /**
    The status the client sees: 400 whenever the parameter fails validation,
    whatever the product client and rendering do; otherwise 500 for a client
    error or a render error, and 200 for a rendered product.
   */
  lemma EffectiveStatus(productIdParam: string, fetched: ProductResult, render: Renderer)
    ensures StatusOf(Replies(productIdParam, fetched, render)) ==
      if Atoi(productIdParam).None? then 400
      else if fetched.err.Some? then 500
      else if render(fetched.product).Failure? then 500
      else 200
  {
  }

  /** An empty parameter is rejected twice: once as empty, once by Atoi. */
  lemma EmptyIdRejectedTwice(fetched: ProductResult, render: Renderer)
    ensures var events := Replies("", fetched, render);
      |events| >= 4 && events[..4] == ErrorReply(400) + ErrorReply(400)
  {
  }

  /** A parameter that Atoi accepts (signs included) draws no 400. */
  lemma AcceptedIdNotRejected(productIdParam: string, fetched: ProductResult, render: Renderer)
    requires Atoi(productIdParam).Some?
    ensures Header(400) !in Replies(productIdParam, fetched, render)
  {
  }

  /** Rendering is attempted on every path, with whatever product the client returned. */
  lemma RenderAlwaysAttempted(productIdParam: string, fetched: ProductResult, render: Renderer)
    ensures var events := Replies(productIdParam, fetched, render);
      match render(fetched.product)
      case Success(json) => events[|events| - 1] == Data(json)
      case Failure(_) => |events| >= 2 && events[|events| - 2..] == ErrorReply(500)
  {
  }

  /** An accepted id, a product and a successful render: the JSON is the only thing written. */
  lemma SuccessWritesOnlyJson(productIdParam: string, fetched: ProductResult, render: Renderer)
    requires Atoi(productIdParam).Some? && fetched.err.None? && render(fetched.product).Success?
    ensures Replies(productIdParam, fetched, render) == [Data(render(fetched.product).value)]
  {
  }

  /** The handler's test cases: a missing id is answered with 400. */
  lemma MissingIdIs400(fetched: ProductResult, render: Renderer)
    ensures StatusOf(Replies("", fetched, render)) == 400
  {
    EffectiveStatus("", fetched, render);
  }

  /** The handler's test cases: "foobar" is answered with 400. */
  lemma NonNumericIdIs400(fetched: ProductResult, render: Renderer)
    ensures StatusOf(Replies("foobar", fetched, render)) == 400
  {
    assert !IsDigit("foobar"[0]);
    EffectiveStatus("foobar", fetched, render);
  }

  /** The handler's test cases: "2" with a failing product client is answered with 500. */
  lemma ClientErrorIs500(failing: ProductResult, render: Renderer)
    requires failing.err.Some?
    ensures StatusOf(Replies("2", failing, render)) == 500
  {
    AtoiAcceptsSign("2");
    EffectiveStatus("2", failing, render);
  }

  /** Signed ids pass validation: "-5" parses to -5 and "+7" to 7. */
  lemma SignedIdsParse()
    ensures Atoi("-5") == Some(-5) && Atoi("+7") == Some(7)
  {
    AtoiAcceptsSign("5");
    AtoiAcceptsSign("7");
  }
}

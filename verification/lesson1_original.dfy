/**
  The lesson-1 handler before refactoring: one inline function that builds
  the upstream request, sends it with a new five-second client, checks the
  status, reads and decodes the body and renders the product. Every failure
  answers 500 and stops the handler; there is no check of the id.
 */
module Lesson1Original {
  import opened Wrappers
  import opened NetHttp
  import opened Products
  import opened Strconv
  import Web

  /** The endpoint the inline handler formats the id into. */
  const OriginalEndpoint: string := "https://dummyjson.com/products/"

  /**
    The calls the inline handler makes on the response writer for the path
    parameter `productID`: a single 500 reply at the first failing step, or
    whatever rendering the decoded product writes.
   */
  function OriginalReplies(productID: string, std: Stdlib, network: Request -> Result<Response, Error>, render: Renderer): seq<Event>
  {
    var url := OriginalEndpoint + productID;
    match std.urlError(url)
    case Some(_) => ErrorReply(500)
    case None =>
      match network(Request("GET", url))
      case Failure(_) => ErrorReply(500)
      case Success(response) =>
        if response.statusCode >= 400 then ErrorReply(500)
        else
          match ReadAll(response.body)
          case Failure(_) => ErrorReply(500)
          case Success(bytes) =>
            match std.unmarshal(bytes)
            case Failure(_) => ErrorReply(500)
            case Success(product) => Web.RenderReplies(render(Some(product)))
  }

  /**
    The inline `GET /products/{productID}` handler. `httpClient` is the
    client the handler creates for itself: none when the URL does not parse,
    otherwise a new five-second client that was asked to send the one GET.
   */
  method HandleGetProduct(w: ResponseWriter, productID: string, std: Stdlib,
                          network: Request -> Result<Response, Error>, render: Renderer)
    returns (ghost httpClient: Client?)
    requires w.Valid() && w.events == []
    modifies w
    ensures w.Valid() && w.events == OriginalReplies(productID, std, network, render)
    ensures httpClient == null <==> std.urlError(ProductUrl(productID)).Some?
    ensures httpClient != null ==>
      fresh(httpClient) && httpClient.timeoutSeconds == 5 && httpClient.exchange == network &&
      httpClient.sent == Outbound(productID, std)
  {
    var url := OriginalEndpoint + productID;
    var requestError := std.urlError(url);
    if requestError.Some? {
      HttpError(w, StatusText(500), 500);
      return null;
    }
    var client := new Client(5, network);
    var response := client.Do(Request("GET", url));
    httpClient := client;
    if response.Failure? {
      HttpError(w, StatusText(500), 500);
      return;
    }
    var statusCode := response.value.statusCode;
    if statusCode >= 400 {
      HttpError(w, StatusText(500), 500);
      return;
    }
    var bodyAsBytes := ReadAll(response.value.body);
    if bodyAsBytes.Failure? {
      HttpError(w, StatusText(500), 500);
      return;
    }
    var product := std.unmarshal(bodyAsBytes.value);
    if product.Failure? {
      HttpError(w, StatusText(500), 500);
      return;
    }
    var rendered := render(Some(product.value));
    if rendered.Failure? {
      HttpError(w, StatusText(500), 500);
      return;
    }
    w.Write(rendered.value);
  }

  /**
    The inline pipeline is the products client's GetProduct followed by
    rendering: a client error becomes one 500 reply, a product is rendered.
   */
  lemma OriginalIsFetchThenRender(productID: string, std: Stdlib, network: Request -> Result<Response, Error>, render: Renderer)
    ensures var fetched := Fetch(productID, std, network);
      OriginalReplies(productID, std, network, render) ==
        if fetched.err.Some? then ErrorReply(500) else Web.RenderReplies(render(fetched.product))
  {
    assert ProductUrl(productID) == OriginalEndpoint + productID;
  }

  /** The original answers only 200 or 500: 200 exactly when the product is fetched and rendered. */
  lemma OriginalStatus(productID: string, std: Stdlib, network: Request -> Result<Response, Error>, render: Renderer)
    ensures var fetched := Fetch(productID, std, network);
      StatusOf(OriginalReplies(productID, std, network, render)) ==
        if fetched.err.None? && render(fetched.product).Success? then 200 else 500
  {
    OriginalIsFetchThenRender(productID, std, network, render);
    ErrorReplyContents(500);
  }

  /**
    For an id Atoi accepts, the refactored handler answers with the original's
    status. When the product is fetched both write the same thing; when the
    client fails the original stops after its 500 reply, while the refactored
    handler goes on to render the missing product after the same reply.
   */
  lemma RefactoringKeepsStatusForNumericIds(productID: string, std: Stdlib, network: Request -> Result<Response, Error>, render: Renderer)
    requires Atoi(productID).Some?
    ensures var fetched := Fetch(productID, std, network);
      var original := OriginalReplies(productID, std, network, render);
      var refactored := Web.Replies(productID, fetched, render);
      StatusOf(refactored) == StatusOf(original) &&
      (fetched.err.None? ==> refactored == original) &&
      (fetched.err.Some? ==> refactored == original + Web.RenderReplies(render(None)))
  {
    var fetched := Fetch(productID, std, network);
    OriginalIsFetchThenRender(productID, std, network, render);
    OriginalStatus(productID, std, network, render);
    Web.EffectiveStatus(productID, fetched, render);
  }

  /**
    For an id Atoi rejects, the refactored handler answers 400 while the
    original, which never validates the id, answers 200 or 500.
   */
  lemma RefactoringRejectsNonNumericIds(productID: string, std: Stdlib, network: Request -> Result<Response, Error>, render: Renderer)
    requires Atoi(productID).None?
    ensures StatusOf(Web.Replies(productID, Fetch(productID, std, network), render)) == 400
    ensures StatusOf(OriginalReplies(productID, std, network, render)) != 400
  {
    Web.EffectiveStatus(productID, Fetch(productID, std, network), render);
    OriginalStatus(productID, std, network, render);
  }
}

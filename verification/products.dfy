/**
  The products client of lesson 1: it asks the upstream products API for
  one product by id and returns Go's `(*Product, error)` pair.
  The library calls it makes are given, not modelled: the URL check inside
  `http.NewRequestWithContext`, `json.Unmarshal`, and the transport.
 */
module Products {
  import opened Wrappers
  import opened Strconv
  import opened NetHttp

  /** A product as the upstream endpoint describes it (only the fields kept). */
  datatype Product = Product(id: int, title: string, description: string)

  /** Go's `(*Product, error)` return pair; either side may be `nil`. */
  datatype ProductResult = ProductResult(product: Option<Product>, err: Option<Error>)

  /**
    Standard-library calls as given functions: `urlError(url)` is the error
    `http.NewRequestWithContext` reports for an unparsable URL, and
    `unmarshal(bytes)` is what `json.Unmarshal` decodes into a zero Product.
   */
  datatype Stdlib = Stdlib(
    urlError: string -> Option<Error>,
    unmarshal: string -> Result<Product, Error>)

  /** What `render.Render` does with a product: the JSON it writes, or its error. */
  type Renderer = Option<Product> -> Result<string, Error>

  const ProductsEndpoint: string := "https://dummyjson.com/products/"

  /** `fmt.Sprintf(productsEndpointUrl, productId)`: the id is pasted in as it is. */
  function ProductUrl(productId: string): (url: string)
    ensures |url| == |ProductsEndpoint| + |productId|
    ensures url[..|ProductsEndpoint|] == ProductsEndpoint
    ensures url[|ProductsEndpoint|..] == productId
  {
    ProductsEndpoint + productId
  }

  /** The error GetProduct reports for a rejected status code. */
  function StatusError(statusCode: int): Error {
    Error("received " + FormatInt(statusCode) + " status code calling products API")
  }

  /** The request GetProduct sends for `productId`, when it sends one. */
  function RequestFor(productId: string): Request {
    Request("GET", ProductUrl(productId))
  }

  /** The requests GetProduct hands to the transport for `productId`. */
  function Outbound(productId: string, std: Stdlib): (sent: seq<Request>)
    ensures |sent| <= 1
    ensures sent == [] <==> std.urlError(ProductUrl(productId)).Some?
    ensures forall i :: 0 <= i < |sent| ==> sent[i] == RequestFor(productId)
  {
    var url := ProductUrl(productId);
    if std.urlError(url).Some? then [] else [Request("GET", url)]
  }

  /**
    The outcome of GetProduct for `productId` when the transport answers
    with `exchange`: build the request, send it, reject a status of 400 or
    more without reading the body, else read and decode the body.
   */
  function Fetch(productId: string, std: Stdlib, exchange: Request -> Result<Response, Error>): (r: ProductResult)
    ensures r.product.Some? != r.err.Some?
  {
    var url := ProductUrl(productId);
    match std.urlError(url)
    case Some(e) => ProductResult(None, Some(e))
    case None =>
      match exchange(Request("GET", url))
      case Failure(e) => ProductResult(None, Some(e))
      case Success(response) =>
        if response.statusCode >= 400 then ProductResult(None, Some(StatusError(response.statusCode)))
        else
          match ReadAll(response.body)
          case Failure(e) => ProductResult(None, Some(e))
          case Success(bytes) =>
            match std.unmarshal(bytes)
            case Failure(e) => ProductResult(None, Some(e))
            case Success(product) => ProductResult(Some(product), None)
  }

  /** `productsClient`: a products client over an injected transport. */
  class ProductsClient {
    const httpClient: Client

    /** `NewCustomClient`: use the given transport. */
    constructor NewCustomClient(httpClient: Client)
      ensures this.httpClient == httpClient
    {
      this.httpClient := httpClient;
    }

    /** `NewClient`: a fresh `http.Client` with a five-second timeout over `network`. */
    constructor NewClient(network: Request -> Result<Response, Error>)
      ensures fresh(httpClient)
      ensures httpClient.timeoutSeconds == 5 && httpClient.exchange == network
      ensures httpClient.sent == []
    {
      httpClient := new Client(5, network);
    }

    method GetProduct(productId: string, std: Stdlib) returns (r: ProductResult)
      modifies httpClient
      ensures r == Fetch(productId, std, httpClient.exchange)
      ensures httpClient.sent == old(httpClient.sent) + Outbound(productId, std)
    {
      var url := ProductUrl(productId);
      var requestError := std.urlError(url);
      if requestError.Some? {
        return ProductResult(None, requestError);
      }
      var request := Request("GET", url);
      var response := httpClient.Do(request);
      if response.Failure? {
        return ProductResult(None, Some(response.error));
      }
      var statusCode := response.value.statusCode;
      if statusCode >= 400 {
        return ProductResult(None, Some(StatusError(statusCode)));
      }
      var bodyAsBytes := ReadAll(response.value.body);
      if bodyAsBytes.Failure? {
        return ProductResult(None, Some(bodyAsBytes.error));
      }
      var product := std.unmarshal(bodyAsBytes.value);
      if product.Failure? {
        return ProductResult(None, Some(product.error));
      }
      return ProductResult(Some(product.value), None);
    }
  }

  /** A failed request construction ends the call before the transport is used. */
  lemma RequestErrorPassesThrough(productId: string, std: Stdlib, exchange: Request -> Result<Response, Error>)
    requires std.urlError(ProductUrl(productId)).Some?
    ensures Fetch(productId, std, exchange) == ProductResult(None, std.urlError(ProductUrl(productId)))
    ensures Outbound(productId, std) == []
  {
  }

  /** A transport error comes back unchanged, with no product. */
  lemma TransportErrorPassesThrough(productId: string, std: Stdlib, exchange: Request -> Result<Response, Error>)
    requires std.urlError(ProductUrl(productId)).None?
    requires exchange(RequestFor(productId)).Failure?
    ensures Fetch(productId, std, exchange) == ProductResult(None, Some(exchange(RequestFor(productId)).error))
  {
  }

  /** A status of 400 or more gives no product and the fixed message naming the code. */
  lemma RejectedStatus(productId: string, std: Stdlib, exchange: Request -> Result<Response, Error>)
    requires std.urlError(ProductUrl(productId)).None?
    requires exchange(RequestFor(productId)).Success?
    requires exchange(RequestFor(productId)).value.statusCode >= 400
    ensures var code := exchange(RequestFor(productId)).value.statusCode;
      Fetch(productId, std, exchange) ==
        ProductResult(None, Some(Error("received " + FormatInt(code) + " status code calling products API")))
  {
  }

  /**
    For a status of 400 or more neither the body nor the decoder is used:
    two answers with the same status give the same result.
   */
  lemma RejectedStatusIgnoresBody(productId: string, std1: Stdlib, std2: Stdlib,
                                  exchange1: Request -> Result<Response, Error>,
                                  exchange2: Request -> Result<Response, Error>)
    requires std1.urlError(ProductUrl(productId)).None? && std2.urlError(ProductUrl(productId)).None?
    requires exchange1(RequestFor(productId)).Success? && exchange2(RequestFor(productId)).Success?
    requires exchange1(RequestFor(productId)).value.statusCode == exchange2(RequestFor(productId)).value.statusCode >= 400
    ensures Fetch(productId, std1, exchange1) == Fetch(productId, std2, exchange2)
  {
  }

  /** The rejection message tells the status codes apart. */
  lemma StatusErrorNamesCode(a: int, b: int)
    requires StatusError(a) == StatusError(b)
    ensures a == b
  {
    var prefix, suffix := "received ", " status code calling products API";
    var m := StatusError(a).message;
    assert m == prefix + FormatInt(a) + suffix;
    assert m == prefix + FormatInt(b) + suffix;
    assert |FormatInt(a)| == |FormatInt(b)|;
    assert FormatInt(a) == m[|prefix|..|m| - |suffix|] == FormatInt(b);
    FormatIntInjective(a, b);
  }

  /** Below 400 (1xx, 2xx and 3xx alike) a body that cannot be read gives its error. */
  lemma AcceptedStatusReadError(productId: string, std: Stdlib, exchange: Request -> Result<Response, Error>)
    requires std.urlError(ProductUrl(productId)).None?
    requires exchange(RequestFor(productId)).Success?
    requires exchange(RequestFor(productId)).value.statusCode < 400
    requires exchange(RequestFor(productId)).value.body.readError.Some?
    ensures Fetch(productId, std, exchange) ==
      ProductResult(None, exchange(RequestFor(productId)).value.body.readError)
  {
  }

  /** Below 400 a body that does not decode gives the decoder's error and no product. */
  lemma AcceptedStatusDecodeError(productId: string, std: Stdlib, exchange: Request -> Result<Response, Error>)
    requires std.urlError(ProductUrl(productId)).None?
    requires exchange(RequestFor(productId)).Success?
    requires exchange(RequestFor(productId)).value.statusCode < 400
    requires exchange(RequestFor(productId)).value.body.readError.None?
    requires std.unmarshal(exchange(RequestFor(productId)).value.body.data).Failure?
    ensures Fetch(productId, std, exchange) ==
      ProductResult(None, Some(std.unmarshal(exchange(RequestFor(productId)).value.body.data).error))
  {
  }

  /** Below 400 a body that decodes gives exactly the decoded product and no error. */
  lemma AcceptedStatusDecodes(productId: string, std: Stdlib, exchange: Request -> Result<Response, Error>)
    requires std.urlError(ProductUrl(productId)).None?
    requires exchange(RequestFor(productId)).Success?
    requires exchange(RequestFor(productId)).value.statusCode < 400
    requires exchange(RequestFor(productId)).value.body.readError.None?
    requires std.unmarshal(exchange(RequestFor(productId)).value.body.data).Success?
    ensures Fetch(productId, std, exchange) ==
      ProductResult(Some(std.unmarshal(exchange(RequestFor(productId)).value.body.data).value), None)
  {
  }

  /** A product comes back only from a sent request, an accepted status and a decoded body. */
  lemma ProductOnlyFromDecodedBody(productId: string, std: Stdlib, exchange: Request -> Result<Response, Error>)
    requires Fetch(productId, std, exchange).product.Some?
    ensures Outbound(productId, std) == [RequestFor(productId)]
    ensures var answer := exchange(RequestFor(productId));
      answer.Success? && answer.value.statusCode < 400 &&
      ReadAll(answer.value.body) == Success(answer.value.body.data) &&
      std.unmarshal(answer.value.body.data) == Success(Fetch(productId, std, exchange).product.value)
  {
  }

  /** `%d` prints 503, one of the codes the client's tests try, as "503" in the status error. */
  lemma Format503()
    ensures FormatInt(503) == "503"
  {
    ThreeDigits(503);
    assert DigitChar(5) == '5' && DigitChar(0) == '0' && DigitChar(3) == '3';
  }

  /** `%d` of a three-digit code is its three digits. */
  lemma ThreeDigits(n: nat)
    requires 100 <= n < 1000
    ensures FormatInt(n) == [DigitChar(n / 100), DigitChar(n / 10 % 10), DigitChar(n % 10)]
  {
    var tens := n / 10;
    assert tens / 10 == n / 100 && tens % 10 == n / 10 % 10;
    assert FormatNat(n) == FormatNat(tens) + [DigitChar(n % 10)];
    assert FormatNat(tens) == FormatNat(n / 100) + [DigitChar(tens % 10)];
    assert FormatNat(n / 100) == [DigitChar(n / 100)];
  }
}

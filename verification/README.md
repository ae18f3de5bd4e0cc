# Refactoring lessons: a Dafny model

This project models the Go code of a small teaching repository about refactoring:

- **Products client** (`lesson1/products`). It fetches one product from the `dummyjson.com` products API. It builds the URL, sends a GET and rejects a status of 400 or more with a fixed message. Otherwise it reads and decodes the body. It returns Go's `(*Product, error)` pair.
- **Web handler** (`lesson1/web`). It validates the `productId` path parameter, asks a product client for the product and renders it. Its `http.Error` calls are not followed by `return`, so a rejected id still reaches the client and the renderer. The handler's output is modelled as the log of calls made on the response writer. The status the client sees is the first `WriteHeader`, as in `net/http`.
- **Original inline handler** (`lesson1/lesson1_original.go`). This is the same pipeline before refactoring. Every failure answers 500 and returns.
- **Lesson 2** (`lesson2`). A delete-credit-card request is mapped to a command with the name `"<last>, <first>"` and handed to a command processor. There are two versions: the original, which builds the command in two steps on a mutable record, and the refactored one, which uses a pure mapping function.

Library calls the code depends on are inputs to the model:

- the URL check inside `http.NewRequestWithContext`;
- `json.Unmarshal`;
- the HTTP transport;
- `render.Render`;
- the web handler's `ProductClient`;
- the command processor.

Two library functions are modelled exactly: `strconv.Atoi` (an optional sign, one or more decimal digits, a value within Go's 64-bit `int`) and `%d` formatting.

Modules:

| file | module | models |
|---|---|---|
| wrappers.dfy | `Wrappers` | `Option`, `Result`, Go's `error` |
| strconv.dfy | `Strconv` | `strconv.Atoi` and `%d` |
| net_http.dfy | `NetHttp` | requests, responses, the transport client, the response writer, `http.Error` |
| products.dfy | `Products` | `product.go`, `product_client.go` |
| web.dfy | `Web` | `web/server.go` |
| lesson1_original.dfy | `Lesson1Original` | the route handler of `lesson1_original.go` |
| lesson2_refactored.dfy | `Lesson2Refactored` | `lesson2_refactored.go` |
| lesson2_original.dfy | `Lesson2Original` | `lesson2_original.go` |

Each method is proved against a function that specifies it:

- `Products.ProductsClient.GetProduct` against `Fetch`;
- `Web.Server.GetProduct` against `Replies`;
- `Lesson1Original.HandleGetProduct` against `OriginalReplies`;
- `Lesson2Original.RequestHandler.HandleDeleteCreditCardRequest` against the refactored `HandleDeleteCreditCardRequest`.

The lemmas state what the code promises about those functions.

## Model

| member | source | states |
|---|---|---|
| Strconv.FormatNat | lesson1/products/product_client.go:74 | `%d` of a natural number is a non-empty digit string that starts with `0` only for zero |
| Strconv.FormatInt | lesson1/products/product_client.go:74 | `%d` of an int is non-empty and starts with `-` exactly for negatives, followed by digits with no leading zero (a lone `0` only for zero) |
| Strconv.FormatNatValue | lesson1/products/product_client.go:74 | the digits `%d` prints read back as the number printed |
| Strconv.FormatIntValue | lesson1/products/product_client.go:74 | the text `%d` prints reads back as the number: the digits' value, negated after `-` |
| Strconv.FormatIntInjective | lesson1/products/product_client.go:74 | different numbers print differently |
| Strconv.ParseDigitsValue | lesson1/web/server.go:37 | digit reading succeeds exactly on all-digit strings and yields their decimal value |
| Strconv.Atoi | lesson1/web/server.go:37-41 | an accepted string is non-empty and its value lies within 64-bit `int` |
| Strconv.AtoiAccepts | lesson1/web/server.go:37-41 | what Atoi accepts is an optional `+`/`-` followed by one or more digits (a lone sign is refused), and the value is theirs with the sign applied and lies within 64 bits |
| Strconv.AtoiAcceptedSet | lesson1/web/server.go:37-41 | Atoi accepts a text exactly when it is digits of value at most MaxInt, `+` and such digits, or `-` and digits of value at most MaxInt + 1 |
| Strconv.AtoiAcceptsSign | lesson1/web/server.go:37 | a digit string is accepted bare and after `+` when its value is at most MaxInt, and after `-` (negated) when it is at most MaxInt + 1, so MinInt is accepted |
| Strconv.AtoiFormatInt | lesson1/web/server.go:37 | Atoi reads back every 64-bit int that `%d` prints |
| NetHttp.Client.constructor | lesson1/products/product_client.go:39-41 | a new client has the given timeout and transport and has sent nothing |
| NetHttp.Client.Do | lesson1/products/product_client.go:63 | the request is logged as sent once and the transport's answer is returned |
| NetHttp.ErrorReplyContents | lesson1/web/server.go:34 | `http.Error(w, StatusText(code), code)` sends the code with the status text and a newline as body |
| NetHttp.ResponseWriter.constructor | lesson1/web/server.go:30 | a new writer has seen no calls |
| NetHttp.ResponseWriter.Code | lesson1/web/server_test.go:43-45 | the status the client receives is the one the first call on the writer fixed |
| NetHttp.ResponseWriter.WriteHeader | lesson1/web/server.go:34 | the call is logged; only the first header call sets the status |
| NetHttp.ResponseWriter.Write | lesson1/web/server.go:49 | the call is logged and the data is appended to the body; a write before any header sets 200 |
| NetHttp.HttpError | lesson1/web/server.go:33-35 | `http.Error` sets the status and then writes the text and a newline |
| NetHttp.StatusKeptByLaterCalls | lesson1/web/server.go:33-52 | calls after the first do not change the status the client receives |
| Products.ProductUrl | lesson1/products/product_client.go:43-51 | the URL is the endpoint followed by the id verbatim |
| Products.Outbound | lesson1/products/product_client.go:53-63 | at most one request is sent, none exactly when the URL is refused, and it is the GET for the id |
| Products.Fetch | lesson1/products/product_client.go:45-92 | every path yields exactly one of a product or an error |
| Products.ProductsClient.NewCustomClient | lesson1/products/product_client.go:31-33 | the client uses the transport it is given |
| Products.ProductsClient.NewClient | lesson1/products/product_client.go:39-41 | the client uses a new transport client with a five-second timeout |
| Products.ProductsClient.GetProduct | lesson1/products/product_client.go:45-92 | the result is `Fetch`'s and the transport is asked exactly for `Outbound`'s requests |
| Products.RequestErrorPassesThrough | lesson1/products/product_client.go:53-61 | a refused URL gives its error, no product, and nothing is sent |
| Products.TransportErrorPassesThrough | lesson1/products/product_client.go:63-67 | a transport error is returned unchanged with no product |
| Products.RejectedStatus | lesson1/products/product_client.go:71-75 | a status of 400 or more gives no product and exactly the error "received <code> status code calling products API" |
| Products.RejectedStatusIgnoresBody | lesson1/products/product_client.go:73-77 | for a status of 400 or more the result depends on the status alone, not on the body or the decoder |
| Products.StatusErrorNamesCode | lesson1/products/product_client.go:74 | the rejection message for one status differs from that for any other |
| Products.AcceptedStatusReadError | lesson1/products/product_client.go:77-81 | below 400 a body read error is returned with no product |
| Products.AcceptedStatusDecodeError | lesson1/products/product_client.go:83-89 | below 400 a decode error is returned with no product |
| Products.AcceptedStatusDecodes | lesson1/products/product_client.go:83-91 | below 400 a decoded body gives exactly the decoded product and no error |
| Products.ProductOnlyFromDecodedBody | lesson1/products/product_client.go:59-91 | a product is returned only after the GET was sent, the status was below 400, and the body was read and decoded to that product |
| Products.Format503 | lesson1/products/product_client_test.go:47-65 | `%d` of the tested code 503 is "503" |
| Products.ThreeDigits | lesson1/products/product_client.go:74 | `%d` of a three-digit code is its hundreds, tens and units digits |
| Web.ProductClient.GetProduct | lesson1/web/server.go:18-20 | the client is asked for the id it is given and answers with its answer for that id |
| Web.Server.NewServer | lesson1/web/server.go:26-28 | the server keeps the product client it is given |
| Web.Server.GetProduct | lesson1/web/server.go:30-54 | the writer receives exactly `Replies`: 400 for an empty id, 400 if Atoi refuses it, 500 for a client error, then the render outcome; the client is asked once, with the raw parameter |
| Web.EffectiveStatus | lesson1/web/server.go:33-52 | the status is 400 whenever Atoi refuses the id, whatever the client does; otherwise 500 for a client or render error, else 200 |
| Web.EmptyIdRejectedTwice | lesson1/web/server.go:33-41 | an empty id draws two 400 replies in a row |
| Web.AcceptedIdNotRejected | lesson1/web/server.go:37-41 | an id Atoi accepts draws no 400 |
| Web.RenderAlwaysAttempted | lesson1/web/server.go:49-52 | on every path the last thing written is the render outcome: the JSON, or a 500 reply |
| Web.SuccessWritesOnlyJson | lesson1/web/server.go:30-54 | an accepted id, a product and a successful render write the JSON and nothing else |
| Web.MissingIdIs400 | lesson1/web/server_test.go:25-46 | a missing id is answered with 400 |
| Web.NonNumericIdIs400 | lesson1/web/server_test.go:47-64 | the id "foobar" is answered with 400 |
| Web.ClientErrorIs500 | lesson1/web/server_test.go:66-83 | the id "2" with a failing client is answered with 500 |
| Web.SignedIdsParse | lesson1/web/server.go:37 | the signed ids "-5" and "+7" pass validation with values -5 and 7 |
| Lesson1Original.HandleGetProduct | lesson1/lesson1_original.go:22-67 | the writer receives exactly `OriginalReplies`; a client is created only if the URL parses, with a five-second timeout, and sends the one GET |
| Lesson1Original.OriginalIsFetchThenRender | lesson1/lesson1_original.go:23-65 | the inline pipeline equals the products client's outcome followed by one 500 reply on error or the render of the product |
| Lesson1Original.OriginalStatus | lesson1/lesson1_original.go:24-65 | the original answers 200 exactly when the product is fetched and rendered, else 500 |
| Lesson1Original.RefactoringKeepsStatusForNumericIds | lesson1/lesson1_original.go:22-67 | for an id Atoi accepts, the refactored handler's status equals the original's; it writes the same thing after a successful fetch, and after a client error it writes the original's reply followed by the render of no product |
| Lesson1Original.RefactoringRejectsNonNumericIds | lesson1/lesson1_original.go:23 | for an id Atoi refuses, the refactored handler answers 400, which the original never does |
| Lesson2Refactored.BuildDeleteCreditCardCommand | lesson2/refactored/lesson2_refactored.go:47-52 | the card id is copied; the name is the last name, then ", ", then the first name, with length the sum plus two |
| Lesson2Refactored.HandleDeleteCreditCardRequest | lesson2/refactored/lesson2_refactored.go:24-41 | exactly the built command is sent, once; the processor's error is returned unchanged, and nil when it succeeds |
| Lesson2Refactored.BuildRecoversRequest | lesson2/refactored/lesson2_refactored.go:50 | two requests whose last names are equally long and that build the same command are equal |
| Lesson2Refactored.BuildNotInjective | lesson2/refactored/lesson2_refactored.go:50 | without the last name's length, distinct requests can build the same name |
| Lesson2Refactored.BuildTestCases | lesson2/refactored/lesson2_test.go:17-25 | "XCX, Charli", "Snow, Jon", and ", " for empty names |
| Lesson2Original.DeleteCreditCardCommand.constructor | lesson2/original/lesson2_original.go:36 | the command starts with the card id and an empty name |
| Lesson2Original.CommandProcessor.DeleteCreditCard | lesson2/original/lesson2_original.go:16-18 | the processor records the command's contents and returns its outcome for them |
| Lesson2Original.RequestHandler.constructor | lesson2/original/lesson2_original.go:20-22 | the handler keeps the processor it is given |
| Lesson2Original.RequestHandler.HandleDeleteCreditCardRequest | lesson2/original/lesson2_original.go:32-46 | the processor receives exactly what the refactored handler sends, and the error returned equals the refactored result |

## Left out

- Contexts, deadlines, cancellation and the five-second timeout's effect. The timeout is recorded as a number only.
- The middleware, router, route registration, `ListenAndServe` and `log.Fatalf` of `main` in `lesson1_original.go`.
- `lesson1/refactored/lesson1_refactored.go`, the process bootstrap.
- `lesson3/batch_job.go`. It returns a fixed error and has nothing to prove.
- `http.NewRequestWithContext`'s URL parser is a given function (`Stdlib.urlError`). The model does not say which URLs it refuses.
- `json.Unmarshal` is a given function (`Stdlib.unmarshal`) from the body to a product or an error. Go's partial filling of the product before a decode error is not modelled, because no such product is ever returned.
- `io.ReadAll` is modelled as a body holding its data and an optional read error. `Body.Close` is not modelled.
- `render.Render` is a given function (`Renderer`) from the product, or from a nil product, to the JSON written or an error. When it fails it is taken to write nothing. `Product.Render` is the no-op hook it calls.
- `chi.URLParam` is not modelled. The handlers take the parameter as a string, "" when it is absent.
- Headers are not modelled. That includes the `Content-Type` and `X-Content-Type-Options` headers `http.Error` sets. `net/http`'s log line for a superfluous `WriteHeader` is left out too.
- Bodies and payloads are strings, not byte slices. The code never looks inside them.
- `NetHttp.StatusText`: only the codes 400 and 500, the ones the handlers pass to it.
- The transport's errors are passed through as the transport gives them. The `*url.Error` wrapping of the real `http.Client` is not modelled.
- `Products.Product.id` is an unbounded integer. Its 64-bit range is the decoder's concern.
- The inline handler of `lesson1_original.go` declares its own `Product`, with the same three fields. The model reuses `Products.Product` for it.
- `Web.Server.GetProduct` and `Lesson1Original.HandleGetProduct` take a response writer on which nothing has been called yet, as `net/http` gives each request.
- `Lesson2Original.CommandProcessor.DeleteCreditCard`: the processor receives the command's contents at the time of the call. A processor that keeps the pointer and changes the command later is not modelled.
- `Products.Format503`: of the five codes the client's tests try (400, 401, 403, 500 and 503), only 503 has its `%d` text evaluated, to "503". No member states the full literal message for a particular code; `Products.RejectedStatus` states the message for every code in terms of `%d`.

/** What both handlers do before they look at the event: copy the API
    Gateway request headers into an `http.Header`, choose the signature
    header, and run the library steps that parse the content type, decode
    the body, check its signature and parse the webhook. The library calls
    are parameters of the model (see Library). */
module Lambda {
  import opened Wrappers
  import opened GitHubEvents

  newtype byte = x: int | 0 <= x < 256

  /** A Go string or byte slice that carries payload bytes. */
  type Bytes = seq<byte>

  /** `events.APIGatewayV2HTTPRequest`, reduced to what the handlers read. */
  datatype Request = Request(headers: map<string, string>, body: Bytes, isBase64Encoded: bool)

  /** What a handler hands back to the Lambda runtime: a response with a
      status code and body, a Go error (the second result of HandleLambda),
      or a runtime panic. */
  datatype HandlerResult =
    | Response(statusCode: int, body: string)
    | Failed(error: string)
    | Panicked(reason: string)

  const StatusOK: int := 200
  const StatusBadRequest: int := 400

  /** Header names as `http.Header.Get` looks them up (go-github's
      `SHA256SignatureHeader` and `SHA1SignatureHeader`). */
  const SHA256SignatureHeader: string := "X-Hub-Signature-256"
  const SHA1SignatureHeader: string := "X-Hub-Signature"
  const ContentTypeHeader: string := "Content-Type"
  const EventTypeHeader: string := "X-Github-Event"

  /** `http.Header`: each name maps to the values added under it, in order. */
  type Header = map<string, seq<string>>

  /** `http.Header.Get`: the first value under the name, or "" when there is none. */
  function Get(h: Header, name: string): (value: string)
    ensures name !in h || |h[name]| == 0 ==> value == ""
    ensures name in h && |h[name]| > 0 ==> value == h[name][0]
  {
    if name in h && |h[name]| > 0 then h[name][0] else ""
  }

  /** `http.Header.Add`: append a value under the name. */
  function Add(h: Header, name: string, value: string): (r: Header)
    ensures r.Keys == h.Keys + {name}
    ensures r[name] == (if name in h then h[name] else []) + [value]
    ensures forall k :: k in h && k != name ==> r[k] == h[k]
  {
    h[name := (if name in h then h[name] else []) + [value]]
  }

  /** The value a request carries under a header name, or "" without one. */
  function HeaderValue(headers: map<string, string>, name: string): string
  {
    if name in headers then headers[name] else ""
  }

  /** The loop that fills `header` from `request.Headers`. Go visits the map
      in no fixed order; so does the loop. Each request header ends up as
      the one value under its name. */
  method CopyHeaders(headers: map<string, string>) returns (h: Header)
    ensures h.Keys == headers.Keys
    ensures forall k :: k in h ==> h[k] == [headers[k]]
    ensures forall name :: Get(h, name) == HeaderValue(headers, name)
  {
    h := map[];
    var todo := headers.Keys;
    while todo != {}
      invariant todo <= headers.Keys
      invariant h.Keys == headers.Keys - todo
      invariant forall k :: k in h ==> h[k] == [headers[k]]
      decreases todo
    {
      var k :| k in todo;
      h := Add(h, k, headers[k]);
      todo := todo - {k};
    }
  }

  /** The signature the payload is checked against: the SHA-256 header when it
      is non-empty, otherwise the SHA-1 header (possibly "" too). */
  function SelectSignature(h: Header): (signature: string)
    ensures Get(h, SHA256SignatureHeader) != "" ==> signature == Get(h, SHA256SignatureHeader)
    ensures Get(h, SHA256SignatureHeader) == "" ==> signature == Get(h, SHA1SignatureHeader)
  {
    var signature := Get(h, SHA256SignatureHeader);
    if signature == "" then Get(h, SHA1SignatureHeader) else signature
  }

  /** The library calls made before the event is inspected, as the model's
      parameters:
      - parseMediaType: `mime.ParseMediaType`, giving the media type or an error;
      - decodeBase64: `base64.StdEncoding.DecodeString`;
      - validatePayload: `github.ValidatePayloadFromBody(contentType, body,
        signature, secret)`, the HMAC check, giving the verified payload;
      - parseWebHook: `github.ParseWebHook(eventType, payload)`;
      - newSHA1: `uuid.NewSHA1(namespace, []byte(name)).String()`. */
  datatype Library = Library(
    parseMediaType: string -> Result<string, string>,
    decodeBase64: Bytes -> Result<Bytes, string>,
    validatePayload: (string, Bytes, string, Bytes) -> Result<Bytes, string>,
    parseWebHook: (string, Bytes) -> Result<ParsedEvent, string>,
    newSHA1: (string, string) -> string)

  /** The header the request's headers are copied into. */
  function HeaderOf(headers: map<string, string>): (h: Header)
    ensures forall name :: Get(h, name) == HeaderValue(headers, name)
  {
    map k | k in headers :: [headers[k]]
  }

  /** The request body as bytes: base64-decoded when the request says it is
      encoded, as it stands otherwise. */
  function DecodedBody(request: Request, lib: Library): Result<Bytes, string>
  {
    if request.isBase64Encoded then lib.decodeBase64(request.body) else Success(request.body)
  }

  /** The last two library steps: check the payload against the signature,
      then parse it as the event type the header names. */
  function VerifyThenParse(eventType: string, contentType: string, body: Bytes, signature: string,
                           secret: Bytes, lib: Library): Result<ParsedEvent, string>
  {
    match lib.validatePayload(contentType, body, signature, secret)
    case Failure(err) => Failure("validating payload: " + err)
    case Success(payload) =>
      match lib.parseWebHook(eventType, payload)
      case Failure(err) => Failure("parsing webhook: " + err)
      case Success(event) => Success(event)
  }

  /** The steps shared by both handlers, from the request to the parsed event;
      each failure is wrapped in the context text the handler adds. An event
      comes out only when the library accepted the payload under the chosen
      signature and parsed it as the type the event header names. */
  function Receive(request: Request, secret: Bytes, lib: Library): (r: Result<ParsedEvent, string>)
    ensures r.Success? ==> exists contentType, body, payload ::
      && lib.validatePayload(contentType, body, SelectSignature(HeaderOf(request.headers)), secret) == Success(payload)
      && lib.parseWebHook(HeaderValue(request.headers, EventTypeHeader), payload) == r
  {
    var header := HeaderOf(request.headers);
    match lib.parseMediaType(Get(header, ContentTypeHeader))
    case Failure(err) =>
      Failure("parse media type from '" + Get(header, ContentTypeHeader) + "': " + err)
    case Success(contentType) =>
      match DecodedBody(request, lib)
      case Failure(err) => Failure("decoding body: " + err)
      case Success(body) =>
        VerifyThenParse(Get(header, EventTypeHeader), contentType, body, SelectSignature(header), secret, lib)
  }

  /** A content type `mime.ParseMediaType` rejects ends the request with a Go
      error quoting the header. */
  lemma MediaTypeFailureReturned(request: Request, secret: Bytes, lib: Library, err: string)
    requires lib.parseMediaType(HeaderValue(request.headers, ContentTypeHeader)) == Failure(err)
    ensures Receive(request, secret, lib)
      == Failure("parse media type from '" + HeaderValue(request.headers, ContentTypeHeader) + "': " + err)
  {
  }

  /** A base64 body that does not decode ends the request with a Go error. */
  lemma Base64FailureReturned(request: Request, secret: Bytes, lib: Library, contentType: string, err: string)
    requires lib.parseMediaType(HeaderValue(request.headers, ContentTypeHeader)) == Success(contentType)
    requires request.isBase64Encoded && lib.decodeBase64(request.body) == Failure(err)
    ensures Receive(request, secret, lib) == Failure("decoding body: " + err)
  {
  }

  /** A verified payload the parser rejects ends the request with a Go error. */
  lemma ParseFailureReturned(request: Request, secret: Bytes, lib: Library, contentType: string,
                             body: Bytes, payload: Bytes, err: string)
    requires lib.parseMediaType(HeaderValue(request.headers, ContentTypeHeader)) == Success(contentType)
    requires DecodedBody(request, lib) == Success(body)
    requires lib.validatePayload(contentType, body, SelectSignature(HeaderOf(request.headers)), secret) == Success(payload)
    requires lib.parseWebHook(HeaderValue(request.headers, EventTypeHeader), payload) == Failure(err)
    ensures Receive(request, secret, lib) == Failure("parsing webhook: " + err)
  {
  }

  /** A non-empty SHA-256 signature header settles the matter: two requests
      that agree on it, on the headers the handler reads and on the body get
      the same outcome, whatever their SHA-1 headers say. */
  lemma Sha256HeaderWins(r1: Request, r2: Request, secret: Bytes, lib: Library)
    requires r1.body == r2.body && r1.isBase64Encoded == r2.isBase64Encoded
    requires HeaderValue(r1.headers, SHA256SignatureHeader) != ""
    requires HeaderValue(r1.headers, SHA256SignatureHeader) == HeaderValue(r2.headers, SHA256SignatureHeader)
    requires HeaderValue(r1.headers, ContentTypeHeader) == HeaderValue(r2.headers, ContentTypeHeader)
    requires HeaderValue(r1.headers, EventTypeHeader) == HeaderValue(r2.headers, EventTypeHeader)
    ensures Receive(r1, secret, lib) == Receive(r2, secret, lib)
  {
    assert SelectSignature(HeaderOf(r1.headers)) == SelectSignature(HeaderOf(r2.headers));
  }

  /** With a non-empty SHA-256 header, that header's value is the signature
      the payload is checked against. */
  lemma Sha256HeaderChecked(request: Request, secret: Bytes, lib: Library, contentType: string, body: Bytes)
    requires HeaderValue(request.headers, SHA256SignatureHeader) != ""
    requires lib.parseMediaType(HeaderValue(request.headers, ContentTypeHeader)) == Success(contentType)
    requires DecodedBody(request, lib) == Success(body)
    ensures Receive(request, secret, lib)
      == VerifyThenParse(HeaderValue(request.headers, EventTypeHeader), contentType, body,
                         HeaderValue(request.headers, SHA256SignatureHeader), secret, lib)
  {
  }

  /** Without a SHA-256 header, the SHA-1 header's value is the signature the
      payload is checked against. */
  lemma Sha1HeaderChecked(request: Request, secret: Bytes, lib: Library, contentType: string, body: Bytes)
    requires HeaderValue(request.headers, SHA256SignatureHeader) == ""
    requires lib.parseMediaType(HeaderValue(request.headers, ContentTypeHeader)) == Success(contentType)
    requires DecodedBody(request, lib) == Success(body)
    ensures Receive(request, secret, lib)
      == VerifyThenParse(HeaderValue(request.headers, EventTypeHeader), contentType, body,
                         HeaderValue(request.headers, SHA1SignatureHeader), secret, lib)
  {
  }

  /** A payload whose signature the library rejects ends the request with a
      Go error and never reaches the parser. */
  lemma ReceiveRejectsBadSignature(request: Request, secret: Bytes, lib: Library, contentType: string, body: Bytes)
    requires lib.parseMediaType(HeaderValue(request.headers, ContentTypeHeader)) == Success(contentType)
    requires DecodedBody(request, lib) == Success(body)
    requires lib.validatePayload(contentType, body, SelectSignature(HeaderOf(request.headers)), secret).Failure?
    ensures Receive(request, secret, lib) == Failure("validating payload: "
      + lib.validatePayload(contentType, body, SelectSignature(HeaderOf(request.headers)), secret).error)
  {
  }

  /** The handlers' common prefix, step by step: Go errors come back as
      Failure, with the same wrapping as Receive. */
  method ReceiveEvent(request: Request, secret: Bytes, lib: Library) returns (r: Result<ParsedEvent, string>)
    ensures r == Receive(request, secret, lib)
  {
    var header := CopyHeaders(request.headers);
    assert header == HeaderOf(request.headers);
    var signature := Get(header, SHA256SignatureHeader);
    if signature == "" {
      signature := Get(header, SHA1SignatureHeader);
    }
    var mediaType := lib.parseMediaType(Get(header, ContentTypeHeader));
    if mediaType.Failure? {
      return Failure("parse media type from '" + Get(header, ContentTypeHeader) + "': " + mediaType.error);
    }
    var bodyBytes := request.body;
    if request.isBase64Encoded {
      var decoded := lib.decodeBase64(request.body);
      if decoded.Failure? {
        return Failure("decoding body: " + decoded.error);
      }
      bodyBytes := decoded.value;
    }
    var verified := lib.validatePayload(mediaType.value, bodyBytes, signature, secret);
    if verified.Failure? {
      return Failure("validating payload: " + verified.error);
    }
    var parsed := lib.parseWebHook(Get(header, EventTypeHeader), verified.value);
    if parsed.Failure? {
      return Failure("parsing webhook: " + parsed.error);
    }
    r := Success(parsed.value);
  }
}

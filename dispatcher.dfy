/** The edge function's request handler (fun.js): CORS preflight, the four
    single-operation routes driven by the query string, the composite route that
    parses a multipart upload, the fallback banner and the top-level error reply.
    The image provider is a parameter: a function from the forwarded request and
    its action list to the provider's response or a thrown error. */
module EdgeDispatcher {
  import opened Wrappers
  import opened Numerals
  import opened ImageActions

  // ---------------------------------------------------------------------------
  // JavaScript's parseInt (radix left undefined)
  // ---------------------------------------------------------------------------

  /** WhiteSpace and LineTerminator code points, which parseInt skips at the start. */
  predicate IsJsWhitespace(c: char) {
    c in {'\t', '\n', '\U{000B}', '\U{000C}', '\r', ' ', '\U{00A0}', '\U{1680}',
          '\U{2028}', '\U{2029}', '\U{202F}', '\U{205F}', '\U{3000}', '\U{FEFF}'}
    || ('\U{2000}' <= c <= '\U{200A}')
  }

  function TrimStart(s: string): (t: string)
    ensures |t| <= |s| && t == s[|s| - |t|..]
    ensures t == [] || !IsJsWhitespace(t[0])
    ensures forall i :: 0 <= i < |s| - |t| ==> IsJsWhitespace(s[i])
  {
    if s != [] && IsJsWhitespace(s[0]) then TrimStart(s[1..]) else s
  }

  /** Length of the longest prefix of `s` made of digits of `radix`. */
  function DigitPrefix(s: string, radix: nat): (k: nat)
    ensures k <= |s| && AllDigits(s[..k], radix)
    ensures k < |s| ==> !IsDigit(s[k], radix)
  {
    if s != [] && IsDigit(s[0], radix) then 1 + DigitPrefix(s[1..], radix) else 0
  }

  /** `parseInt(s)`: skip leading white space, an optional sign, a "0x"/"0X" prefix
      selecting base 16, then as many digits as there are; NaN if there are none. */
  function ParseInt(s: string): JsNumber {
    ParseSigned(TrimStart(s))
  }

  /** parseInt after the leading white space: a minus sign negates, a plus sign is skipped. */
  function ParseSigned(t: string): JsNumber {
    if |t| > 0 && t[0] == '-' then Negate(ParseUnsigned(t[1..]))
    else if |t| > 0 && t[0] == '+' then ParseUnsigned(t[1..])
    else ParseUnsigned(t)
  }

  function Negate(v: JsNumber): JsNumber {
    match v
    case NaN => NaN
    case Finite(m) => Finite(-m)
  }

  /** parseInt after the sign: "0x"/"0X" selects base 16; the longest digit prefix is read. */
  function ParseUnsigned(u: string): JsNumber {
    var hex := |u| >= 2 && u[0] == '0' && (u[1] == 'x' || u[1] == 'X');
    var radix := if hex then 16 else 10;
    var digits := if hex then u[2..] else u;
    var k := DigitPrefix(digits, radix);
    if k == 0 then NaN else Finite(DigitsValue(digits[..k], radix))
  }

  lemma {:induction false} DigitPrefixAll(s: string, radix: nat)
    requires AllDigits(s, radix)
    ensures DigitPrefix(s, radix) == |s|
  {
    if s != [] {
      DigitPrefixAll(s[1..], radix);
    }
  }

  /** A non-empty decimal digit string has no "0x" prefix, so all of it is read in base 10. */
  lemma DecimalDigitsRead(s: string)
    requires s != [] && AllDigits(s, 10)
    ensures ParseUnsigned(s) == Finite(DigitsValue(s, 10))
  {
    assert !(|s| >= 2 && s[0] == '0' && (s[1] == 'x' || s[1] == 'X')) by {
      if |s| >= 2 {
        assert IsDigit(s[1], 10);
      }
    }
    DigitPrefixAll(s, 10);
    assert s[..|s|] == s;
  }

  /** Neither a digit nor a minus sign is white space, so nothing is trimmed. */
  lemma NothingTrimmed(s: string)
    requires s != [] && (IsDigit(s[0], 10) || s[0] == '-')
    ensures TrimStart(s) == s
  {
    assert !IsJsWhitespace(s[0]);
  }

  /** parseInt reads back the decimal rendering of a number, with or without a minus sign. */
  lemma ParseIntDecimal(n: nat)
    ensures ParseInt(NatToDecimal(n)) == Finite(n)
    ensures ParseInt("-" + NatToDecimal(n)) == Finite(-(n as int))
  {
    var s := NatToDecimal(n);
    DecimalRoundTrip(n);
    DecimalDigitsRead(s);
    assert IsDigit(s[0], 10);
    NothingTrimmed(s);
    var m := "-" + s;
    NothingTrimmed(m);
    assert m[1..] == s;
  }

  /** parseInt of the empty string is NaN. */
  lemma ParseIntEmpty()
    ensures ParseInt("") == NaN
  {
    assert TrimStart("") == "";
    assert DigitPrefix("", 10) == 0;
    assert ParseUnsigned("") == NaN;
  }

  // ---------------------------------------------------------------------------
  // Requests and responses
  // ---------------------------------------------------------------------------

  /** A message body: none, text, raw bytes, or the JSON text
      `{"success":false,"error":<error>}`. */
  datatype Body = NoBody | Text(text: string) | Bytes(data: seq<bv8>) | ErrorJson(error: string)

  /** An HTTP request as the handler sees it: the URL already split into a path and
      its query parameters, header names in lower case. */
  datatype HttpRequest = HttpRequest(
    verb: string,  // the HTTP method
    path: string,
    query: map<string, string>,
    headers: map<string, string>,
    body: Body)

  /** A response; header names in lower case, as the Headers object keeps them. */
  datatype Response = Response(status: int, headers: map<string, string>, body: Body)

  /** A multipart field value: an uploaded file or plain text. */
  datatype FormEntry = FileEntry(mediaType: string, data: seq<bv8>) | TextEntry(text: string) {
    /** A File object is always truthy; a text value unless it is "". */
    predicate Truthy() {
      FileEntry? || text != ""
    }

    /** What JSON.parse receives when given this value. */
    function AsText(): string {
      match this
      case FileEntry(_, _) => "[object File]"
      case TextEntry(t) => t
    }
  }

  /** The `file` and `config` fields of a parsed multipart body (None when absent). */
  datatype FormFields = FormFields(file: Option<FormEntry>, config: Option<FormEntry>)

  /** An inbound request together with what the runtime's body readers settle to on it:
      `request.json()` followed by the read of `body.config || body` (a config, None for a
      JSON `null` body, or the error thrown), and `parseMultipartFormData`. */
  datatype Inbound = Inbound(request: HttpRequest, asJson: Result<Option<Config>>, asForm: Result<FormFields>)

  /** JSON.parse of a config string: a config (None for `null`), or the SyntaxError's message. */
  type ConfigParser = string -> Result<Option<Config>>

  /** A call to the provider: the request to forward and its `image` option, if any. */
  datatype ProviderCall = ProviderCall(request: HttpRequest, image: Option<seq<Action>>)

  /** The provider: its response, or the message of the error its fetch rejects with. */
  type Provider = ProviderCall -> Result<Response>

  // ---------------------------------------------------------------------------
  // Fixed strings
  // ---------------------------------------------------------------------------

  const AllowOrigin := "access-control-allow-origin"
  const ContentType := "content-type"
  const Multipart := "multipart/form-data"
  const FormatRoute := "/api/process/format"
  const ResizeRoute := "/api/process/resize"
  const RotateRoute := "/api/process/rotate"
  const WatermarkRoute := "/api/process/watermark"
  const CompositeRoute := "/api/process/composite"
  const Banner := "Image Process Edge Function"
  const DefaultWatermarkText := "ImageProcess"
  const NoFileMessage := "请上传有效的图片文件"
  const HandlerFailurePrefix := "处理失败："
  const JsonFailurePrefix := "JSON解析失败："
  const FormFailurePrefix := "FormData解析失败："
  const ConfigFailurePrefix := "配置JSON解析失败："

  /** The TypeError message a property read on `null` throws (V8's wording). */
  function NullPropertyMessage(property: string): string {
    "Cannot read properties of null (reading '" + property + "')"
  }

  /** Does `s` contain `part` (String.prototype.includes)? */
  predicate Contains(s: string, part: string)
    decreases |s|
  {
    |part| <= |s| && (s[..|part|] == part || Contains(s[1..], part))
  }

  /** `searchParams.get(key) || default`. */
  function QueryOr(query: map<string, string>, key: string, default: string): (v: string)
    ensures v == default || (key in query && v == query[key])
    ensures key in query && query[key] != "" ==> v == query[key]
    ensures !(key in query && query[key] != "") ==> v == default
  {
    if key in query && query[key] != "" then query[key] else default
  }

  // ---------------------------------------------------------------------------
  // Responses the handler builds itself
  // ---------------------------------------------------------------------------

  /** The CORS preflight reply (section 3.2 of the WHATWG Fetch Standard). */
  function Preflight(): Response {
    Response(204,
      map[AllowOrigin := "*",
          "access-control-allow-methods" := "GET, POST, OPTIONS",
          "access-control-allow-headers" := "Content-Type, Accept",
          "access-control-max-age" := "86400"],
      NoBody)
  }

  /** The fallback banner; a string body gets the Response constructor's
      text/plain content type. */
  function BannerResponse(): Response {
    Response(200, map[ContentType := "text/plain;charset=UTF-8", AllowOrigin := "*"], Text(Banner))
  }

  function JsonError(status: int, error: string): Response {
    Response(status, map[ContentType := "application/json", AllowOrigin := "*"], ErrorJson(error))
  }

  /** The composite route's reply when no usable file was uploaded. */
  function NoFile(): Response {
    JsonError(400, NoFileMessage)
  }

  /** The top-level catch: any thrown error becomes a 500 JSON reply. */
  function InternalError(message: string): (r: Response)
    ensures r.status == 500 && AllowOrigin in r.headers && r.headers[AllowOrigin] == "*"
    ensures r.body == ErrorJson(HandlerFailurePrefix + message)
  {
    JsonError(500, HandlerFailurePrefix + message)
  }

  function WithAllowOrigin(r: Response): Response {
    r.(headers := r.headers[AllowOrigin := "*"])
  }

  // ---------------------------------------------------------------------------
  // parseFormData
  // ---------------------------------------------------------------------------

  /** What parseFormData resolves to: the `file` field (None for null) and the config
      (None for a JSON `null`). */
  datatype Parsed = Parsed(file: Option<FormEntry>, config: Option<Config>)

  function ContentTypeOf(r: HttpRequest): string {
    if ContentType in r.headers then r.headers[ContentType] else ""
  }

  /** parseFormData: a non-multipart body is read as JSON and never yields a file; a
      multipart body yields its `file` field and its `config` field parsed as JSON, `{}`
      when that field is absent or empty. Errors are rethrown with a prefix. */
  function ParseFormData(inbound: Inbound, parseJson: ConfigParser): Result<Parsed> {
    if !Contains(ContentTypeOf(inbound.request), Multipart) then
      match inbound.asJson
      case Failure(m) => Failure(JsonFailurePrefix + m)
      case Success(None) => Failure(JsonFailurePrefix + NullPropertyMessage("config"))
      case Success(Some(c)) => Success(Parsed(None, Some(c)))
    else
      match inbound.asForm
      case Failure(m) => Failure(FormFailurePrefix + m)
      case Success(form) =>
        if form.config.None? || !form.config.value.Truthy() then Success(Parsed(form.file, Some(EmptyConfig)))
        else
          match parseJson(form.config.value.AsText())
          case Failure(m) => Failure(FormFailurePrefix + ConfigFailurePrefix + m)
          case Success(config) => Success(Parsed(form.file, config))
  }

  // ---------------------------------------------------------------------------
  // handleRequest
  // ---------------------------------------------------------------------------

  /** How a request is answered: directly, by forwarding to the provider (adding the
      Allow-Origin header to its response or not), or by an error thrown inside the
      handler's try block. */
  datatype Decision =
    | Reply(response: Response)
    | Forward(call: ProviderCall, addAllowOrigin: bool)
    | Throw(message: string)

  /** The request the composite route sends on: a POST to the same URL whose body is
      the uploaded file, typed by the file's media type or image/jpeg. */
  function Rewrap(r: HttpRequest, file: FormEntry): HttpRequest {
    match file
    case FileEntry(t, data) =>
      HttpRequest("POST", r.path, r.query, map[ContentType := if t != "" then t else "image/jpeg"], Bytes(data))
    case TextEntry(s) =>
      HttpRequest("POST", r.path, r.query, map[ContentType := "image/jpeg"], Text(s))
  }

  /** The routing decision of handleRequest, before the provider is called. */
  function Dispatch(inbound: Inbound, parseJson: ConfigParser): Decision {
    var r := inbound.request;
    var q := r.query;
    if r.verb == "OPTIONS" then Reply(Preflight())
    else if r.path == FormatRoute then
      Forward(ProviderCall(r, Some(FormatActions(QueryOr(q, "format", "png")))), false)
    else if r.path == ResizeRoute then
      Forward(ProviderCall(r, Some(QueryResizeActions(q))), false)
    else if r.path == RotateRoute then
      Forward(ProviderCall(r, Some(RotateActions(QueryAngle(q)))), false)
    else if r.path == WatermarkRoute then
      Forward(ProviderCall(r, Some(WatermarkActions(QueryOr(q, "text", DefaultWatermarkText)))), false)
    else if r.path == CompositeRoute then CompositeDecision(inbound, parseJson)
    else Reply(BannerResponse())
  }

  /** The resize route's actions: width, height and quality read with parseInt, the
      quality defaulting to "90". */
  function QueryResizeActions(q: map<string, string>): (r: seq<Action>)
    ensures |r| == 1 && r[0].ResizeAction?
  {
    ResizeActions(QueryNumber(q, "width", ""), QueryNumber(q, "height", ""), QueryNumber(q, "quality", "90"))
  }

  /** `parseInt(params.get(key) || fallback)`. */
  function QueryNumber(q: map<string, string>, key: string, fallback: string): JsNumber {
    ParseInt(QueryOr(q, key, fallback))
  }

  /** The rotate route's angle, read with parseInt and defaulting to "0". */
  function QueryAngle(q: map<string, string>): JsNumber {
    QueryNumber(q, "angle", "0")
  }

  /** The composite route's decision, once its form data is parsed. */
  function CompositeDecision(inbound: Inbound, parseJson: ConfigParser): Decision {
    match ParseFormData(inbound, parseJson)
    case Failure(m) => Throw(m)
    case Success(parsed) =>
      if parsed.file.None? || !parsed.file.value.Truthy() then Reply(NoFile())
      else if parsed.config.None? then Throw(NullPropertyMessage("format"))
      else Forward(ProviderCall(Rewrap(inbound.request, parsed.file.value), ImageOption(CompositeActions(parsed.config.value))), true)
  }

  /** Carry out a dispatch decision against the provider. */
  function Complete(d: Decision, provider: Provider): Response {
    match d
    case Reply(response) => response
    case Throw(m) => InternalError(m)
    case Forward(call, addAllowOrigin) =>
      match provider(call)
      case Failure(m) => InternalError(m)
      case Success(response) => if addAllowOrigin then WithAllowOrigin(response) else response
  }

  /** handleRequest. */
  function HandleRequest(inbound: Inbound, parseJson: ConfigParser, provider: Provider): Response {
    Complete(Dispatch(inbound, parseJson), provider)
  }

  predicate IsSingleRoute(path: string) {
    path in {FormatRoute, ResizeRoute, RotateRoute, WatermarkRoute}
  }

  // ---------------------------------------------------------------------------
  // Properties
  // ---------------------------------------------------------------------------

  /** OPTIONS on any path: 204, no body, exactly the four CORS headers, and the provider
      is not consulted. */
  lemma PreflightAnyPath(inbound: Inbound, parseJson: ConfigParser, provider: Provider)
    requires inbound.request.verb == "OPTIONS"
    ensures var r := HandleRequest(inbound, parseJson, provider);
      r.status == 204 && r.body == NoBody &&
      r.headers.Keys == {"access-control-allow-origin", "access-control-allow-methods",
                         "access-control-allow-headers", "access-control-max-age"} &&
      r.headers["access-control-allow-origin"] == "*" &&
      r.headers["access-control-allow-methods"] == "GET, POST, OPTIONS" &&
      r.headers["access-control-allow-headers"] == "Content-Type, Accept" &&
      r.headers["access-control-max-age"] == "86400"
  {
  }

  /** Format route: one format step, "png" when the parameter is absent or empty; the
      provider's answer is relayed unchanged. */
  lemma FormatRouteDefaults(inbound: Inbound, parseJson: ConfigParser, provider: Provider)
    requires inbound.request.verb != "OPTIONS" && inbound.request.path == FormatRoute
    ensures var q := inbound.request.query;
      var f := if "format" in q && q["format"] != "" then q["format"] else "png";
      var call := ProviderCall(inbound.request, Some([FormatAction(f)]));
      Dispatch(inbound, parseJson) == Forward(call, false) &&
      HandleRequest(inbound, parseJson, provider) == Complete(Forward(call, false), provider)
  {
  }

  /** The resize route's decision, stated through the parsed query parameters; with
      width, height and quality all given as decimals, the step carries those numbers,
      a zero width or height left out. */
  lemma ResizeDispatch(inbound: Inbound, parseJson: ConfigParser, w: nat, h: nat, p: nat)
    requires inbound.request.verb != "OPTIONS" && inbound.request.path == ResizeRoute
    ensures var q := inbound.request.query;
      Dispatch(inbound, parseJson) ==
        Forward(ProviderCall(inbound.request, Some([QueryResizeActions(q)[0]])), false)
    ensures var q := inbound.request.query;
      "width" in q && q["width"] == NatToDecimal(w) &&
      "height" in q && q["height"] == NatToDecimal(h) &&
      "quality" in q && q["quality"] == NatToDecimal(p) ==>
        Dispatch(inbound, parseJson) ==
          Forward(ProviderCall(inbound.request, Some([ResizeAction(Finite(p),
            if w == 0 then None else Some(Finite(w)),
            if h == 0 then None else Some(Finite(h)))])), false)
  {
    var q := inbound.request.query;
    ResizeQueryDefaults(q, w, h, p);
  }

  /** How one resize dimension parameter ends up in the action: sent only when it parses
      to a non-zero number; never sent when absent. */
  lemma ResizeDimension(q: map<string, string>, key: string, n: nat)
    ensures var v := QueryNumber(q, key, "");
      (key !in q ==> !v.Truthy()) &&
      (key in q && q[key] == NatToDecimal(n) ==> v.Truthy() == (n != 0) && v == Finite(n))
  {
    if key !in q {
      ParseIntEmpty();
    } else if q[key] == NatToDecimal(n) {
      ParseIntDecimal(n);
    }
  }

  /** The resize step a query string produces: width and height are sent only when
      they parse to a non-zero number, never when absent; quality is 90 when absent. */
  lemma ResizeQueryDefaults(q: map<string, string>, w: nat, h: nat, p: nat)
    ensures var a := QueryResizeActions(q)[0];
      a.ResizeAction? && a.Mode() == Some("custom") &&
      (a.fw.Some? ==> a.fw.value.Truthy()) && (a.fh.Some? ==> a.fh.value.Truthy()) &&
      ("width" !in q ==> a.fw.None?) && ("height" !in q ==> a.fh.None?) &&
      ("quality" !in q ==> a.p == Finite(90)) &&
      ("quality" in q && q["quality"] == NatToDecimal(p) ==> a.p == Finite(p)) &&
      ("width" in q && q["width"] == NatToDecimal(w) ==> a.fw == if w == 0 then None else Some(Finite(w))) &&
      ("height" in q && q["height"] == NatToDecimal(h) ==> a.fh == if h == 0 then None else Some(Finite(h)))
  {
    var wv, hv, pv := QueryNumber(q, "width", ""), QueryNumber(q, "height", ""), QueryNumber(q, "quality", "90");
    assert QueryResizeActions(q)[0] == SingleResize(wv, hv, pv);
    ResizeDimension(q, "width", w);
    ResizeDimension(q, "height", h);
    QualityParameter(q, p);
  }

  /** The resize quality: 90 when absent, the number itself when given in decimal. */
  lemma QualityParameter(q: map<string, string>, p: nat)
    ensures "quality" !in q ==> QueryNumber(q, "quality", "90") == Finite(90)
    ensures "quality" in q && q["quality"] == NatToDecimal(p) ==> QueryNumber(q, "quality", "90") == Finite(p)
  {
    if "quality" !in q {
      QualityDefault();
    } else if q["quality"] == NatToDecimal(p) {
      ParseIntDecimal(p);
    }
  }

  lemma QualityDefault()
    ensures ParseInt("90") == Finite(90)
  {
    assert NatToDecimal(90) == "90" by {
      assert NatToDecimal(9) == "9";
    }
    ParseIntDecimal(90);
  }

  /** Rotate route: angle 0 when absent. */
  lemma RotateDefault(inbound: Inbound, parseJson: ConfigParser)
    requires inbound.request.verb != "OPTIONS" && inbound.request.path == RotateRoute
    requires "angle" !in inbound.request.query
    ensures Dispatch(inbound, parseJson) == Forward(ProviderCall(inbound.request, Some([RotateAction(Finite(0))])), false)
  {
    var q := inbound.request.query;
    assert Dispatch(inbound, parseJson) == Forward(ProviderCall(inbound.request, Some(RotateActions(QueryAngle(q)))), false);
    AngleDefault(q);
  }

  lemma AngleDefault(q: map<string, string>)
    requires "angle" !in q
    ensures QueryAngle(q) == Finite(0)
  {
    assert QueryOr(q, "angle", "0") == "0";
    assert NatToDecimal(0) == "0";
    ParseIntDecimal(0);
  }

  /** Rotate route: an angle given in decimal, with or without a minus sign, is sent as
      that number. */
  lemma RotateAngleGiven(inbound: Inbound, parseJson: ConfigParser, n: nat)
    requires inbound.request.verb != "OPTIONS" && inbound.request.path == RotateRoute
    ensures var q := inbound.request.query;
      "angle" in q && q["angle"] == NatToDecimal(n) ==>
        Dispatch(inbound, parseJson) == Forward(ProviderCall(inbound.request, Some([RotateAction(Finite(n))])), false)
    ensures var q := inbound.request.query;
      "angle" in q && q["angle"] == "-" + NatToDecimal(n) ==>
        Dispatch(inbound, parseJson) == Forward(ProviderCall(inbound.request, Some([RotateAction(Finite(-(n as int)))])), false)
  {
    var q := inbound.request.query;
    assert Dispatch(inbound, parseJson) == Forward(ProviderCall(inbound.request, Some(RotateActions(QueryAngle(q)))), false);
    ParseIntDecimal(n);
  }

  /** Watermark route: a non-empty text parameter is the watermark's text. */
  lemma WatermarkTextGiven(inbound: Inbound, parseJson: ConfigParser)
    requires inbound.request.verb != "OPTIONS" && inbound.request.path == WatermarkRoute
    ensures var q := inbound.request.query;
      "text" in q && q["text"] != "" ==>
        Dispatch(inbound, parseJson) == Forward(ProviderCall(inbound.request, Some([Watermark(q["text"])])), false)
  {
  }

  /** Watermark route: the text "ImageProcess" when absent or empty. */
  lemma WatermarkDefault(inbound: Inbound, parseJson: ConfigParser)
    requires inbound.request.verb != "OPTIONS" && inbound.request.path == WatermarkRoute
    requires "text" !in inbound.request.query || inbound.request.query["text"] == ""
    ensures Dispatch(inbound, parseJson) ==
              Forward(ProviderCall(inbound.request, Some([WatermarkAction("ImageProcess", 16, "#ffffff80", 10, 10, 30)])), false)
  {
  }

  /** Single-operation routes relay the provider's response as it is. */
  lemma SingleRoutesRelayVerbatim(inbound: Inbound, parseJson: ConfigParser, provider: Provider)
    requires inbound.request.verb != "OPTIONS" && IsSingleRoute(inbound.request.path)
    ensures Dispatch(inbound, parseJson).Forward?
    ensures !Dispatch(inbound, parseJson).addAllowOrigin
    ensures Dispatch(inbound, parseJson).call.request == inbound.request
    ensures HandleRequest(inbound, parseJson, provider) == Complete(Forward(Dispatch(inbound, parseJson).call, false), provider)
  {
  }

  /** A composite request that is not multipart never carries a file: it is answered 400
      (or 500 when its JSON body cannot be read) and never reaches the provider. */
  lemma CompositeNotMultipartRejected(inbound: Inbound, parseJson: ConfigParser, p1: Provider, p2: Provider)
    requires inbound.request.verb != "OPTIONS" && inbound.request.path == CompositeRoute
    requires !Contains(ContentTypeOf(inbound.request), Multipart)
    ensures !Dispatch(inbound, parseJson).Forward?
    ensures HandleRequest(inbound, parseJson, p1) == HandleRequest(inbound, parseJson, p2)
    ensures inbound.asJson.Success? && inbound.asJson.value.Some? ==>
              HandleRequest(inbound, parseJson, p1) == Response(400,
                map["content-type" := "application/json", "access-control-allow-origin" := "*"],
                ErrorJson("请上传有效的图片文件"))
    ensures inbound.asJson.Failure? ==>
              HandleRequest(inbound, parseJson, p1) == JsonError(500, "处理失败：JSON解析失败：" + inbound.asJson.message)
    ensures inbound.asJson == Success(None) ==>
              HandleRequest(inbound, parseJson, p1) ==
                JsonError(500, "处理失败：JSON解析失败：" + NullPropertyMessage("config"))
  {
    if inbound.asJson.Failure? {
      var m := inbound.asJson.message;
      assert HandlerFailurePrefix + (JsonFailurePrefix + m) == "处理失败：JSON解析失败：" + m;
    } else if inbound.asJson == Success(None) {
      var m := NullPropertyMessage("config");
      assert HandlerFailurePrefix + (JsonFailurePrefix + m) == "处理失败：JSON解析失败：" + m;
    }
  }

  /** A multipart request without a usable file is answered 400 before any provider
      call, provided its config field parses. */
  lemma CompositeMissingFile(inbound: Inbound, parseJson: ConfigParser, p1: Provider, p2: Provider)
    requires inbound.request.verb != "OPTIONS" && inbound.request.path == CompositeRoute
    requires Contains(ContentTypeOf(inbound.request), Multipart)
    requires inbound.asForm.Success?
    requires var form := inbound.asForm.value; form.file.None? || !form.file.value.Truthy()
    requires var form := inbound.asForm.value;
      form.config.None? || !form.config.value.Truthy() || parseJson(form.config.value.AsText()).Success?
    ensures HandleRequest(inbound, parseJson, p1) == NoFile()
    ensures HandleRequest(inbound, parseJson, p1) == HandleRequest(inbound, parseJson, p2)
  {
  }

  /** A malformed config field is answered 500 with the nested error text and the
      Allow-Origin header, before any provider call. */
  lemma CompositeMalformedConfig(inbound: Inbound, parseJson: ConfigParser, p1: Provider, p2: Provider)
    requires inbound.request.verb != "OPTIONS" && inbound.request.path == CompositeRoute
    requires Contains(ContentTypeOf(inbound.request), Multipart)
    requires inbound.asForm.Success?
    requires var form := inbound.asForm.value; form.config.Some? && form.config.value.Truthy()
    requires parseJson(inbound.asForm.value.config.value.AsText()).Failure?
    ensures var m := parseJson(inbound.asForm.value.config.value.AsText()).message;
      HandleRequest(inbound, parseJson, p1) == JsonError(500, HandlerFailurePrefix + FormFailurePrefix + ConfigFailurePrefix + m)
    ensures HandleRequest(inbound, parseJson, p1) == HandleRequest(inbound, parseJson, p2)
    ensures HandleRequest(inbound, parseJson, p1).headers["access-control-allow-origin"] == "*"
  {
    var m := parseJson(inbound.asForm.value.config.value.AsText()).message;
    assert ParseFormData(inbound, parseJson) == Failure(FormFailurePrefix + ConfigFailurePrefix + m);
    assert Dispatch(inbound, parseJson) == Throw(FormFailurePrefix + ConfigFailurePrefix + m);
    assert HandlerFailurePrefix + (FormFailurePrefix + ConfigFailurePrefix + m) ==
           HandlerFailurePrefix + FormFailurePrefix + ConfigFailurePrefix + m;
  }

  /** The composite route's request to the provider: a POST to the same URL carrying
      only a non-empty Content-Type header. */
  lemma RewrapShape(r: HttpRequest, file: FormEntry)
    ensures var sent := Rewrap(r, file);
      sent.verb == "POST" && sent.path == r.path && sent.query == r.query &&
      sent.headers.Keys == {"content-type"} && sent.headers["content-type"] != "" &&
      (file.FileEntry? && file.mediaType != "" ==> sent.headers["content-type"] == file.mediaType) &&
      (file.TextEntry? || file.mediaType == "" ==> sent.headers["content-type"] == "image/jpeg") &&
      sent.body == (if file.FileEntry? then Bytes(file.data) else Text(file.text))
  {
  }

  /** A missing or empty config field counts as `{}`: the file is forwarded without an
      `image` option, as a POST typed by the file's media type. */
  lemma CompositeMissingConfig(inbound: Inbound, parseJson: ConfigParser)
    requires inbound.request.verb != "OPTIONS" && inbound.request.path == CompositeRoute
    requires Contains(ContentTypeOf(inbound.request), Multipart)
    requires inbound.asForm.Success?
    requires var form := inbound.asForm.value; form.file.Some? && form.file.value.Truthy()
    requires var form := inbound.asForm.value; form.config.None? || !form.config.value.Truthy()
    ensures var file := inbound.asForm.value.file.value;
      Dispatch(inbound, parseJson) == Forward(ProviderCall(Rewrap(inbound.request, file), None), true)
    ensures var sent := Dispatch(inbound, parseJson).call.request;
      sent.verb == "POST" && sent.path == inbound.request.path && sent.query == inbound.request.query &&
      sent.headers.Keys == {"content-type"} && sent.headers["content-type"] != ""
  {
    var file := inbound.asForm.value.file.value;
    assert ParseFormData(inbound, parseJson) == Success(Parsed(Some(file), Some(EmptyConfig)));
    assert ImageOption(CompositeActions(EmptyConfig)) == None by { EmptyConfigNoActions(); }
    assert Dispatch(inbound, parseJson) == CompositeDecision(inbound, parseJson);
    RewrapShape(inbound.request, file);
  }

  /** The top-level catch: whatever the handler throws, and whatever rejection the
      provider's fetch ends in, is answered 500 with "处理失败：" before the message and
      the Allow-Origin header; nothing else turns into an error reply. */
  lemma CaughtErrors(inbound: Inbound, parseJson: ConfigParser, provider: Provider)
    ensures var d := Dispatch(inbound, parseJson);
      d.Throw? ==> HandleRequest(inbound, parseJson, provider) == InternalError(d.message)
    ensures var d := Dispatch(inbound, parseJson);
      d.Forward? && provider(d.call).Failure? ==>
        HandleRequest(inbound, parseJson, provider) == InternalError(provider(d.call).message)
    ensures var d := Dispatch(inbound, parseJson);
      d.Forward? && provider(d.call).Success? ==> HandleRequest(inbound, parseJson, provider).status == provider(d.call).value.status
  {
  }

  /** A multipart body that cannot be read is answered 500 with both prefixes, before
      any provider call. */
  lemma CompositeFormFailure(inbound: Inbound, parseJson: ConfigParser, p1: Provider, p2: Provider)
    requires inbound.request.verb != "OPTIONS" && inbound.request.path == CompositeRoute
    requires Contains(ContentTypeOf(inbound.request), Multipart)
    requires inbound.asForm.Failure?
    ensures HandleRequest(inbound, parseJson, p1) ==
              JsonError(500, HandlerFailurePrefix + FormFailurePrefix + inbound.asForm.message)
    ensures HandleRequest(inbound, parseJson, p1) == HandleRequest(inbound, parseJson, p2)
  {
    var m := inbound.asForm.message;
    assert ParseFormData(inbound, parseJson) == Failure(FormFailurePrefix + m);
    assert Dispatch(inbound, parseJson) == Throw(FormFailurePrefix + m);
    assert HandlerFailurePrefix + (FormFailurePrefix + m) == HandlerFailurePrefix + FormFailurePrefix + m;
  }

  /** A config field holding JSON `null` parses, but reading `config.format` then throws
      a TypeError: 500 with that message, before any provider call. */
  lemma CompositeNullConfig(inbound: Inbound, parseJson: ConfigParser, p1: Provider, p2: Provider)
    requires inbound.request.verb != "OPTIONS" && inbound.request.path == CompositeRoute
    requires Contains(ContentTypeOf(inbound.request), Multipart)
    requires inbound.asForm.Success?
    requires var form := inbound.asForm.value; form.file.Some? && form.file.value.Truthy()
    requires var form := inbound.asForm.value; form.config.Some? && form.config.value.Truthy()
    requires parseJson(inbound.asForm.value.config.value.AsText()) == Success(None)
    ensures HandleRequest(inbound, parseJson, p1) ==
              JsonError(500, HandlerFailurePrefix + NullPropertyMessage("format"))
    ensures HandleRequest(inbound, parseJson, p1) == HandleRequest(inbound, parseJson, p2)
  {
    var file := inbound.asForm.value.file.value;
    assert ParseFormData(inbound, parseJson) == Success(Parsed(Some(file), None));
    assert Dispatch(inbound, parseJson) == Throw(NullPropertyMessage("format"));
  }

  /** parseFormData on a multipart body whose config field is present and parses:
      the `file` field and the parsed config, untouched. */
  lemma ParseFormDataMultipart(inbound: Inbound, parseJson: ConfigParser, c: Option<Config>)
    requires Contains(ContentTypeOf(inbound.request), Multipart)
    requires inbound.asForm.Success?
    requires var form := inbound.asForm.value; form.config.Some? && form.config.value.Truthy()
    requires parseJson(inbound.asForm.value.config.value.AsText()) == Success(c)
    ensures ParseFormData(inbound, parseJson) == Success(Parsed(inbound.asForm.value.file, c))
  {
  }

  /** The composite route's success path: a multipart upload with a file and a config
      that parses to an object is forwarded, re-wrapped, with that config's composite
      action list as its `image` option. */
  lemma CompositeForwardsConfig(inbound: Inbound, parseJson: ConfigParser, c: Config)
    requires inbound.request.verb != "OPTIONS" && inbound.request.path == CompositeRoute
    requires Contains(ContentTypeOf(inbound.request), Multipart)
    requires inbound.asForm.Success?
    requires var form := inbound.asForm.value; form.file.Some? && form.file.value.Truthy()
    requires var form := inbound.asForm.value; form.config.Some? && form.config.value.Truthy()
    requires parseJson(inbound.asForm.value.config.value.AsText()) == Success(Some(c))
    ensures var file := inbound.asForm.value.file.value;
      Dispatch(inbound, parseJson) ==
        Forward(ProviderCall(Rewrap(inbound.request, file), ImageOption(CompositeActions(c))), true)
  {
    ParseFormDataMultipart(inbound, parseJson, Some(c));
    assert Dispatch(inbound, parseJson) == CompositeDecision(inbound, parseJson);
  }

  /** Whenever the composite route reaches the provider, it sends the composite action
      list of the parsed config, and the provider's response comes back with the same
      status and body, its headers plus Allow-Origin "*". */
  lemma CompositeSuccess(inbound: Inbound, parseJson: ConfigParser, provider: Provider)
    requires inbound.request.verb != "OPTIONS" && inbound.request.path == CompositeRoute
    requires Dispatch(inbound, parseJson).Forward?
    ensures var parsed := ParseFormData(inbound, parseJson);
      parsed.Success? && parsed.value.file.Some? && parsed.value.config.Some? &&
      Dispatch(inbound, parseJson).call ==
        ProviderCall(Rewrap(inbound.request, parsed.value.file.value), ImageOption(CompositeActions(parsed.value.config.value)))
    ensures var call := Dispatch(inbound, parseJson).call;
      provider(call).Success? ==>
        var sent := provider(call).value;
        var r := HandleRequest(inbound, parseJson, provider);
        r.status == sent.status && r.body == sent.body &&
        r.headers.Keys == sent.headers.Keys + {"access-control-allow-origin"} &&
        r.headers["access-control-allow-origin"] == "*" &&
        forall k :: k in sent.headers && k != "access-control-allow-origin" ==> r.headers[k] == sent.headers[k]
  {
  }

  /** Any path that is not a route gets the 200 banner with the Allow-Origin header. */
  lemma UnmatchedPathBanner(inbound: Inbound, parseJson: ConfigParser, provider: Provider)
    requires inbound.request.verb != "OPTIONS"
    requires !IsSingleRoute(inbound.request.path) && inbound.request.path != CompositeRoute
    ensures var r := HandleRequest(inbound, parseJson, provider);
      r.status == 200 && r.body == Text("Image Process Edge Function") &&
      r.headers["access-control-allow-origin"] == "*"
  {
  }

  /** Every response except a provider response relayed by a single-operation route
      carries Allow-Origin "*", error replies included. */
  lemma AllowOriginEverywhere(inbound: Inbound, parseJson: ConfigParser, provider: Provider)
    ensures var r := HandleRequest(inbound, parseJson, provider);
      var d := Dispatch(inbound, parseJson);
      !(d.Forward? && !d.addAllowOrigin && provider(d.call).Success?) ==>
        AllowOrigin in r.headers && r.headers[AllowOrigin] == "*"
    ensures inbound.request.verb == "OPTIONS" || !IsSingleRoute(inbound.request.path) ==>
              var r := HandleRequest(inbound, parseJson, provider);
              AllowOrigin in r.headers && r.headers[AllowOrigin] == "*"
  {
  }
}

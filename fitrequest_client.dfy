/** The request side of `FitRequest`: how a call's endpoint, URL and query
    parameters are shaped before they are handed to the HTTP session, and how
    the session's response is turned into the value the call returns. The
    HTTP session itself is a scripted test double (`Server`): it answers
    requests from a fixed list of responses and records what it was sent. */
module FitRequestClient {
  import opened PyCore
  import MethodGenerator

  newtype byte = x: int | 0 <= x < 256

  /** A decoded JSON document (`response.json()`). Floats are not modelled. */
  datatype Json =
    | JNull
    | JBool(b: bool)
    | JInt(i: int)
    | JStr(s: string)
    | JArr(items: seq<Json>)
    | JObj(fields: map<string, Json>)

  /** `bool(j)` for a decoded JSON value. */
  predicate JTruthy(j: Json) {
    match j
    case JNull => false
    case JBool(b) => b
    case JInt(i) => i != 0
    case JStr(s) => s != ""
    case JArr(xs) => xs != []
    case JObj(m) => m != map[]
  }

  /** A parsed XML element (`defusedxml.ElementTree.fromstring`). */
  datatype XmlElement = XmlElement(tag: string, text: string, children: seq<XmlElement>)

  /** What `_handle_response` returns: a JSON document, a text, an element
      tree or the raw bytes. */
  datatype Body =
    | Structured(json: Json)
    | Text(text: string)
    | Tree(root: XmlElement)
    | Raw(bytes: seq<byte>)

  /** A response as the session hands it over. The decoders of `requests`,
      `orjson` and `defusedxml` are not modelled: their results are given as
      views of the response (`json`, `xml`), each of which may be a decoding
      error. */
  datatype HttpResponse = HttpResponse(
    headers: map<string, string>,
    content: seq<byte>,
    text: string,
    json: Result<Json>,
    xml: Result<XmlElement>)

  // -----------------------------------------------------------------------
  // Response dispatch (`_handle_response`).

  datatype Kind = JsonKind | TextKind | XmlKind | BytesKind

  /** The suffix tests on the `Content-Type` header, in the source's order. */
  function Classify(contentType: string): (k: Kind)
    ensures k == JsonKind <==> EndsWith(contentType, "json")
    ensures k == TextKind <==>
      !EndsWith(contentType, "json") && (EndsWith(contentType, "plain") || EndsWith(contentType, "html"))
    ensures k == XmlKind <==>
      !EndsWith(contentType, "json") && !EndsWith(contentType, "plain") && !EndsWith(contentType, "html")
      && EndsWith(contentType, "xml")
  {
    if EndsWith(contentType, "json") then JsonKind
    else if EndsWith(contentType, "plain") || EndsWith(contentType, "html") then TextKind
    else if EndsWith(contentType, "xml") then XmlKind
    else BytesKind
  }

  /** `response.headers.get('Content-Type', '')`. */
  function ContentType(r: HttpResponse): string {
    if "Content-Type" in r.headers then r.headers["Content-Type"] else ""
  }

  /** The body decoded according to its content type. */
  function HandleResponse(r: HttpResponse): (b: Result<Body>)
    ensures Classify(ContentType(r)) == JsonKind ==>
      b == (if r.json.Ok? then Ok(Structured(r.json.value)) else Err(DecodeError))
    ensures Classify(ContentType(r)) == TextKind ==> b == Ok(Text(r.text))
    ensures Classify(ContentType(r)) == XmlKind ==>
      b == (if r.xml.Ok? then Ok(Tree(r.xml.value)) else Err(DecodeError))
    ensures Classify(ContentType(r)) == BytesKind ==> b == Ok(Raw(r.content))
  {
    match Classify(ContentType(r))
    case JsonKind => if r.json.Ok? then Ok(Structured(r.json.value)) else Err(DecodeError)
    case TextKind => Ok(Text(r.text))
    case XmlKind => if r.xml.Ok? then Ok(Tree(r.xml.value)) else Err(DecodeError)
    case BytesKind => Ok(Raw(r.content))
  }

  /** A response without a `Content-Type` header is returned as raw bytes. */
  lemma MissingContentTypeIsBytes(r: HttpResponse)
    requires "Content-Type" !in r.headers
    ensures HandleResponse(r) == Ok(Raw(r.content))
  {
    assert ContentType(r) == "";
  }

  /** Any content type ending in `json` decodes as JSON, whatever precedes it. */
  lemma ClassifyJsonSuffix(s: string)
    ensures Classify(s + "json") == JsonKind
  {
    assert EndsWith(s + "json", "json") by {
      assert (s + "json")[|s + "json"| - 4..] == "json";
    }
  }

  /** `application/json` decodes as JSON. */
  lemma ClassifyJson()
    ensures Classify("application/json") == JsonKind
  {
    var s := "application/json";
    assert s[|s| - 4..] == "json";
  }

  /** `text/html` decodes as text. */
  lemma ClassifyHtml()
    ensures Classify("text/html") == TextKind
  {
    var s := "text/html";
    assert s[|s| - 4..] == "html";
    assert "html" != "json" by { assert "html"[0] != "json"[0]; }
  }

  /** `text/plain` decodes as text. */
  lemma ClassifyPlain()
    ensures Classify("text/plain") == TextKind
  {
    var s := "text/plain";
    assert s[|s| - 5..] == "plain";
    assert s[|s| - 4..] != "json" by { assert s[|s| - 4] != "json"[0]; }
  }

  /** `application/xml` decodes as XML. */
  lemma ClassifyXml()
    ensures Classify("application/xml") == XmlKind
  {
    var s := "application/xml";
    assert s[|s| - 3..] == "xml";
    assert s[|s| - 4..] != "json" by { assert s[|s| - 4] != "json"[0]; }
    assert s[|s| - 5..] != "plain" by { assert s[|s| - 5] != "plain"[0]; }
    assert s[|s| - 4..] != "html" by { assert s[|s| - 4] != "html"[0]; }
  }

  /** `application/octet-stream` is returned as raw bytes. */
  lemma ClassifyOctetStream()
    ensures Classify("application/octet-stream") == BytesKind
  {
    var s := "application/octet-stream";
    assert s[|s| - 4..] != "json" by { assert s[|s| - 4] != "json"[0]; }
    assert s[|s| - 5..] != "plain" by { assert s[|s| - 5] != "plain"[0]; }
    assert s[|s| - 4..] != "html" by { assert s[|s| - 4] != "html"[0]; }
    assert s[|s| - 3..] != "xml" by { assert s[|s| - 3] != "xml"[0]; }
  }

  /** `response[response_key] if isinstance(response, dict) and response_key
      else response`. */
  function UnwrapKey(body: Body, responseKey: Option<string>): (r: Result<Body>)
    ensures !(body.Structured? && body.json.JObj?) || !SomeText(responseKey) ==> r == Ok(body)
    ensures body.Structured? && body.json.JObj? && SomeText(responseKey) ==>
      (r.Ok? <==> responseKey.value in body.json.fields)
    ensures r.Ok? && body.Structured? && body.json.JObj? && SomeText(responseKey) ==>
      r.value == Structured(body.json.fields[responseKey.value])
    ensures r.Err? ==> r.error == KeyError(responseKey.value)
  {
    if body.Structured? && body.json.JObj? && SomeText(responseKey) then
      if responseKey.value in body.json.fields then Ok(Structured(body.json.fields[responseKey.value]))
      else Err(KeyError(responseKey.value))
    else Ok(body)
  }

  // -----------------------------------------------------------------------
  // Query parameters (`_transform_params`).

  /** One parameter value: a list becomes the comma-joined `str()` of its
      elements; every other value, a tuple included, is kept. */
  function TransformValue(v: Value): Value {
    if v.PyList? then PyStr(Join(",", seq(|v.items|, k requires 0 <= k < |v.items| => ToStr(v.items[k]))))
    else v
  }

  function TransformParams(params: map<string, Value>): (r: map<string, Value>)
    ensures r.Keys == params.Keys
    ensures forall k :: k in params ==> r[k] == TransformValue(params[k])
  {
    map k | k in params :: TransformValue(params[k])
  }

  /** `self._transform_params(params) if params else None`. */
  function SentParams(params: Option<map<string, Value>>): (r: Option<map<string, Value>>)
    ensures r.Some? <==> params.Some? && params.value != map[]
    ensures r.Some? ==> r.value == TransformParams(params.value)
  {
    if params.Some? && params.value != map[] then Some(TransformParams(params.value)) else None
  }

  /** After the transform no value is a list, so transforming again changes
      nothing. */
  lemma TransformParamsIdempotent(params: map<string, Value>)
    ensures TransformParams(TransformParams(params)) == TransformParams(params)
  {
    var once := TransformParams(params);
    forall k | k in once ensures TransformValue(once[k]) == once[k] {
    }
  }

  /** An empty list is sent as the empty string; a list of strings none of
      which holds a comma is sent as a text the server can split back into
      exactly those strings. */
  lemma TransformListRoundTrip(xs: seq<string>)
    requires forall k :: 0 <= k < |xs| ==> ',' !in xs[k]
    ensures TransformValue(PyList([])) == PyStr("")
    ensures xs != [] ==>
      var v := TransformValue(PyList(seq(|xs|, k requires 0 <= k < |xs| => PyStr(xs[k]))));
      v.PyStr? && Split(v.s, ",") == xs
  {
    if xs != [] {
      var items := seq(|xs|, k requires 0 <= k < |xs| => PyStr(xs[k]));
      var strs := seq(|items|, k requires 0 <= k < |items| => ToStr(items[k]));
      assert strs == xs;
      SplitJoinRoundTrip(xs, ',');
    }
  }

  // -----------------------------------------------------------------------
  // The endpoint and the URL.

  /** Which numbering the format string has used so far. */
  datatype Numbering = NoFields | Automatic | Manual

  predicate AllDigits(s: string) {
    s != [] && forall k :: 0 <= k < |s| ==> '0' <= s[k] <= '9'
  }

  /** Position of the first `}` in `s`, if any. */
  function CloseBrace(s: string): (r: Option<nat>)
    ensures r.Some? ==> r.value < |s| && s[r.value] == '}' && '}' !in s[..r.value]
    ensures r.None? ==> '}' !in s
  {
    if s == [] then None
    else if s[0] == '}' then Some(0)
    else match CloseBrace(s[1..])
      case None => None
      case Some(i) =>
        assert s[..i + 1] == [s[0]] + s[1..][..i];
        Some(i + 1)
  }

  /** `endpoint.format(resource_id)` with one positional argument, whose text
      is `arg`: `{{` and `}}` stand for braces, `{}` (automatic numbering) and
      `{0}` (manual numbering) for the argument; a second automatic field or a
      manual index other than 0 is an `IndexError`; mixing the two numberings,
      a lone `}`, an unclosed `{` or a `{` inside a field is a `ValueError`;
      a named field is a `KeyError`. */
  function Format(s: string, arg: string, used: Numbering): (r: Result<string>)
    decreases |s|
  {
    if s == [] then Ok("")
    else if s[0] == '{' && |s| >= 2 && s[1] == '{' then
      var rest :- Format(s[2..], arg, used); Ok("{" + rest)
    else if s[0] == '}' then
      if |s| >= 2 && s[1] == '}' then var rest :- Format(s[2..], arg, used); Ok("}" + rest)
      else Err(ValueError("Single '}' encountered in format string"))
    else if s[0] == '{' then
      match CloseBrace(s[1..])
      case None => Err(ValueError("expected '}' before end of string"))
      case Some(j) =>
        var field := s[1..][..j];
        var after := s[1..][j + 1..];
        if field == "" then
          if used == Manual then Err(ValueError("cannot switch from manual field specification to automatic field numbering"))
          else if used == Automatic then Err(IndexError)
          else var rest :- Format(after, arg, Automatic); Ok(arg + rest)
        else if '{' in field then Err(ValueError("unexpected '{' in field name"))
        else if AllDigits(field) then
          if used == Automatic then Err(ValueError("cannot switch from automatic field numbering to manual field specification"))
          else if forall k :: 0 <= k < |field| ==> field[k] == '0' then
            var rest :- Format(after, arg, Manual); Ok(arg + rest)
          else Err(IndexError)
        else Err(KeyError(field))
    else
      var rest :- Format(s[1..], arg, used); Ok([s[0]] + rest)
  }

  /** `endpoint.format(resource_id)`; an absent id formats as `None`. */
  function FillEndpoint(endpoint: string, resourceId: Value): Result<string> {
    Format(endpoint, ToStr(resourceId), NoFields)
  }

  /** An endpoint without braces is left as it is. */
  lemma {:induction false} FillWithoutBraces(s: string, arg: string, used: Numbering)
    requires '{' !in s && '}' !in s
    ensures Format(s, arg, used) == Ok(s)
    decreases |s|
  {
    if s != [] {
      FillWithoutBraces(s[1..], arg, used);
      assert [s[0]] + s[1..] == s;
    }
  }

  /** An endpoint with exactly one `{}` and no other brace has it replaced by
      the id. */
  lemma {:induction false} FillOnePlaceholder(a: string, b: string, arg: string)
    requires '{' !in a && '}' !in a && '{' !in b && '}' !in b
    ensures Format(a + "{}" + b, arg, NoFields) == Ok(a + arg + b)
    decreases |a|
  {
    var s := a + "{}" + b;
    if a == [] {
      assert s == "{}" + b;
      FillLeadingPlaceholder(b, arg);
      assert a + arg + b == arg + b;
    } else {
      assert s[1..] == a[1..] + "{}" + b;
      FillOnePlaceholder(a[1..], b, arg);
      assert [a[0]] + (a[1..] + arg + b) == a + arg + b;
    }
  }

  lemma FillLeadingPlaceholder(b: string, arg: string)
    requires '{' !in b && '}' !in b
    ensures Format("{}" + b, arg, NoFields) == Ok(arg + b)
  {
    var s := "{}" + b;
    assert s[0] == '{' && s[1] == '}';
    assert s[1..] == "}" + b;
    assert CloseBrace(s[1..]) == Some(0);
    assert s[1..][..0] == "";
    assert s[1..][1..] == b;
    FillWithoutBraces(b, arg, Automatic);
  }

  /** A second `{}` has no argument left to take. */
  lemma {:induction false} FillTwoPlaceholders(a: string, b: string, c: string, arg: string)
    requires '{' !in a && '}' !in a && '{' !in b && '}' !in b
    ensures Format(a + "{}" + b + "{}" + c, arg, NoFields) == Err(IndexError)
    decreases |a|
  {
    var s := a + "{}" + b + "{}" + c;
    if a == [] {
      assert s[1..] == "}" + b + "{}" + c;
      assert CloseBrace(s[1..]) == Some(0);
      assert s[1..][1..] == b + "{}" + c;
      SecondFieldFails(b, c, arg);
    } else {
      assert s[1..] == a[1..] + "{}" + b + "{}" + c;
      FillTwoPlaceholders(a[1..], b, c, arg);
    }
  }

  lemma {:induction false} SecondFieldFails(b: string, c: string, arg: string)
    requires '{' !in b && '}' !in b
    ensures Format(b + "{}" + c, arg, Automatic) == Err(IndexError)
    decreases |b|
  {
    var s := b + "{}" + c;
    if b == [] {
      assert s[1..] == "}" + c;
      assert CloseBrace(s[1..]) == Some(0);
    } else {
      assert s[1..] == b[1..] + "{}" + c;
      SecondFieldFails(b[1..], c, arg);
    }
  }

  /** What `_build_final_url` returns: the URL, or a `ValueError` object in
      place of one (it is returned, not raised). */
  datatype FinalUrl = Url(url: string) | UrlError(message: string)

  /** `f'{base_url}/{endpoint.lstrip("/")}'`, kept when `urlparse` finds a
      scheme and a host in it (`isValid`, which is not modelled). */
  function BuildFinalUrl(baseUrl: string, endpoint: string, isValid: string -> bool): FinalUrl {
    var url := baseUrl + "/" + LStrip(endpoint, '/');
    if isValid(url) then Url(url) else UrlError("Invalid URL: " + url)
  }

  /** However many slashes lead the endpoint, exactly one separates it from
      the base URL, and the rest of the endpoint is kept. */
  lemma {:induction false} FinalUrlStripsSlashes(baseUrl: string, slashes: nat, path: string, isValid: string -> bool)
    requires path == [] || path[0] != '/'
    requires isValid(baseUrl + "/" + path)
    ensures BuildFinalUrl(baseUrl, seq(slashes, _ => '/') + path, isValid) == Url(baseUrl + "/" + path)
    decreases slashes
  {
    var e := seq(slashes, _ => '/') + path;
    if slashes == 0 {
      assert e == path;
    } else {
      assert e[1..] == seq(slashes - 1, _ => '/') + path;
      FinalUrlStripsSlashes(baseUrl, slashes - 1, path, isValid);
    }
  }

  // -----------------------------------------------------------------------
  // The session (a scripted test double) and `_request`.

  /** What the session was asked to send. */
  datatype SentRequest = SentRequest(verb: MethodGenerator.RequestMethod, url: string, params: Option<map<string, Value>>)

  /** The responses still to be given, in order, and the requests received. */
  datatype Server = Server(script: seq<HttpResponse>, log: seq<SentRequest>)

  /** `session.request(...)`: the next scripted response, or a connection
      error once the script is exhausted. */
  function Send(server: Server, req: SentRequest): (r: (Result<HttpResponse>, Server))
    ensures r.0.Ok? <==> server.script != []
    ensures r.0.Ok? ==> r.0.value == server.script[0] && r.1 == Server(server.script[1..], server.log + [req])
    ensures r.0.Err? ==> r.1 == server
  {
    if server.script == [] then (Err(ConnectionError), server)
    else (Ok(server.script[0]), Server(server.script[1..], server.log + [req]))
  }

  /** The client's configuration: `base_url` and URL validity. */
  datatype Config = Config(baseUrl: string, isUrlValid: string -> bool)

  /** The keyword arguments `_request` reads. */
  datatype Call = Call(
    verb: MethodGenerator.RequestMethod,
    endpoint: string,
    params: Option<map<string, Value>>,
    resourceId: Value,
    responseKey: Option<string>)

  /** `FitRequest._request`: fill the endpoint, build the URL, send the
      request, decode the response, unwrap the response key. A failure before
      the request is sent leaves the server untouched. */
  function Execute(cfg: Config, server: Server, call: Call): (r: (Result<Body>, Server))
    ensures r.1 == server || (server.script != [] && r.1.script == server.script[1..] && |r.1.log| == |server.log| + 1)
    ensures r.0.Ok? ==> server.script != [] && r.1.script == server.script[1..]
    ensures FillEndpoint(call.endpoint, call.resourceId).Err? ==>
      r == (Err(FillEndpoint(call.endpoint, call.resourceId).error), server)
    ensures FillEndpoint(call.endpoint, call.resourceId).Ok? ==>
      var u := BuildFinalUrl(cfg.baseUrl, FillEndpoint(call.endpoint, call.resourceId).value, cfg.isUrlValid);
      u.UrlError? ==> r == (Err(InvalidUrl(u.message)), server)
    ensures FillEndpoint(call.endpoint, call.resourceId).Ok? && server.script == [] ==>
      r.0.Err? && r.1 == server
  {
    match FillEndpoint(call.endpoint, call.resourceId)
    case Err(e) => (Err(e), server)
    case Ok(endpoint) =>
      match BuildFinalUrl(cfg.baseUrl, endpoint, cfg.isUrlValid)
      case UrlError(msg) => (Err(InvalidUrl(msg)), server)
      case Url(url) =>
        var (resp, server') := Send(server, SentRequest(call.verb, url, SentParams(call.params)));
        if resp.Err? then (Err(resp.error), server')
        else
          var body := HandleResponse(resp.value);
          if body.Err? then (Err(body.error), server')
          else (UnwrapKey(body.value, call.responseKey), server')
  }

  /** A well-formed call to a valid URL sends exactly one request, carrying
      the filled URL and the shaped parameters, and returns the decoded,
      unwrapped first scripted response. */
  lemma ExecuteSends(cfg: Config, server: Server, call: Call)
    requires server.script != []
    requires FillEndpoint(call.endpoint, call.resourceId).Ok?
    requires BuildFinalUrl(cfg.baseUrl, FillEndpoint(call.endpoint, call.resourceId).value, cfg.isUrlValid).Url?
    ensures var url := BuildFinalUrl(cfg.baseUrl, FillEndpoint(call.endpoint, call.resourceId).value, cfg.isUrlValid).url;
      var r := Execute(cfg, server, call);
      && r.1 == Server(server.script[1..], server.log + [SentRequest(call.verb, url, SentParams(call.params))])
      && r.0 == (var b := HandleResponse(server.script[0]); if b.Err? then Err(b.error) else UnwrapKey(b.value, call.responseKey))
  {
  }
}

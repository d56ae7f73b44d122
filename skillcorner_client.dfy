/** The SkillCorner client on top of `FitRequest`: a paginated response (a
    dict with a `next` key) is followed link by link and replaced by the
    concatenation of its pages' `results`, and tracking data is checked
    against the accepted file formats and, as JSON Lines, decoded line by
    line. */
module SkillcornerClient {
  import opened PyCore
  import opened FitRequestClient
  import MethodGenerator

  /** `_is_response_complete`: anything but a dict with a `next` key. A
      `next` that is present but null still marks a paginated response. */
  predicate IsResponseComplete(response: Body) {
    !(response.Structured? && response.json.JObj?) || "next" !in response.json.fields
  }

  /** Text, XML, bytes and every JSON document other than an object are
      complete; an object is complete exactly when it has no `next` key,
      whatever else it holds and whatever `next` holds. */
  lemma CompleteUnlessNext(t: string, root: XmlElement, bytes: seq<byte>, j: Json,
                           fields: map<string, Json>, next: Json)
    ensures IsResponseComplete(Text(t))
    ensures IsResponseComplete(Tree(root))
    ensures IsResponseComplete(Raw(bytes))
    ensures !j.JObj? ==> IsResponseComplete(Structured(j))
    ensures IsResponseComplete(Structured(JObj(fields))) <==> "next" !in fields
    ensures !IsResponseComplete(Structured(JObj(fields["next" := next])))
  {
  }

  // -----------------------------------------------------------------------
  // Following the `next` links (`_paginate_and_return`).

  /** `response['next'].split(self.base_url)[1]`: the text between the first
      and the second occurrence of the base URL. */
  function NextEndpoint(next: Json, baseUrl: string): (r: Result<string>)
    ensures !next.JStr? ==> r == Err(AttributeError("split"))
    ensures next.JStr? && baseUrl == [] ==> r.Err? && r.error.ValueError?
    ensures next.JStr? && baseUrl != [] ==>
      (r.Ok? <==> IndexOf(next.s, baseUrl).Some?)
  {
    if !next.JStr? then Err(AttributeError("split"))
    else if baseUrl == [] then Err(ValueError("empty separator"))
    else
      var pieces := Split(next.s, baseUrl);
      if |pieces| < 2 then
        assert IndexOf(next.s, baseUrl).None?;
        Err(IndexError)
      else Ok(pieces[1])
  }

  /** A link made of the base URL followed by a path that does not repeat the
      base URL gives that path back. */
  lemma NextEndpointOfLink(baseUrl: string, path: string)
    requires baseUrl != []
    requires IndexOf(path, baseUrl).None?
    ensures NextEndpoint(JStr(baseUrl + path), baseUrl) == Ok(path)
  {
    var s := baseUrl + path;
    assert s[..|baseUrl|] == baseUrl;
    assert IndexOf(s, baseUrl) == Some(0);
    assert s[|baseUrl|..] == path;
    assert Split(s, baseUrl) == [""] + Split(path, baseUrl);
    assert Split(path, baseUrl) == [path];
  }

  /** `response['results']` as the list the loop extends with. */
  function PageResults(page: Body): (r: Result<seq<Json>>)
    ensures r.Ok? <==>
      page.Structured? && page.json.JObj? && "results" in page.json.fields
      && page.json.fields["results"].JArr?
    ensures r.Ok? ==> r.value == page.json.fields["results"].items
  {
    if !(page.Structured? && page.json.JObj?) then Err(TypeError("indices"))
    else if "results" !in page.json.fields then Err(KeyError("results"))
    else if !page.json.fields["results"].JArr? then Err(TypeError("results"))
    else Ok(page.json.fields["results"].items)
  }

  /** The call a follow-up request makes: the same keyword arguments, the
      endpoint taken from the link and no query parameters. */
  function FollowUp(call: Call, endpoint: string): Call {
    call.(endpoint := endpoint, params := None)
  }

  /** The loop as a recursion on the scripted responses left: the results so
      far, extended with this page's, then either returned (falsy `next`) or
      followed. */
  function Paginate(cfg: Config, server: Server, call: Call, acc: seq<Json>, page: Body): (r: (Result<seq<Json>>, Server))
    decreases |server.script|
  {
    match PageResults(page)
    case Err(e) => (Err(e), server)
    case Ok(items) =>
      var acc' := acc + items;
      var fields := page.json.fields;
      if "next" !in fields then (Err(KeyError("next")), server)
      else if !JTruthy(fields["next"]) then (Ok(acc'), server)
      else
        match NextEndpoint(fields["next"], cfg.baseUrl)
        case Err(e) => (Err(e), server)
        case Ok(endpoint) =>
          var (res, server') := Execute(cfg, server, FollowUp(call, endpoint));
          if res.Err? then (Err(res.error), server')
          else Paginate(cfg, server', call, acc', res.value)
  }

  /** `_paginate_and_return`: extend `results` with each page's results and
      fetch the page its `next` link names, until `next` is falsy. */
  method PaginateAndReturn(cfg: Config, server0: Server, call: Call, response0: Body)
    returns (r: Result<seq<Json>>, server: Server)
    ensures (r, server) == Paginate(cfg, server0, call, [], response0)
  {
    var results: seq<Json> := [];
    var response := response0;
    server := server0;
    while true
      invariant Paginate(cfg, server, call, results, response) == Paginate(cfg, server0, call, [], response0)
      decreases |server.script|
    {
      var items := PageResults(response);
      if items.Err? {
        return Err(items.error), server;
      }
      results := results + items.value;
      var fields := response.json.fields;
      if "next" !in fields {
        return Err(KeyError("next")), server;
      }
      if !JTruthy(fields["next"]) {
        break;
      }
      var endpoint := NextEndpoint(fields["next"], cfg.baseUrl);
      if endpoint.Err? {
        return Err(endpoint.error), server;
      }
      var (res, server') := Execute(cfg, server, FollowUp(call, endpoint.value));
      if res.Err? {
        return Err(res.error), server';
      }
      response := res.value;
      server := server';
    }
    return Ok(results), server;
  }

  // -----------------------------------------------------------------------
  // A chain of pages, as a server that serves them would return them.

  /** A JSON response carrying `j`. */
  function JsonResponse(j: Json): HttpResponse {
    HttpResponse(map["Content-Type" := "application/json"], [], "", Ok(j), Err(DecodeError))
  }

  /** Page `k` of a chain: its results, and a link to the next page built from
      `paths[k]`, or a null link on the last page. */
  function ChainPage(baseUrl: string, pages: seq<seq<Json>>, paths: seq<string>, k: nat): Json
    requires k < |pages|
  {
    JObj(map["results" := JArr(pages[k]),
             "next" := if k < |paths| then JStr(baseUrl + paths[k]) else JNull])
  }

  /** The responses a server gives for pages `1..` of the chain. */
  function ChainScript(baseUrl: string, pages: seq<seq<Json>>, paths: seq<string>): (r: seq<HttpResponse>)
    requires |pages| == |paths| + 1
    ensures |r| == |paths|
    decreases |paths|
  {
    if paths == [] then []
    else [JsonResponse(ChainPage(baseUrl, pages[1..], paths[1..], 0))] + ChainScript(baseUrl, pages[1..], paths[1..])
  }

  /** `results` of every page, in chain order. */
  function Flatten(pages: seq<seq<Json>>): seq<Json> {
    if pages == [] then [] else pages[0] + Flatten(pages[1..])
  }

  /** The follow-up requests: one per link, to the URL built from the link's
      path, without query parameters. */
  function FollowUps(baseUrl: string, verb: MethodGenerator.RequestMethod, paths: seq<string>): (r: seq<SentRequest>)
    ensures |r| == |paths|
  {
    if paths == [] then []
    else [SentRequest(verb, baseUrl + "/" + LStrip(paths[0], '/'), None)] + FollowUps(baseUrl, verb, paths[1..])
  }

  /** What a chain needs for every link to be followed: the base URL occurs in
      no path, no path holds a brace, every URL is valid, and there is no
      response key to unwrap. */
  predicate Followable(cfg: Config, call: Call, paths: seq<string>) {
    && cfg.baseUrl != []
    && !SomeText(call.responseKey)
    && forall k :: 0 <= k < |paths| ==>
         && IndexOf(paths[k], cfg.baseUrl).None?
         && '{' !in paths[k] && '}' !in paths[k]
         && cfg.isUrlValid(cfg.baseUrl + "/" + LStrip(paths[k], '/'))
  }

  /** A JSON response decodes to its document. */
  lemma JsonResponseDecodes(j: Json)
    ensures HandleResponse(JsonResponse(j)) == Ok(Structured(j))
  {
    ClassifyJson();
  }

  /** Following one link of a followable chain: one request, to the URL built
      from the link's path, without parameters, answered by the next page. */
  lemma FollowOneLink(cfg: Config, server: Server, call: Call, path: string, j: Json)
    requires server.script != [] && server.script[0] == JsonResponse(j)
    requires !SomeText(call.responseKey)
    requires '{' !in path && '}' !in path
    requires cfg.isUrlValid(cfg.baseUrl + "/" + LStrip(path, '/'))
    ensures Execute(cfg, server, FollowUp(call, path))
      == (Ok(Structured(j)),
          Server(server.script[1..], server.log + [SentRequest(call.verb, cfg.baseUrl + "/" + LStrip(path, '/'), None)]))
  {
    FillWithoutBraces(path, ToStr(call.resourceId), NoFields);
    JsonResponseDecodes(j);
    ExecuteSends(cfg, server, FollowUp(call, path));
  }

  /** A page whose `next` is null ends the loop with its results appended. */
  lemma PaginateLastPage(cfg: Config, server: Server, call: Call, acc: seq<Json>, page: Body, items: seq<Json>)
    requires PageResults(page) == Ok(items)
    requires "next" in page.json.fields && page.json.fields["next"] == JNull
    ensures Paginate(cfg, server, call, acc, page) == (Ok(acc + items), server)
  {
  }

  /** A page whose `next` links to `path` appends its results and continues
      with the response to the follow-up request. */
  lemma PaginateFollowsLink(cfg: Config, server: Server, call: Call, acc: seq<Json>, page: Body, items: seq<Json>,
                            path: string, next: Body, server': Server)
    requires PageResults(page) == Ok(items)
    requires cfg.baseUrl != []
    requires "next" in page.json.fields && page.json.fields["next"] == JStr(cfg.baseUrl + path)
    requires NextEndpoint(JStr(cfg.baseUrl + path), cfg.baseUrl) == Ok(path)
    requires Execute(cfg, server, FollowUp(call, path)) == (Ok(next), server')
    ensures Paginate(cfg, server, call, acc, page) == Paginate(cfg, server', call, acc + items, next)
  {
    assert JTruthy(page.json.fields["next"]);
  }

  /** What the loop reads of page `k`: its results and its link. */
  lemma ChainPageReads(baseUrl: string, pages: seq<seq<Json>>, paths: seq<string>, k: nat)
    requires k < |pages|
    ensures var page := Structured(ChainPage(baseUrl, pages, paths, k));
      && PageResults(page) == Ok(pages[k])
      && "next" in page.json.fields
      && page.json.fields["next"] == if k < |paths| then JStr(baseUrl + paths[k]) else JNull
  {
    var fields := ChainPage(baseUrl, pages, paths, k).fields;
    assert "results" in fields && fields["results"] == JArr(pages[k]);
  }

  /** The script of a chain of two or more pages starts with page 1, followed
      by the script of the chain that starts there. */
  lemma ChainScriptCons(baseUrl: string, pages: seq<seq<Json>>, paths: seq<string>)
    requires |pages| == |paths| + 1 && |pages| >= 2
    ensures ChainScript(baseUrl, pages, paths)
      == [JsonResponse(ChainPage(baseUrl, pages[1..], paths[1..], 0))] + ChainScript(baseUrl, pages[1..], paths[1..])
  {
  }

  lemma FollowUpsCons(baseUrl: string, verb: MethodGenerator.RequestMethod, paths: seq<string>)
    requires paths != []
    ensures FollowUps(baseUrl, verb, paths)
      == [SentRequest(verb, baseUrl + "/" + LStrip(paths[0], '/'), None)] + FollowUps(baseUrl, verb, paths[1..])
  {
  }

  lemma FollowableTail(cfg: Config, call: Call, paths: seq<string>)
    requires paths != [] && Followable(cfg, call, paths)
    ensures Followable(cfg, call, paths[1..])
    ensures IndexOf(paths[0], cfg.baseUrl).None? && '{' !in paths[0] && '}' !in paths[0]
    ensures cfg.isUrlValid(cfg.baseUrl + "/" + LStrip(paths[0], '/'))
  {
    forall k | 0 <= k < |paths| - 1 ensures paths[1..][k] == paths[k + 1] { }
  }

  lemma AppendAssoc<T>(a: seq<T>, b: seq<T>, c: seq<T>)
    ensures a + b + c == a + (b + c)
  {
  }

  /** The last page of a chain ends pagination without a request. */
  lemma ChainLast(cfg: Config, server: Server, call: Call, acc: seq<Json>,
                  pages: seq<seq<Json>>, paths: seq<string>, rest: seq<HttpResponse>)
    requires |pages| == 1 && paths == []
    requires server.script == ChainScript(cfg.baseUrl, pages, paths) + rest
    ensures Paginate(cfg, server, call, acc, Structured(ChainPage(cfg.baseUrl, pages, paths, 0)))
      == (Ok(acc + Flatten(pages)), Server(rest, server.log + FollowUps(cfg.baseUrl, call.verb, paths)))
  {
    var page := Structured(ChainPage(cfg.baseUrl, pages, paths, 0));
    ChainPageReads(cfg.baseUrl, pages, paths, 0);
    PaginateLastPage(cfg, server, call, acc, page, pages[0]);
    assert ChainScript(cfg.baseUrl, pages, paths) == [];
    assert server.script == rest;
    assert pages[1..] == [];
    assert Flatten(pages) == pages[0];
    assert FollowUps(cfg.baseUrl, call.verb, paths) == [];
    assert server.log + [] == server.log;
  }

  /** The first page of a longer chain links to the second, which the
      server returns next; the rest of the chain is followable. */
  lemma ChainScriptStep(baseUrl: string, pages: seq<seq<Json>>, paths: seq<string>, script: seq<HttpResponse>,
                        rest: seq<HttpResponse>)
    requires |pages| == |paths| + 1 && |pages| >= 2
    requires script == ChainScript(baseUrl, pages, paths) + rest
    ensures script != [] && script[0] == JsonResponse(ChainPage(baseUrl, pages[1..], paths[1..], 0))
    ensures script[1..] == ChainScript(baseUrl, pages[1..], paths[1..]) + rest
  {
    var head := JsonResponse(ChainPage(baseUrl, pages[1..], paths[1..], 0));
    var tail := ChainScript(baseUrl, pages[1..], paths[1..]);
    ChainScriptCons(baseUrl, pages, paths);
    assert script == [head] + (tail + rest);
  }

  /** Following the link of the first page of a longer chain. */
  lemma ChainStep(cfg: Config, server: Server, call: Call, acc: seq<Json>,
                  pages: seq<seq<Json>>, paths: seq<string>)
    requires |pages| == |paths| + 1 && |pages| >= 2
    requires cfg.baseUrl != [] && !SomeText(call.responseKey)
    requires IndexOf(paths[0], cfg.baseUrl).None? && '{' !in paths[0] && '}' !in paths[0]
    requires cfg.isUrlValid(cfg.baseUrl + "/" + LStrip(paths[0], '/'))
    requires server.script != [] && server.script[0] == JsonResponse(ChainPage(cfg.baseUrl, pages[1..], paths[1..], 0))
    ensures Paginate(cfg, server, call, acc, Structured(ChainPage(cfg.baseUrl, pages, paths, 0)))
      == Paginate(cfg, Server(server.script[1..], server.log + [SentRequest(call.verb, cfg.baseUrl + "/" + LStrip(paths[0], '/'), None)]),
                  call, acc + pages[0], Structured(ChainPage(cfg.baseUrl, pages[1..], paths[1..], 0)))
  {
    var path := paths[0];
    var page := Structured(ChainPage(cfg.baseUrl, pages, paths, 0));
    var next := ChainPage(cfg.baseUrl, pages[1..], paths[1..], 0);
    var server' := Server(server.script[1..], server.log + [SentRequest(call.verb, cfg.baseUrl + "/" + LStrip(path, '/'), None)]);
    FollowOneLink(cfg, server, call, path, next);
    ChainPageReads(cfg.baseUrl, pages, paths, 0);
    NextEndpointOfLink(cfg.baseUrl, path);
    PaginateFollowsLink(cfg, server, call, acc, page, pages[0], path, Structured(next), server');
  }

  /** Pagination over a chain returns every page's results in chain order,
      starting with the first page, and sends exactly one follow-up request per
      page after the first, each without query parameters, consuming one
      scripted response each. */
  lemma {:induction false} PaginateFollowsChain(cfg: Config, server: Server, call: Call, acc: seq<Json>,
                                                pages: seq<seq<Json>>, paths: seq<string>, rest: seq<HttpResponse>)
    requires |pages| == |paths| + 1
    requires Followable(cfg, call, paths)
    requires server.script == ChainScript(cfg.baseUrl, pages, paths) + rest
    ensures Paginate(cfg, server, call, acc, Structured(ChainPage(cfg.baseUrl, pages, paths, 0)))
      == (Ok(acc + Flatten(pages)), Server(rest, server.log + FollowUps(cfg.baseUrl, call.verb, paths)))
    decreases |pages|
  {
    if |pages| == 1 {
      ChainLast(cfg, server, call, acc, pages, paths, rest);
    } else {
      var sent := SentRequest(call.verb, cfg.baseUrl + "/" + LStrip(paths[0], '/'), None);
      var server' := Server(server.script[1..], server.log + [sent]);
      ChainScriptStep(cfg.baseUrl, pages, paths, server.script, rest);
      FollowableTail(cfg, call, paths);
      ChainStep(cfg, server, call, acc, pages, paths);
      PaginateFollowsChain(cfg, server', call, acc + pages[0], pages[1..], paths[1..], rest);
      FollowUpsCons(cfg.baseUrl, call.verb, paths);
      AppendAssoc(server.log, [sent], FollowUps(cfg.baseUrl, call.verb, paths[1..]));
      AppendAssoc(acc, pages[0], Flatten(pages[1..]));
    }
  }

  // -----------------------------------------------------------------------
  // `SkillcornerClient._request`.

  /** The response of the base request, or, when it is paginated, the list of
      every page's results in its place. */
  function Request(cfg: Config, server: Server, call: Call): (Result<Body>, Server) {
    var (first, server1) := Execute(cfg, server, call);
    if first.Err? || IsResponseComplete(first.value) then (first, server1)
    else
      var (pages, server2) := Paginate(cfg, server1, call, [], first.value);
      if pages.Err? then (Err(pages.error), server2) else (Ok(Structured(JArr(pages.value))), server2)
  }

  /** A failed base request, or a response that is not a dict with a `next`
      key, is returned as it is, after exactly that one request. */
  lemma RequestReturnsComplete(cfg: Config, server: Server, call: Call)
    requires Execute(cfg, server, call).0.Err? || IsResponseComplete(Execute(cfg, server, call).0.value)
    ensures Request(cfg, server, call) == Execute(cfg, server, call)
  {
  }

  /** The first page of a chain is a paginated response. */
  lemma ChainStartsPaginated(baseUrl: string, pages: seq<seq<Json>>, paths: seq<string>)
    requires |pages| == |paths| + 1
    ensures !IsResponseComplete(Structured(ChainPage(baseUrl, pages, paths, 0)))
  {
    ChainPageReads(baseUrl, pages, paths, 0);
  }

  /** Pagination from the first page of a followable chain gathers the whole
      chain. */
  lemma ChainFromStart(cfg: Config, server1: Server, call: Call,
                       pages: seq<seq<Json>>, paths: seq<string>, rest: seq<HttpResponse>)
    requires |pages| == |paths| + 1
    requires Followable(cfg, call, paths)
    requires server1.script == ChainScript(cfg.baseUrl, pages, paths) + rest
    ensures Paginate(cfg, server1, call, [], Structured(ChainPage(cfg.baseUrl, pages, paths, 0)))
      == (Ok(Flatten(pages)), Server(rest, server1.log + FollowUps(cfg.baseUrl, call.verb, paths)))
  {
    EmptyAppend(Flatten(pages));
    PaginateFollowsChain(cfg, server1, call, [], pages, paths, rest);
  }

  lemma EmptyAppend<T>(x: seq<T>)
    ensures [] + x == x
  {
  }

  /** A call whose response is the first page of a followable chain returns
      the list of every page's results, in chain order, in place of that
      page, after one follow-up request per further page. */
  lemma RequestFollowsChain(cfg: Config, server: Server, call: Call, server1: Server,
                            pages: seq<seq<Json>>, paths: seq<string>, rest: seq<HttpResponse>)
    requires |pages| == |paths| + 1
    requires Followable(cfg, call, paths)
    requires Execute(cfg, server, call) == (Ok(Structured(ChainPage(cfg.baseUrl, pages, paths, 0))), server1)
    requires server1.script == ChainScript(cfg.baseUrl, pages, paths) + rest
    ensures Request(cfg, server, call)
      == (Ok(Structured(JArr(Flatten(pages)))), Server(rest, server1.log + FollowUps(cfg.baseUrl, call.verb, paths)))
  {
    ChainStartsPaginated(cfg.baseUrl, pages, paths);
    ChainFromStart(cfg, server1, call, pages, paths, rest);
  }

  // -----------------------------------------------------------------------
  // Tracking data (`_get_tracking_data`).

  /** The accepted values of the `file_format` parameter. */
  const ValidFormats: seq<Value> := [PyStr("jsonl"), PyStr("fifa-data"), PyStr("fifa-xml")]

  /** `params.get('file_format', 'jsonl')`. */
  function FileFormat(params: map<string, Value>): Value {
    DictGet(params, "file_format", PyStr("jsonl"))
  }

  /** `bool(params)`. */
  predicate ParamsGiven(params: Option<map<string, Value>>) {
    params.Some? && params.value != map[]
  }

  /** The format check, made before any request is sent. */
  function CheckFormat(params: Option<map<string, Value>>): (r: Result<()>)
    ensures r.Ok? <==> !ParamsGiven(params) || FileFormat(params.value) in ValidFormats
    ensures r.Err? ==> r.error.ValueError?
  {
    if ParamsGiven(params) && FileFormat(params.value) !in ValidFormats then
      Err(ValueError("Unknown file format `" + ToStr(params.value["file_format"])
                     + "`, valid formats are: " + ToStr(PyList(ValidFormats))))
    else Ok(())
  }

  /** Position of the first line break in `s`, if any. */
  function FirstBreak<T>(s: seq<T>, isBreak: T -> bool): (r: Option<nat>)
    ensures r.Some? ==> r.value < |s| && isBreak(s[r.value]) && forall k :: 0 <= k < r.value ==> !isBreak(s[k])
    ensures r.None? ==> forall k :: 0 <= k < |s| ==> !isBreak(s[k])
  {
    if s == [] then None
    else if isBreak(s[0]) then Some(0)
    else match FirstBreak(s[1..], isBreak)
      case None => None
      case Some(i) => Some(i + 1)
  }

  /** `splitlines()`: the lines without their terminators; `\r\n` is one
      terminator; a final terminator does not start an empty line. */
  function SplitLines<T(==)>(s: seq<T>, isBreak: T -> bool, cr: T, lf: T): (r: seq<seq<T>>)
    ensures s == [] ==> r == []
    ensures forall j :: 0 <= j < |r| ==> forall k :: 0 <= k < |r[j]| ==> !isBreak(r[j][k])
    decreases |s|
  {
    match FirstBreak(s, isBreak)
    case None => if s == [] then [] else [s]
    case Some(i) =>
      var width := if s[i] == cr && i + 1 < |s| && s[i + 1] == lf then 2 else 1;
      [s[..i]] + SplitLines(s[i + width..], isBreak, cr, lf)
  }

  /** Each line followed by `lf`. */
  function JoinLines<T>(lines: seq<seq<T>>, lf: T): seq<T> {
    if lines == [] then [] else lines[0] + [lf] + JoinLines(lines[1..], lf)
  }

  /** Splitting a text made of lines each ended by `\n` gives back the lines. */
  lemma {:induction false} SplitJoinLines<T>(lines: seq<seq<T>>, isBreak: T -> bool, cr: T, lf: T)
    requires isBreak(lf) && cr != lf
    requires forall j :: 0 <= j < |lines| ==> forall k :: 0 <= k < |lines[j]| ==> !isBreak(lines[j][k])
    ensures SplitLines(JoinLines(lines, lf), isBreak, cr, lf) == lines
    decreases |lines|
  {
    if lines != [] {
      var s := JoinLines(lines, lf);
      var l := lines[0];
      assert s == l + [lf] + JoinLines(lines[1..], lf);
      assert s[|l|] == lf;
      assert forall k :: 0 <= k < |l| ==> s[k] == l[k];
      assert FirstBreak(s, isBreak) == Some(|l|);
      assert s[..|l|] == l;
      assert s[|l| + 1..] == JoinLines(lines[1..], lf);
      SplitJoinLines(lines[1..], isBreak, cr, lf);
      assert [l] + lines[1..] == lines;
    }
  }

  /** The line boundaries of `str.splitlines`. */
  predicate StrBreak(c: char) {
    c in {'\n', '\r', '\U{B}', '\U{C}', '\U{1C}', '\U{1D}', '\U{1E}', '\U{85}', '\U{2028}', '\U{2029}'}
  }

  /** The line boundaries of `bytes.splitlines`. */
  predicate ByteBreak(b: byte) {
    b == 10 || b == 13
  }

  /** `[orjson.loads(line) for line in lines]`; the first line that does not
      decode raises. */
  function LoadAll<T>(lines: seq<T>, loads: T -> Result<Json>): (r: Result<seq<Json>>)
    ensures r.Ok? <==> forall k :: 0 <= k < |lines| ==> loads(lines[k]).Ok?
    ensures r.Ok? ==> |r.value| == |lines| && forall k :: 0 <= k < |lines| ==> r.value[k] == loads(lines[k]).value
  {
    if lines == [] then Ok([])
    else
      var first :- loads(lines[0]);
      var rest :- LoadAll(lines[1..], loads);
      Ok([first] + rest)
  }

  /** What `_get_tracking_data` returns: the decoded records, the data as
      received, or nothing (the branch the format check makes unreachable). */
  datatype Tracking = Records(records: seq<Json>) | Data(body: Body) | Nothing

  /** The decoders of one JSON document per line. */
  datatype LineDecoders = LineDecoders(text: string -> Result<Json>, bytes: seq<byte> -> Result<Json>)

  /** The records of a JSON Lines body, one per line, in line order. The
      body is a `str` when the response was text or a JSON document that is
      a string, and `bytes` when it was raw; anything else (a decoded list,
      dict, number, boolean or `None`, or an XML element) has no
      `splitlines`. */
  function DecodeLines(data: Body, decoders: LineDecoders): Result<seq<Json>> {
    match data
    case Text(t) => LoadAll(SplitLines(t, StrBreak, '\r', '\n'), decoders.text)
    case Structured(JStr(t)) => LoadAll(SplitLines(t, StrBreak, '\r', '\n'), decoders.text)
    case Raw(bs) => LoadAll(SplitLines(bs, ByteBreak, 13 as byte, 10 as byte), decoders.bytes)
    case _ => Err(AttributeError("splitlines"))
  }

  /** Whether a body is a Python `str` or `bytes`, the two types with
      `splitlines`. */
  predicate HasSplitLines(data: Body) {
    data.Text? || data.Raw? || (data.Structured? && data.json.JStr?)
  }

  /** A JSON document that is a string is split and decoded exactly as a
      text body with the same characters, and succeeds exactly when every
      line decodes; a body that is neither `str` nor `bytes` fails with
      `AttributeError` before any line is decoded. */
  lemma DecodeLinesByType(data: Body, decoders: LineDecoders)
    ensures data.Structured? && data.json.JStr? ==>
      DecodeLines(data, decoders) == DecodeLines(Text(data.json.s), decoders)
    ensures data.Structured? && data.json.JStr? ==>
      (DecodeLines(data, decoders).Ok? <==>
         forall line :: line in SplitLines(data.json.s, StrBreak, '\r', '\n') ==> decoders.text(line).Ok?)
    ensures !HasSplitLines(data) ==> DecodeLines(data, decoders) == Err(AttributeError("splitlines"))
  {
    if data.Structured? && data.json.JStr? {
      var lines := SplitLines(data.json.s, StrBreak, '\r', '\n');
      assert DecodeLines(data, decoders) == LoadAll(lines, decoders.text);
      assert (forall k :: 0 <= k < |lines| ==> decoders.text(lines[k]).Ok?)
        <==> (forall line :: line in lines ==> decoders.text(line).Ok?);
    }
  }

  /** A text body made of lines, each ended by `\n`, decodes to one record
      per line, in line order. */
  lemma DecodeJoinedText(lines: seq<string>, decoders: LineDecoders)
    requires forall j :: 0 <= j < |lines| ==> forall k :: 0 <= k < |lines[j]| ==> !StrBreak(lines[j][k])
    requires forall j :: 0 <= j < |lines| ==> decoders.text(lines[j]).Ok?
    ensures var r := DecodeLines(Text(JoinLines(lines, '\n')), decoders);
      && r.Ok?
      && |r.value| == |lines|
      && forall j :: 0 <= j < |lines| ==> r.value[j] == decoders.text(lines[j]).value
  {
    SplitJoinLines(lines, StrBreak, '\r', '\n');
  }

  /** The same holds when `response.json()` gave a string holding JSON
      Lines: it is split and decoded per line, not rejected. */
  lemma DecodeJoinedJsonString(lines: seq<string>, decoders: LineDecoders)
    requires forall j :: 0 <= j < |lines| ==> forall k :: 0 <= k < |lines[j]| ==> !StrBreak(lines[j][k])
    requires forall j :: 0 <= j < |lines| ==> decoders.text(lines[j]).Ok?
    ensures var r := DecodeLines(Structured(JStr(JoinLines(lines, '\n'))), decoders);
      && r.Ok?
      && |r.value| == |lines|
      && forall j :: 0 <= j < |lines| ==> r.value[j] == decoders.text(lines[j]).value
  {
    DecodeJoinedText(lines, decoders);
  }

  function GetTrackingData(cfg: Config, server: Server, call: Call, decoders: LineDecoders): (r: (Result<Tracking>, Server))
    ensures CheckFormat(call.params).Err? ==> r == (Err(CheckFormat(call.params).error), server)
    ensures CheckFormat(call.params).Ok? ==>
      var sent := Request(cfg, server, call);
      var data := sent.0;
      && r.1 == sent.1
      && (data.Err? ==> r.0 == Err(data.error))
      && (data.Ok? && (!ParamsGiven(call.params) || FileFormat(call.params.value) == PyStr("jsonl")) ==>
            r.0 == (var recs := DecodeLines(data.value, decoders); if recs.Err? then Err(recs.error) else Ok(Records(recs.value))))
      && (data.Ok? && ParamsGiven(call.params) && FileFormat(call.params.value) in [PyStr("fifa-data"), PyStr("fifa-xml")] ==>
            r.0 == Ok(Data(data.value)))
    ensures r.0.Ok? ==> !r.0.value.Nothing?
  {
    match CheckFormat(call.params)
    case Err(e) => (Err(e), server)
    case Ok(_) =>
      var sent := Request(cfg, server, call);
      (ShapeTracking(sent.0, call.params, decoders), sent.1)
  }

  /** What the tracking-data call makes of the response, by format. */
  function ShapeTracking(data: Result<Body>, params: Option<map<string, Value>>, decoders: LineDecoders): (t: Result<Tracking>)
    ensures data.Err? ==> t == Err(data.error)
    ensures data.Ok? && (!ParamsGiven(params) || FileFormat(params.value) == PyStr("jsonl")) ==>
      t == (var recs := DecodeLines(data.value, decoders); if recs.Err? then Err(recs.error) else Ok(Records(recs.value)))
    ensures data.Ok? && ParamsGiven(params) && FileFormat(params.value) in [PyStr("fifa-data"), PyStr("fifa-xml")] ==>
      t == Ok(Data(data.value))
    ensures t.Ok? && t.value.Nothing? ==> ParamsGiven(params) && FileFormat(params.value) !in ValidFormats
  {
    if data.Err? then Err(data.error)
    else if !ParamsGiven(params) || FileFormat(params.value) == PyStr("jsonl") then
      var recs := DecodeLines(data.value, decoders);
      if recs.Err? then Err(recs.error) else Ok(Records(recs.value))
    else if FileFormat(params.value) in [PyStr("fifa-data"), PyStr("fifa-xml")] then
      Ok(Data(data.value))
    else
      Ok(Nothing)
  }
}

/** The method binder of `fitrequest`: a client type's table of binding dicts
    is expanded (each binding followed by an optional `save_` sibling), every
    resulting dict is validated into a `MethodDetails` record, and each record
    becomes a public operation with a generated signature and a wrapper that
    freezes the HTTP verb, the endpoint and the response key. */
module MethodGenerator {
  import opened PyCore

  datatype RequestMethod = Delete | Get | Patch | Post | Put

  /** The string value of each `RequestMethod` member (the enum mixes in `str`,
      so a member compares equal to this string). */
  function MethodValue(m: RequestMethod): string {
    match m
    case Delete => "DELETE"
    case Get => "GET"
    case Patch => "PATCH"
    case Post => "POST"
    case Put => "PUT"
  }

  /** Lookup of an enum member by value, as validation does. */
  function ParseRequestMethod(s: string): (r: Option<RequestMethod>)
    ensures r.Some? ==> MethodValue(r.value) == s
    ensures r.None? ==> forall m :: MethodValue(m) != s
  {
    if s == "DELETE" then Some(Delete)
    else if s == "GET" then Some(Get)
    else if s == "PATCH" then Some(Patch)
    else if s == "POST" then Some(Post)
    else if s == "PUT" then Some(Put)
    else None
  }

  /** One entry of a client's binding table: a Python dict. */
  type Binding = map<string, Value>

  /** The validated record built from a binding dict. */
  datatype MethodDetails = MethodDetails(
    name: string,
    endpoint: string,
    docstring: Option<string>,
    execMethod: string,
    extraParams: Option<seq<string>>,
    raiseForStatus: bool,
    requestMethod: RequestMethod,
    resourceName: Option<string>,
    responseKey: Option<string>)

  // -----------------------------------------------------------------------
  // Validation of a binding dict into MethodDetails.

  function RequiredStr(b: Binding, k: string): (r: Result<string>)
    ensures r.Ok? <==> k in b && b[k].PyStr?
    ensures r.Ok? ==> b[k] == PyStr(r.value)
  {
    if k in b && b[k].PyStr? then Ok(b[k].s) else Err(ValidationError(k))
  }

  function StrOrDefault(b: Binding, k: string, default: string): (r: Result<string>)
    ensures k !in b ==> r == Ok(default)
    ensures k in b ==> (r.Ok? <==> b[k].PyStr?)
    ensures k in b && r.Ok? ==> b[k] == PyStr(r.value)
  {
    if k !in b then Ok(default)
    else if b[k].PyStr? then Ok(b[k].s)
    else Err(ValidationError(k))
  }

  /** An optional field of the record holds `o`: `None` exactly when the key
      is absent or `None`, and otherwise the dict's string. */
  predicate OptionalStrCarried(b: Binding, k: string, o: Option<string>) {
    && (o.None? <==> k !in b || b[k] == PyNone)
    && (o.Some? ==> b[k] == PyStr(o.value))
  }

  function OptionalStr(b: Binding, k: string): (r: Result<Option<string>>)
    ensures (k !in b || b[k] == PyNone) ==> r == Ok(None)
    ensures k in b && b[k].PyStr? ==> r == Ok(Some(b[k].s))
    ensures r.Ok? <==> k !in b || b[k].PyNone? || b[k].PyStr?
    ensures r.Ok? ==> OptionalStrCarried(b, k, r.value)
  {
    if k !in b || b[k].PyNone? then Ok(None)
    else if b[k].PyStr? then Ok(Some(b[k].s))
    else Err(ValidationError(k))
  }

  predicate AllStr(xs: seq<Value>) {
    forall k :: 0 <= k < |xs| ==> xs[k].PyStr?
  }

  function Strs(xs: seq<Value>): (r: seq<string>)
    requires AllStr(xs)
    ensures |r| == |xs| && forall k :: 0 <= k < |xs| ==> xs[k] == PyStr(r[k])
  {
    seq(|xs|, k requires 0 <= k < |xs| => xs[k].s)
  }

  /** An optional list field of the record holds `o`: `None` exactly when the
      key is absent or `None`, and otherwise the dict's list of strings, item
      by item. */
  predicate StrListCarried(b: Binding, k: string, o: Option<seq<string>>) {
    && (o.None? <==> k !in b || b[k] == PyNone)
    && (o.Some? ==>
          && b[k].PyList? && |b[k].items| == |o.value|
          && forall i :: 0 <= i < |o.value| ==> b[k].items[i] == PyStr(o.value[i]))
  }

  function OptionalStrList(b: Binding, k: string): (r: Result<Option<seq<string>>>)
    ensures (k !in b || b[k] == PyNone) ==> r == Ok(None)
    ensures r.Ok? <==> k !in b || b[k].PyNone? || (b[k].PyList? && AllStr(b[k].items))
    ensures r.Ok? ==> StrListCarried(b, k, r.value)
  {
    if k !in b || b[k].PyNone? then Ok(None)
    else if b[k].PyList? && AllStr(b[k].items) then Ok(Some(Strs(b[k].items)))
    else Err(ValidationError(k))
  }

  function BoolOrDefault(b: Binding, k: string, default: bool): (r: Result<bool>)
    ensures k !in b ==> r == Ok(default)
    ensures k in b ==> (r.Ok? <==> b[k].PyBool?)
    ensures k in b && r.Ok? ==> b[k] == PyBool(r.value)
  {
    if k !in b then Ok(default)
    else if b[k].PyBool? then Ok(b[k].b)
    else Err(ValidationError(k))
  }

  function MethodOrDefault(b: Binding, k: string): (r: Result<RequestMethod>)
    ensures k !in b ==> r == Ok(Get)
    ensures k in b ==> (r.Ok? <==> b[k].PyStr? && ParseRequestMethod(b[k].s).Some?)
    ensures k in b && r.Ok? ==> ParseRequestMethod(b[k].s) == Some(r.value)
  {
    if k !in b then Ok(Get)
    else if b[k].PyStr? && ParseRequestMethod(b[k].s).Some? then Ok(ParseRequestMethod(b[k].s).value)
    else Err(ValidationError(k))
  }

  /** Every field the record declares has a value of its type: `name` and
      `endpoint` are strings, the optional strings are strings or `None`,
      `extra_params` is a list of strings or `None`, `raise_for_status` is a
      bool and `request_method` names a method. */
  predicate Validates(b: Binding) {
    && "name" in b && b["name"].PyStr?
    && "endpoint" in b && b["endpoint"].PyStr?
    && ("docstring" in b ==> b["docstring"].PyNone? || b["docstring"].PyStr?)
    && ("resource_name" in b ==> b["resource_name"].PyNone? || b["resource_name"].PyStr?)
    && ("response_key" in b ==> b["response_key"].PyNone? || b["response_key"].PyStr?)
    && ("exec_method" in b ==> b["exec_method"].PyStr?)
    && ("extra_params" in b ==> b["extra_params"].PyNone? || (b["extra_params"].PyList? && AllStr(b["extra_params"].items)))
    && ("raise_for_status" in b ==> b["raise_for_status"].PyBool?)
    && ("request_method" in b ==> b["request_method"].PyStr? && ParseRequestMethod(b["request_method"].s).Some?)
  }

  /** `MethodDetails(**method)`: keys the record does not declare (such as
      `docs_url_anchor`) are ignored; `name` and `endpoint` are required; the
      other fields take their declared defaults when absent. */
  function ToDetails(b: Binding): (r: Result<MethodDetails>)
    ensures r.Ok? ==> "name" in b && b["name"] == PyStr(r.value.name)
    ensures r.Ok? ==> "endpoint" in b && b["endpoint"] == PyStr(r.value.endpoint)
    ensures ("name" !in b || !b["name"].PyStr?) ==> r == Err(ValidationError("name"))
    ensures r.Ok? && "exec_method" !in b ==> r.value.execMethod == "_request"
    ensures r.Ok? && "raise_for_status" !in b ==> r.value.raiseForStatus
    ensures r.Ok? && "request_method" !in b ==> r.value.requestMethod == Get
    ensures r.Ok? && ("docstring" !in b || b["docstring"] == PyNone) ==> r.value.docstring.None?
    ensures r.Ok? ==>
      && OptionalStrCarried(b, "docstring", r.value.docstring)
      && ("exec_method" in b ==> b["exec_method"] == PyStr(r.value.execMethod))
      && StrListCarried(b, "extra_params", r.value.extraParams)
      && ("raise_for_status" in b ==> b["raise_for_status"] == PyBool(r.value.raiseForStatus))
      && ("request_method" in b ==>
            b["request_method"].PyStr? && ParseRequestMethod(b["request_method"].s) == Some(r.value.requestMethod))
      && OptionalStrCarried(b, "resource_name", r.value.resourceName)
      && OptionalStrCarried(b, "response_key", r.value.responseKey)
    ensures r.Ok? <==> Validates(b)
    ensures r.Err? ==> r.error.ValidationError?
  {
    var name :- RequiredStr(b, "name");
    var endpoint :- RequiredStr(b, "endpoint");
    var docstring :- OptionalStr(b, "docstring");
    var execMethod :- StrOrDefault(b, "exec_method", "_request");
    var extraParams :- OptionalStrList(b, "extra_params");
    var raiseForStatus :- BoolOrDefault(b, "raise_for_status", true);
    var requestMethod :- MethodOrDefault(b, "request_method");
    var resourceName :- OptionalStr(b, "resource_name");
    var responseKey :- OptionalStr(b, "response_key");
    Ok(MethodDetails(name, endpoint, docstring, execMethod, extraParams, raiseForStatus,
                     requestMethod, resourceName, responseKey))
  }

  /** The list comprehension building one record per expanded dict; the first
      dict that fails validation raises. */
  function AllDetails(bs: seq<Binding>): (r: Result<seq<MethodDetails>>)
    ensures r.Ok? ==> |r.value| == |bs|
    ensures r.Ok? ==> forall k :: 0 <= k < |bs| ==> ToDetails(bs[k]) == Ok(r.value[k])
    ensures r.Ok? <==> forall k :: 0 <= k < |bs| ==> ToDetails(bs[k]).Ok?
  {
    if bs == [] then Ok([])
    else
      var d :- ToDetails(bs[0]);
      var rest :- AllDetails(bs[1..]);
      Ok([d] + rest)
  }

  // -----------------------------------------------------------------------
  // The docstring template (`str.format(**method)`).

  /** A format string, already cut into literal text and named fields. A
      positional `{}` field cannot be expressed. */
  datatype Part = Lit(text: string) | Field(key: string)
  type Template = seq<Part>

  /** The format string the parts were cut from, when no literal part holds
      a brace: a literal `{` or `}` is written back as it is, not as `{{` or
      `}}`. */
  function TemplateSource(t: Template): string {
    if t == [] then ""
    else (match t[0] case Lit(s) => s case Field(k) => "{" + k + "}") + TemplateSource(t[1..])
  }

  /** `bool(cls._docstring_template)`. */
  predicate TemplateSet(tpl: Option<Template>) {
    tpl.Some? && TemplateSource(tpl.value) != ""
  }

  predicate FieldsPresent(t: Template, b: Binding) {
    forall k :: 0 <= k < |t| && t[k].Field? ==> t[k].key in b
  }

  /** `template.format(**b)`: each field is replaced by `str()` of the dict's
      value; the first field with no key raises `KeyError`. */
  function Render(t: Template, b: Binding): (r: Result<string>)
    ensures r.Ok? <==> FieldsPresent(t, b)
    ensures r.Err? ==> r.error.KeyError? && r.error.key !in b
    ensures (forall k :: 0 <= k < |t| ==> t[k].Lit?) ==> r == Ok(TemplateSource(t))
  {
    if t == [] then Ok("")
    else
      var head :- match t[0]
        case Lit(s) => Ok(s)
        case Field(k) => if k in b then Ok(ToStr(b[k])) else Err(KeyError(k));
      var tail :- Render(t[1..], b);
      Ok(head + tail)
  }

  /** Rendering reads only the fields the template names: two dicts that agree
      on those keys render identically. */
  lemma {:induction false} RenderReadsOnlyFields(t: Template, b: Binding, b': Binding)
    requires forall k :: 0 <= k < |t| && t[k].Field? ==>
      (t[k].key in b <==> t[k].key in b') && (t[k].key in b ==> b[t[k].key] == b'[t[k].key])
    ensures Render(t, b) == Render(t, b')
  {
    if t != [] {
      RenderReadsOnlyFields(t[1..], b, b');
    }
  }

  // -----------------------------------------------------------------------
  // Deriving the `save_` sibling (`_create_save_method_from`).

  const SaveSuffix := "\nSaves the data to a file."

  /** `name.split('_')[0]`. */
  function FirstWord(name: string): string {
    Split(name, "_")[0]
  }

  /** The name as the source derives it: `name.replace(f'{prefix}_', 'save_')`,
      which rewrites EVERY occurrence of the first word followed by `_`. */
  function SaveNameAsWritten(name: string): string {
    ReplaceAll(name, FirstWord(name) + "_", "save_")
  }

  /** The name as intended: the first `_`-delimited word becomes `save`; a name
      without `_` is left as it is (which is also what the source does). */
  function SaveName(name: string): (r: string)
    ensures IndexOf(name, "_").None? ==> r == name
    ensures IndexOf(name, "_").Some? ==>
      var i := IndexOf(name, "_").value; r == "save_" + name[i + 1..]
  {
    match IndexOf(name, "_")
    case None => name
    case Some(i) => "save_" + name[i + 1..]
  }

  lemma FirstWordBeforeUnderscore(name: string)
    ensures IndexOf(name, "_").Some? ==>
      var i := IndexOf(name, "_").value; FirstWord(name) == name[..i] && name[..i + 1] == FirstWord(name) + "_"
    ensures IndexOf(name, "_").None? ==> FirstWord(name) == name
  {
    match IndexOf(name, "_")
    case None =>
    case Some(i) =>
      OccursChar(name, '_', i);
      assert name[..i + 1] == name[..i] + "_";
  }

  /** Where the pattern `<first word>_` occurs only at the start of the name,
      the as-written derivation and the intended one agree. */
  lemma {:induction false} SaveNameAgrees(name: string)
    requires IndexOf(name, "_").Some?
    requires IndexOf(name[|FirstWord(name)| + 1..], FirstWord(name) + "_").None?
    ensures SaveNameAsWritten(name) == SaveName(name)
  {
    var i := IndexOf(name, "_").value;
    FirstWordBeforeUnderscore(name);
    var pat := FirstWord(name) + "_";
    assert |pat| == i + 1;
    assert name[..|pat|] == pat;
    ReplaceAbsent(name[|pat|..], pat, "save_");
  }

  lemma {:induction false} ReplaceSkips(s: string, pat: string, repl: string)
    requires pat != [] && s != [] && s[0] != pat[0]
    ensures ReplaceAll(s, pat, repl) == [s[0]] + ReplaceAll(s[1..], pat, repl)
  {
    if |s| >= |pat| {
      assert s[..|pat|][0] == s[0];
    }
  }

  /** Text without the pattern's first character is skipped by the
      replacement. */
  lemma {:induction false} ReplaceAfterNoFirstChar(a: string, b: string, pat: string, repl: string)
    requires pat != [] && pat[0] !in a
    ensures ReplaceAll(a + b, pat, repl) == a + ReplaceAll(b, pat, repl)
    decreases |a|
  {
    if a == [] {
      assert a + b == b;
    } else {
      assert (a + b)[0] == a[0] && a[0] in a;
      ReplaceSkips(a + b, pat, repl);
      assert (a + b)[1..] == a[1..] + b;
      assert pat[0] !in a[1..] by {
        forall k | 0 <= k < |a[1..]| ensures a[1..][k] == a[k + 1] { }
      }
      ReplaceAfterNoFirstChar(a[1..], b, pat, repl);
      assert [a[0]] + (a[1..] + ReplaceAll(b, pat, repl)) == a + ReplaceAll(b, pat, repl);
    }
  }

  lemma {:induction false} ReplaceNoFirstChar(s: string, pat: string, repl: string)
    requires pat != [] && pat[0] !in s
    ensures ReplaceAll(s, pat, repl) == s
    decreases |s|
  {
    if s != [] {
      ReplaceSkips(s, pat, repl);
      ReplaceNoFirstChar(s[1..], pat, repl);
      assert [s[0]] + s[1..] == s;
    }
  }

  lemma {:induction false} ReplaceOnce(a: string, pat: string, c: string, repl: string)
    requires pat != [] && pat[0] !in a && pat[0] !in c
    ensures ReplaceAll(a + pat + c, pat, repl) == a + repl + c
    decreases |a|
  {
    if a == [] {
      assert (pat + c)[..|pat|] == pat;
      assert (pat + c)[|pat|..] == c;
      assert a + pat + c == pat + c;
      ReplaceNoFirstChar(c, pat, repl);
    } else {
      ReplaceSkips(a + pat + c, pat, repl);
      assert (a + pat + c)[1..] == a[1..] + pat + c;
      ReplaceOnce(a[1..], pat, c, repl);
      assert [a[0]] + a[1..] == a;
    }
  }

  /** Both derivations on a name `<w>_<rest>` whose first word `w` holds no `_`. */
  lemma SaveNamesOfWords(w: string, rest: string)
    requires '_' !in w
    ensures FirstWord(w + "_" + rest) == w
    ensures SaveName(w + "_" + rest) == "save_" + rest
    ensures SaveNameAsWritten(w + "_" + rest) == "save_" + ReplaceAll(rest, w + "_", "save_")
  {
    var name := w + "_" + rest;
    OccursChar(name, '_', |w|);
    var i := IndexOf(name, "_").value;
    OccursChar(name, '_', i);
    assert i == |w|;
    FirstWordBeforeUnderscore(name);
    assert name[..i] == w;
    var pat := w + "_";
    assert name == pat + rest;
    assert name[..|pat|] == pat && name[|pat|..] == rest;
  }

  /** The discrepancy: a name `<w>_<a><w>_<c>` whose later words contain the
      first word followed by `_` is rewritten at both places, so that
      `get_budget_report` (w = `get`, a = `bud`, c = `report`) becomes
      `save_budsave_report` where `save_budget_report` is meant. */
  lemma SaveNameAsWrittenRewritesInside(w: string, a: string, c: string)
    requires w != [] && '_' !in w && w != "save"
    requires w[0] !in a && w[0] !in c
    ensures SaveNameAsWritten(w + "_" + a + w + "_" + c) == "save_" + a + "save_" + c
    ensures SaveName(w + "_" + a + w + "_" + c) == "save_" + a + w + "_" + c
    ensures SaveNameAsWritten(w + "_" + a + w + "_" + c) != SaveName(w + "_" + a + w + "_" + c)
  {
    AsWrittenInside(w, a, c);
    IntendedInside(w, a, c);
    SavedFormsDiffer(w, a, c);
  }

  lemma AsWrittenInside(w: string, a: string, c: string)
    requires w != [] && '_' !in w
    requires w[0] !in a && w[0] !in c
    ensures SaveNameAsWritten(w + "_" + a + w + "_" + c) == "save_" + a + "save_" + c
  {
    var pat := w + "_";
    var rest := a + pat + c;
    var name := w + "_" + a + w + "_" + c;
    assert SaveNameAsWritten(name) == "save_" + ReplaceAll(rest, pat, "save_") by {
      assert name == w + "_" + rest;
      SaveNamesOfWords(w, rest);
    }
    assert ReplaceAll(rest, pat, "save_") == a + "save_" + c by {
      ReplaceOnce(a, pat, c, "save_");
    }
    assert "save_" + (a + "save_" + c) == "save_" + a + "save_" + c;
  }

  lemma IntendedInside(w: string, a: string, c: string)
    requires '_' !in w
    ensures SaveName(w + "_" + a + w + "_" + c) == "save_" + a + w + "_" + c
  {
    var rest := a + (w + "_") + c;
    var name := w + "_" + a + w + "_" + c;
    assert SaveName(name) == "save_" + rest by {
      assert name == w + "_" + rest;
      SaveNamesOfWords(w, rest);
    }
    assert "save_" + rest == "save_" + a + w + "_" + c;
  }

  lemma SavedFormsDiffer(w: string, a: string, c: string)
    requires w != "save"
    ensures "save_" + a + "save_" + c != "save_" + a + w + "_" + c
  {
    if "save_" + a + "save_" + c == "save_" + a + w + "_" + c {
      assert "save_" + a + "save_" + c == ("save_" + a) + ("save_" + c);
      assert "save_" + a + w + "_" + c == ("save_" + a) + (w + "_" + c);
      SuffixCancel("save_" + a, "save_" + c, w + "_" + c);
      assert "save_" + c == "save" + ("_" + c);
      assert w + "_" + c == w + ("_" + c);
      EndCancel("save", w, "_" + c);
    }
  }

  lemma EndCancel(x: string, y: string, q: string)
    requires x + q == y + q
    ensures x == y
  {
    assert |x| == |y|;
    assert x == (x + q)[..|x|];
    assert y == (y + q)[..|y|];
  }

  lemma SuffixCancel(p: string, x: string, y: string)
    requires p + x == p + y
    ensures x == y
  {
    assert x == (p + x)[|p|..];
    assert y == (p + y)[|p|..];
  }

  /** `bool(b.get(k))`. */
  predicate TruthyKey(b: Binding, k: string) {
    Truthy(DictGet(b, k, PyNone))
  }

  /** The source's `extra_params` list, or none when it is falsy. */
  function SourceExtra(b: Binding): seq<Value> {
    if TruthyKey(b, "extra_params") && b["extra_params"].PyList? then b["extra_params"].items else []
  }

  /** `_create_save_method_from`: a copy of the dict with a derived name (the
      source's replace-all, `SaveNameAsWritten`), exec method, extra
      parameters and docstring. The source dict (and its
      `extra_params` list) is not modified: the result is a new value. */
  function CreateSaveMethodFrom(b: Binding): (r: Result<Binding>)
    ensures ("name" !in b) ==> r == Err(KeyError("name"))
    ensures r.Ok? <==>
      "name" in b && b["name"].PyStr? && (TruthyKey(b, "extra_params") ==> b["extra_params"].PyList?)
    ensures r.Ok? ==> r.value.Keys == b.Keys + {"name", "exec_method", "extra_params", "docstring"}
    ensures r.Ok? ==> forall k :: k in b && k !in {"name", "exec_method", "extra_params", "docstring"} ==> r.value[k] == b[k]
    ensures r.Ok? ==> r.value["name"] == PyStr(SaveNameAsWritten(b["name"].s))
    ensures r.Ok? ==> r.value["exec_method"] == PyStr(ToStr(DictGet(b, "exec_method", PyStr("_request"))) + "_and_save")
    ensures r.Ok? ==> r.value["extra_params"] == PyList(SourceExtra(b) + [PyStr("filepath")])
    ensures r.Ok? && TruthyKey(b, "docstring") ==> r.value["docstring"] == PyStr(ToStr(b["docstring"]) + SaveSuffix)
    ensures r.Ok? && !TruthyKey(b, "docstring") ==> r.value["docstring"] == PyStr("")
  {
    if "name" !in b then Err(KeyError("name"))
    else if !b["name"].PyStr? then Err(AttributeError("split"))
    else
      var name := SaveNameAsWritten(b["name"].s);
      var execMethod := ToStr(DictGet(b, "exec_method", PyStr("_request"))) + "_and_save";
      var extra :- if !TruthyKey(b, "extra_params") then Ok([] + [PyStr("filepath")])
                   else if b["extra_params"].PyList? then Ok(b["extra_params"].items + [PyStr("filepath")])
                   else Err(TypeError("can only concatenate list to list"));
      assert extra == SourceExtra(b) + [PyStr("filepath")];
      var doc := if TruthyKey(b, "docstring") then ToStr(b["docstring"]) + SaveSuffix else "";
      Ok(b["name" := PyStr(name)]["exec_method" := PyStr(execMethod)]
          ["extra_params" := PyList(extra)]["docstring" := PyStr(doc)])
  }

  // -----------------------------------------------------------------------
  // Expansion of the table (`get_and_extend_methods`).

  /** The docstring rule: the template is rendered into `docstring` only when a
      template is set and the binding's own docstring is falsy. */
  function PrepareBinding(b: Binding, tpl: Option<Template>): (r: Result<Binding>)
    ensures !TemplateSet(tpl) || TruthyKey(b, "docstring") ==> r == Ok(b)
    ensures TemplateSet(tpl) && !TruthyKey(b, "docstring") ==>
      (r.Ok? <==> FieldsPresent(tpl.value, b))
    ensures TemplateSet(tpl) && !TruthyKey(b, "docstring") && r.Ok? ==>
      r.value == b["docstring" := PyStr(Render(tpl.value, b).value)]
  {
    if TemplateSet(tpl) && !TruthyKey(b, "docstring") then
      var doc :- Render(tpl.value, b);
      Ok(b["docstring" := PyStr(doc)])
    else Ok(b)
  }

  /** `method.pop('create_save_method', True)` is truthy. */
  predicate CreatesSave(b: Binding) {
    Truthy(DictGet(b, "create_save_method", PyBool(true)))
  }

  /** What one iteration of the loop leaves in the table and appends. */
  datatype Step = Step(binding: Binding, emitted: Result<seq<Binding>>)

  function ExtendOne(b: Binding, tpl: Option<Template>): (s: Step)
    ensures s.emitted.Ok? ==> 1 <= |s.emitted.value| <= 2
  {
    match PrepareBinding(b, tpl)
    case Err(e) => Step(b, Err(e))
    case Ok(b1) =>
      var b2 := b1 - {"create_save_method"};
      if !CreatesSave(b1) then Step(b2, Ok([b2]))
      else
        match CreateSaveMethodFrom(b2)
        case Err(e) => Step(b2, Err(e))
        case Ok(sibling) => Step(b2, Ok([b2, sibling]))
  }

  /** One iteration of the loop of `get_and_extend_methods`, editing the dict
      in place: the docstring is written first, then `create_save_method` is
      popped (the dict already appended to the list is the same object, so the
      list sees it without the key), then the sibling is derived. */
  method ExtendEntry(b: Binding, tpl: Option<Template>) returns (step: Step)
    ensures step == ExtendOne(b, tpl)
  {
    var entry := b;
    if TemplateSet(tpl) && !TruthyKey(entry, "docstring") {
      var doc := Render(tpl.value, entry);
      if doc.Err? {
        return Step(entry, Err(doc.error));
      }
      entry := entry["docstring" := PyStr(doc.value)];
    }
    var create := CreatesSave(entry);
    entry := entry - {"create_save_method"};
    var emitted := [entry];
    if create {
      var sibling := CreateSaveMethodFrom(entry);
      if sibling.Err? {
        return Step(entry, Err(sibling.error));
      }
      emitted := [entry, sibling.value];
    }
    step := Step(entry, Ok(emitted));
  }

  /** The table after the loop (its dicts are edited in place, also when the
      loop stops on an exception) and the expanded list, or the exception. */
  datatype Expansion = Expansion(table: seq<Binding>, extended: Result<seq<Binding>>)

  function ExpandAll(bs: seq<Binding>, tpl: Option<Template>): (e: Expansion)
    ensures |e.table| == |bs|
    decreases |bs|
  {
    if bs == [] then Expansion([], Ok([]))
    else
      var prev := ExpandAll(bs[..|bs| - 1], tpl);
      var last := bs[|bs| - 1];
      if prev.extended.Err? then Expansion(prev.table + [last], prev.extended)
      else
        var step := ExtendOne(last, tpl);
        Expansion(prev.table + [step.binding],
                  if step.emitted.Err? then Err(step.emitted.error)
                  else Ok(prev.extended.value + step.emitted.value))
  }

  /** `get_and_extend_methods` as a whole: the edited table and its result. */
  function GetAndExtend(bs: seq<Binding>, tpl: Option<Template>): (Result<seq<MethodDetails>>, seq<Binding>) {
    var e := ExpandAll(bs, tpl);
    (if e.extended.Err? then Err(e.extended.error) else AllDetails(e.extended.value), e.table)
  }

  /** One more iteration of the loop, in terms of the table's prefixes. */
  lemma ExpandPrefixStep(bs: seq<Binding>, i: nat, tpl: Option<Template>, table: seq<Binding>, extended: seq<Binding>)
    requires i < |bs|
    requires ExpandAll(bs[..i], tpl) == Expansion(table, Ok(extended))
    ensures var step := ExtendOne(bs[i], tpl);
      ExpandAll(bs[..i + 1], tpl)
        == Expansion(table + [step.binding],
                     if step.emitted.Err? then Err(step.emitted.error) else Ok(extended + step.emitted.value))
  {
    assert bs[..i + 1][..i] == bs[..i];
  }

  /** Once the loop has raised, the rest of the table is left as it was. */
  lemma {:induction false} ExpandStopsAtError(bs: seq<Binding>, n: nat, tpl: Option<Template>)
    requires n <= |bs|
    requires ExpandAll(bs[..n], tpl).extended.Err?
    ensures ExpandAll(bs, tpl) == Expansion(ExpandAll(bs[..n], tpl).table + bs[n..], ExpandAll(bs[..n], tpl).extended)
    decreases |bs|
  {
    if n == |bs| {
      assert bs[..n] == bs;
    } else {
      var init := bs[..|bs| - 1];
      assert init[..n] == bs[..n];
      ExpandStopsAtError(init, n, tpl);
      assert init[n..] + [bs[|bs| - 1]] == bs[n..];
    }
  }

  /** The whole of `get_and_extend_methods` once an iteration has raised. */
  lemma StopsEarly(bs: seq<Binding>, n: nat, tpl: Option<Template>)
    requires n <= |bs|
    requires ExpandAll(bs[..n], tpl).extended.Err?
    ensures GetAndExtend(bs, tpl)
      == (Err(ExpandAll(bs[..n], tpl).extended.error), ExpandAll(bs[..n], tpl).table + bs[n..])
  {
    ExpandStopsAtError(bs, n, tpl);
  }

  /** The whole of `get_and_extend_methods` once every iteration has run. */
  lemma RunsToEnd(bs: seq<Binding>, n: nat, tpl: Option<Template>, table: seq<Binding>, extended: seq<Binding>)
    requires n == |bs| == |table|
    requires ExpandAll(bs[..n], tpl) == Expansion(table[..n], Ok(extended))
    ensures GetAndExtend(bs, tpl) == (AllDetails(extended), table)
  {
    assert bs[..n] == bs;
    assert table[..n] == table;
  }

  /** The loop runs to the end when every iteration succeeds. */
  lemma {:induction false} ExpandAllSucceeds(bs: seq<Binding>, tpl: Option<Template>)
    requires forall i :: 0 <= i < |bs| ==> ExtendOne(bs[i], tpl).emitted.Ok?
    ensures ExpandAll(bs, tpl).extended.Ok?
    decreases |bs|
  {
    if bs != [] {
      var init := bs[..|bs| - 1];
      forall i | 0 <= i < |init| ensures ExtendOne(init[i], tpl).emitted.Ok? {
        assert init[i] == bs[i];
      }
      ExpandAllSucceeds(init, tpl);
    }
  }

  /** Number of bindings that get a `save_` sibling. */
  function CountSaved(bs: seq<Binding>): nat {
    if bs == [] then 0 else CountSaved(bs[..|bs| - 1]) + (if CreatesSave(bs[|bs| - 1]) then 1 else 0)
  }

  /** Position of binding `i`'s entry in the expanded list. */
  function Offset(bs: seq<Binding>, i: nat): nat
    requires i <= |bs|
  {
    i + CountSaved(bs[..i])
  }

  /** The binding as it stands in the expanded list: docstring rule applied,
      `create_save_method` removed. */
  function Prepared(b: Binding, tpl: Option<Template>): Binding
    requires PrepareBinding(b, tpl).Ok?
  {
    PrepareBinding(b, tpl).value - {"create_save_method"}
  }

  lemma PrepareKeepsCreateFlag(b: Binding, tpl: Option<Template>)
    requires PrepareBinding(b, tpl).Ok?
    ensures CreatesSave(PrepareBinding(b, tpl).value) == CreatesSave(b)
  {
  }

  /** Binding `b` stands prepared at position `k` of `ext`, followed by its
      `save_` sibling when it asks for one. */
  predicate PlacedAt(b: Binding, tpl: Option<Template>, ext: seq<Binding>, k: nat) {
    && PrepareBinding(b, tpl).Ok?
    && k < |ext|
    && ext[k] == Prepared(b, tpl)
    && (CreatesSave(b) ==>
          && k + 1 < |ext|
          && CreateSaveMethodFrom(Prepared(b, tpl)) == Ok(ext[k + 1]))
  }

  lemma PlacedAtAppend(b: Binding, tpl: Option<Template>, ext: seq<Binding>, more: seq<Binding>, k: nat)
    requires PlacedAt(b, tpl, ext, k)
    ensures PlacedAt(b, tpl, ext + more, k)
  {
  }

  /** The entries one iteration emits place its binding at their start. */
  lemma PlacedByStep(b: Binding, tpl: Option<Template>, ext: seq<Binding>)
    requires ExtendOne(b, tpl).emitted.Ok?
    ensures var em := ExtendOne(b, tpl).emitted.value;
      && |em| == 1 + (if CreatesSave(b) then 1 else 0)
      && PlacedAt(b, tpl, ext + em, |ext|)
  {
    PrepareKeepsCreateFlag(b, tpl);
  }

  lemma OffsetOfPrefix(bs: seq<Binding>, i: nat)
    requires i < |bs|
    ensures Offset(bs, i) == Offset(bs[..|bs| - 1], i) || i == |bs| - 1
    ensures i == |bs| - 1 ==> Offset(bs, i) == |bs| - 1 + CountSaved(bs[..|bs| - 1])
  {
    if i < |bs| - 1 {
      assert bs[..|bs| - 1][..i] == bs[..i];
    } else {
      assert bs[..i] == bs[..|bs| - 1];
    }
  }

  /** Expansion keeps the bindings in order, puts each `save_` sibling right
      after its source, and has one entry per binding plus one per binding
      whose `create_save_method` is absent or truthy. */
  lemma {:induction false} ExpansionLayout(bs: seq<Binding>, tpl: Option<Template>)
    requires ExpandAll(bs, tpl).extended.Ok?
    ensures var ext := ExpandAll(bs, tpl).extended.value;
      && |ext| == |bs| + CountSaved(bs)
      && forall i :: 0 <= i < |bs| ==> PlacedAt(bs[i], tpl, ext, Offset(bs, i))
    decreases |bs|
  {
    if bs != [] {
      var init := bs[..|bs| - 1];
      var last := bs[|bs| - 1];
      var prev := ExpandAll(init, tpl).extended.value;
      ExpansionLayout(init, tpl);
      var em := ExtendOne(last, tpl).emitted.value;
      var ext := ExpandAll(bs, tpl).extended.value;
      assert ext == prev + em;
      PlacedByStep(last, tpl, prev);
      forall i | 0 <= i < |bs|
        ensures PlacedAt(bs[i], tpl, ext, Offset(bs, i))
      {
        OffsetOfPrefix(bs, i);
        if i < |bs| - 1 {
          assert bs[i] == init[i];
          PlacedAtAppend(init[i], tpl, prev, em, Offset(init, i));
        }
      }
    }
  }

  /** The dicts left in the table after a complete expansion are the entries
      it emitted for them: docstring rule applied, `create_save_method` gone. */
  lemma {:induction false} ExpansionEditsTable(bs: seq<Binding>, tpl: Option<Template>)
    requires ExpandAll(bs, tpl).extended.Ok?
    ensures forall i :: 0 <= i < |bs| ==>
      PrepareBinding(bs[i], tpl).Ok? && ExpandAll(bs, tpl).table[i] == Prepared(bs[i], tpl)
    decreases |bs|
  {
    if bs != [] {
      var init := bs[..|bs| - 1];
      ExpansionEditsTable(init, tpl);
      forall i | 0 <= i < |bs|
        ensures PrepareBinding(bs[i], tpl).Ok? && ExpandAll(bs, tpl).table[i] == Prepared(bs[i], tpl)
      {
        if i < |bs| - 1 { assert bs[i] == init[i]; }
      }
    }
  }

  /** The table is shared and edited in place, so a second expansion of the
      same table (a subclass of the client, say) sees no `create_save_method`
      key in any dict and therefore gives every binding a `save_` sibling,
      including those whose flag was false the first time. */
  lemma {:induction false} SecondExpansionSavesAll(bs: seq<Binding>, tpl: Option<Template>)
    requires ExpandAll(bs, tpl).extended.Ok?
    ensures var again := ExpandAll(bs, tpl).table;
      CountSaved(again) == |again| &&
      (ExpandAll(again, tpl).extended.Ok? ==> |ExpandAll(again, tpl).extended.value| == 2 * |bs|)
  {
    ExpansionEditsTable(bs, tpl);
    var again := ExpandAll(bs, tpl).table;
    AllCreate(again);
    if ExpandAll(again, tpl).extended.Ok? {
      ExpansionLayout(again, tpl);
    }
  }

  lemma {:induction false} AllCreate(bs: seq<Binding>)
    requires forall i :: 0 <= i < |bs| ==> "create_save_method" !in bs[i]
    ensures CountSaved(bs) == |bs|
    decreases |bs|
  {
    if bs != [] {
      AllCreate(bs[..|bs| - 1]);
    }
  }

  // -----------------------------------------------------------------------
  // Signatures and public names.

  const ArgSeparator := ": str, "

  /** `_generate_signature`. */
  function GenerateSignature(d: MethodDetails): string {
    d.name + "(self, "
    + (if SomeText(d.resourceName) then d.resourceName.value + ArgSeparator else "")
    + (if d.extraParams.Some? && d.extraParams.value != [] then Join(ArgSeparator, d.extraParams.value) + ArgSeparator else "")
    + "params: dict = None, raise_for_status: bool = " + PyBoolStr(d.raiseForStatus) + ", **kwargs)"
  }

  function Annotated(xs: seq<string>): (r: seq<string>)
    ensures |r| == |xs|
  {
    if xs == [] then [] else [xs[0] + ": str"] + Annotated(xs[1..])
  }

  /** The parameters of a generated operation, in order: `self`, the resource
      name, the extra parameters (each annotated `str`), `params`,
      `raise_for_status` defaulting to the binding's value, `**kwargs`. */
  function SignatureParams(d: MethodDetails): seq<string> {
    ["self"]
    + (if SomeText(d.resourceName) then [d.resourceName.value + ": str"] else [])
    + (if d.extraParams.Some? then Annotated(d.extraParams.value) else [])
    + FixedParams(d)
  }

  lemma {:induction false} JoinCons(sep: string, x: string, xs: seq<string>)
    requires xs != []
    ensures Join(sep, [x] + xs) == x + sep + Join(sep, xs)
  {
    assert ([x] + xs)[1..] == xs;
  }

  lemma RegroupAnnotated(x: string, p: string, q: string, sep: string, j1: string, j2: string)
    requires p + q == sep
    ensures x + p + q + (j1 + sep + j2) == x + sep + j1 + sep + j2
  {
  }

  lemma {:induction false} JoinAnnotated(xs: seq<string>, rest: seq<string>)
    requires xs != [] && rest != []
    ensures Join(", ", Annotated(xs) + rest) == Join(ArgSeparator, xs) + ArgSeparator + Join(", ", rest)
    decreases |xs|
  {
    var x := xs[0];
    assert ": str" + ", " == ArgSeparator;
    if |xs| == 1 {
      assert Annotated(xs) + rest == [x + ": str"] + rest by {
        assert xs[1..] == [];
      }
      JoinCons(", ", x + ": str", rest);
    } else {
      var a := Annotated(xs[1..]);
      assert Join(", ", Annotated(xs) + rest) == x + ": str" + ", " + Join(", ", a + rest) by {
        assert Annotated(xs) + rest == [x + ": str"] + (a + rest);
        JoinCons(", ", x + ": str", a + rest);
      }
      assert Join(", ", a + rest) == Join(ArgSeparator, xs[1..]) + ArgSeparator + Join(", ", rest) by {
        JoinAnnotated(xs[1..], rest);
      }
      assert Join(ArgSeparator, xs) == x + ArgSeparator + Join(ArgSeparator, xs[1..]) by {
        JoinCons(ArgSeparator, x, xs[1..]);
        assert [x] + xs[1..] == xs;
      }
      RegroupAnnotated(x, ": str", ", ", ArgSeparator, Join(ArgSeparator, xs[1..]), Join(", ", rest));
    }
  }

  function FixedParams(d: MethodDetails): seq<string> {
    ["params: dict = None", "raise_for_status: bool = " + PyBoolStr(d.raiseForStatus), "**kwargs"]
  }

  lemma JoinThree(x: string, y: string, z: string)
    ensures Join(", ", [x, y, z]) == x + ", " + y + ", " + z
  {
    assert [x, y, z] == [x] + [y, z];
    assert [y, z] == [y] + [z];
    JoinCons(", ", y, [z]);
    JoinCons(", ", x, [y, z]);
  }

  lemma SelfLiteral()
    ensures "(" + "self" + ", " == "(self, "
  {
  }

  lemma FixedLiteral()
    ensures "params: dict = None" + ", " + "raise_for_status: bool = " == "params: dict = None, raise_for_status: bool = "
  {
  }

  lemma KwargsLiteral()
    ensures ", " + "**kwargs" + ")" == ", **kwargs)"
  {
  }

  lemma RegroupFixed(p: string, q: string, b: string, k: string)
    ensures p + ", " + (q + b) + ", " + k + ")" == (p + ", " + q) + b + (", " + k + ")")
  {
  }

  /** The fixed tail of the parameter list, joined, is the fixed tail of the
      generated signature. */
  lemma JoinFixed(d: MethodDetails)
    ensures Join(", ", FixedParams(d)) + ")"
      == "params: dict = None, raise_for_status: bool = " + PyBoolStr(d.raiseForStatus) + ", **kwargs)"
  {
    var b := PyBoolStr(d.raiseForStatus);
    JoinThree("params: dict = None", "raise_for_status: bool = " + b, "**kwargs");
    RegroupFixed("params: dict = None", "raise_for_status: bool = ", b, "**kwargs");
    FixedLiteral();
    KwargsLiteral();
  }

  lemma JoinExtraAndFixed(d: MethodDetails)
    ensures var extra := if d.extraParams.Some? then d.extraParams.value else [];
      Join(", ", Annotated(extra) + FixedParams(d))
      == (if extra != [] then Join(ArgSeparator, extra) + ArgSeparator else "") + Join(", ", FixedParams(d))
  {
    var extra := if d.extraParams.Some? then d.extraParams.value else [];
    if extra != [] {
      JoinAnnotated(extra, FixedParams(d));
    } else {
      assert Annotated(extra) + FixedParams(d) == FixedParams(d);
    }
  }

  lemma RegroupSignature(n: string, r: string, j: string, e: string, f: string)
    requires j + ")" == e + f
    ensures n + "(" + ("self" + ", " + (r + j)) + ")" == n + "(self, " + r + e + f
  {
    SelfLiteral();
    assert n + "(" + ("self" + ", " + (r + j)) + ")" == n + ("(" + "self" + ", ") + r + (j + ")");
  }

  lemma SignatureFromTail(n: string, rp: Option<string>, tail: seq<string>, e: string, f: string)
    requires tail != []
    requires Join(", ", tail) + ")" == e + f
    ensures var r := if rp.Some? then rp.value + ArgSeparator else "";
      var rs := if rp.Some? then [rp.value + ": str"] else [];
      n + "(" + Join(", ", ["self"] + (rs + tail)) + ")" == n + "(self, " + r + e + f
  {
    var j := Join(", ", tail);
    if rp.Some? {
      var x := rp.value + ": str";
      JoinCons(", ", x, tail);
      JoinCons(", ", "self", [x] + tail);
      assert x + ", " + j == (rp.value + ArgSeparator) + j;
      RegroupSignature(n, rp.value + ArgSeparator, j, e, f);
    } else {
      assert [] + tail == tail;
      JoinCons(", ", "self", tail);
      RegroupSignature(n, "", j, e, f);
      assert "" + j == j;
    }
  }

  function ResourceParam(d: MethodDetails): Option<string> {
    if SomeText(d.resourceName) then d.resourceName else None
  }

  function ExtraText(d: MethodDetails): string {
    if d.extraParams.Some? && d.extraParams.value != [] then Join(ArgSeparator, d.extraParams.value) + ArgSeparator else ""
  }

  function ParamsTail(d: MethodDetails): seq<string> {
    Annotated(if d.extraParams.Some? then d.extraParams.value else []) + FixedParams(d)
  }

  lemma SignatureByParts(d: MethodDetails)
    ensures var rp := ResourceParam(d);
      GenerateSignature(d)
      == d.name + "(self, " + (if rp.Some? then rp.value + ArgSeparator else "") + ExtraText(d) + (Join(", ", FixedParams(d)) + ")")
  {
    JoinFixed(d);
  }

  lemma TailJoin(d: MethodDetails)
    ensures Join(", ", ParamsTail(d)) + ")" == ExtraText(d) + (Join(", ", FixedParams(d)) + ")")
  {
    JoinExtraAndFixed(d);
  }

  lemma ParamsShape(d: MethodDetails)
    ensures var rp := ResourceParam(d);
      SignatureParams(d) == ["self"] + ((if rp.Some? then [rp.value + ": str"] else []) + ParamsTail(d))
  {
    var rp := ResourceParam(d);
    var rs := if rp.Some? then [rp.value + ": str"] else [];
    var xs := if d.extraParams.Some? then Annotated(d.extraParams.value) else [];
    assert xs == Annotated(if d.extraParams.Some? then d.extraParams.value else []);
    assert ["self"] + rs + xs + FixedParams(d) == ["self"] + (rs + (xs + FixedParams(d)));
  }

  /** The generated signature is the operation's name applied to exactly the
      parameter list above, separated by `, `. */
  lemma {:induction false} SignatureListsParams(d: MethodDetails)
    ensures GenerateSignature(d) == d.name + "(" + Join(", ", SignatureParams(d)) + ")"
  {
    var rp := ResourceParam(d);
    var rs := if rp.Some? then [rp.value + ": str"] else [];
    var r := if rp.Some? then rp.value + ArgSeparator else "";
    var e, f := ExtraText(d), Join(", ", FixedParams(d)) + ")";
    ParamsShape(d);
    assert GenerateSignature(d) == d.name + "(self, " + r + e + f by {
      SignatureByParts(d);
    }
    assert d.name + "(" + Join(", ", ["self"] + (rs + ParamsTail(d))) + ")" == d.name + "(self, " + r + e + f by {
      TailJoin(d);
      SignatureFromTail(d.name, rp, ParamsTail(d), e, f);
    }
  }

  /** The attribute name of the generated operation: `name.strip('_')`. */
  function PublicName(d: MethodDetails): (r: string)
    ensures r == [] || (r[0] != '_' && r[|r| - 1] != '_')
  {
    Strip(d.name, '_')
  }

  // -----------------------------------------------------------------------
  // The wrapper each operation calls (`modified_method`).

  datatype Warning = MethodNotAuthorized | EndpointNotAuthorized

  function OptValue(x: Option<string>): Value {
    if x.Some? then PyStr(x.value) else PyNone
  }

  /** The keyword arguments frozen when the operation is generated. */
  function FrozenKwargs(d: MethodDetails): (m: map<string, Value>)
    ensures m.Keys == {"method", "endpoint", "response_key"}
  {
    map["method" := PyStr(MethodValue(d.requestMethod)),
        "endpoint" := PyStr(d.endpoint),
        "response_key" := OptValue(d.responseKey)]
  }

  /** What one call of the wrapper does: the frozen dict after the call, the
      keyword arguments passed on to the exec method, and the warnings logged. */
  datatype CallOutcome = CallOutcome(frozen: map<string, Value>, passed: map<string, Value>, warnings: seq<Warning>)

  function ModifiedCall(frozen: map<string, Value>, resourceName: Option<string>, kwargs: map<string, Value>): CallOutcome {
    var w1 := if "method" in kwargs then [MethodNotAuthorized] else [];
    var kw1 := kwargs - {"method"};
    var w2 := if "endpoint" in kw1 then [EndpointNotAuthorized] else [];
    var kw2 := kw1 - {"endpoint"};
    var frozen' := if resourceName.Some? && resourceName.value in kw2
                   then frozen["resource_id" := kw2[resourceName.value]] else frozen;
    CallOutcome(frozen', kw2 + frozen', w1 + w2)
  }

  /** The frozen verb, endpoint and response key always win over the caller's;
      a caller's `method`/`endpoint` never reaches the exec method; the
      resource name's value is passed as `resource_id`; every other argument
      is passed unchanged; a warning is logged per discarded argument. */
  lemma FrozenKwargsWin(d: MethodDetails, frozen: map<string, Value>, kwargs: map<string, Value>)
    requires FrozenKwargs(d).Keys <= frozen.Keys
    requires forall k :: k in FrozenKwargs(d) ==> frozen[k] == FrozenKwargs(d)[k]
    ensures var o := ModifiedCall(frozen, d.resourceName, kwargs);
      && o.passed.Keys == kwargs.Keys + o.frozen.Keys
      && o.passed["method"] == PyStr(MethodValue(d.requestMethod))
      && o.passed["endpoint"] == PyStr(d.endpoint)
      && o.passed["response_key"] == OptValue(d.responseKey)
      && (d.resourceName.Some? && d.resourceName.value in kwargs
          && d.resourceName.value !in {"method", "endpoint"} ==>
            o.passed["resource_id"] == kwargs[d.resourceName.value])
      && (forall k :: k in kwargs && k !in o.frozen ==> o.passed[k] == kwargs[k])
      && o.passed == kwargs + o.frozen
      && |o.warnings| == (if "method" in kwargs then 1 else 0) + (if "endpoint" in kwargs then 1 else 0)
  {
    var o := ModifiedCall(frozen, d.resourceName, kwargs);
    assert o.passed == kwargs + o.frozen;
  }

  /** The frozen dict lives in the closure, so a resource id seen by one call
      is still passed by a later call that does not supply the resource name,
      and it overrides a `resource_id` that later call passes itself. */
  lemma ResourceIdPersists(frozen: map<string, Value>, rn: string, k1: map<string, Value>, k2: map<string, Value>)
    requires rn in k1 && rn !in {"method", "endpoint"}
    requires rn !in k2
    ensures var o1 := ModifiedCall(frozen, Some(rn), k1);
            var o2 := ModifiedCall(o1.frozen, Some(rn), k2);
            o2.passed["resource_id"] == k1[rn]
  {
  }

  /** The closure generated for one operation: it owns the frozen dict. */
  class BoundOperation {
    const details: MethodDetails
    var frozen: map<string, Value>

    constructor (d: MethodDetails)
      ensures details == d && frozen == FrozenKwargs(d)
    {
      details := d;
      frozen := FrozenKwargs(d);
    }

    method Call(kwargs: map<string, Value>) returns (passed: map<string, Value>, warnings: seq<Warning>)
      modifies this`frozen
      ensures var o := ModifiedCall(old(frozen), details.resourceName, kwargs);
        frozen == o.frozen && passed == o.passed && warnings == o.warnings
    {
      var kw := kwargs;
      warnings := [];
      if "method" in kw {
        kw := kw - {"method"};
        warnings := warnings + [MethodNotAuthorized];
      }
      if "endpoint" in kw {
        kw := kw - {"endpoint"};
        warnings := warnings + [EndpointNotAuthorized];
      }
      if details.resourceName.Some? && details.resourceName.value in kw {
        frozen := frozen["resource_id" := kw[details.resourceName.value]];
      }
      passed := kw + frozen;
    }
  }

  // -----------------------------------------------------------------------
  // The client type being created (`_MethodsGenerator.__new__`).

  /** One public operation of the created type. */
  datatype Operation = Operation(signature: string, details: MethodDetails, frozen: map<string, Value>, doc: Option<string>)

  function OperationOf(d: MethodDetails): Operation {
    Operation(GenerateSignature(d), d, FrozenKwargs(d),
              if SomeText(d.docstring) then d.docstring else None)
  }

  /** `m[k] = v` for each pair in order. */
  function Insert<K, V>(m: map<K, V>, kvs: seq<(K, V)>): map<K, V>
    decreases |kvs|
  {
    if kvs == [] then m else Insert(m[kvs[0].0 := kvs[0].1], kvs[1..])
  }

  function InsertedKeys<K, V>(kvs: seq<(K, V)>): set<K> {
    set k | 0 <= k < |kvs| :: kvs[k].0
  }

  lemma InsertCons<K, V>(m: map<K, V>, kvs: seq<(K, V)>, i: nat)
    requires i < |kvs|
    ensures Insert(m, kvs[i..]) == Insert(m[kvs[i].0 := kvs[i].1], kvs[i + 1..])
  {
    assert kvs[i..][1..] == kvs[i + 1..];
  }

  /** After the inserts, the keys are the old ones plus the inserted ones,
      and a key no pair mentions keeps its value. */
  lemma {:induction false} InsertKeys<K, V>(m: map<K, V>, kvs: seq<(K, V)>)
    ensures Insert(m, kvs).Keys == m.Keys + InsertedKeys(kvs)
    ensures forall key :: key in m && key !in InsertedKeys(kvs) ==> Insert(m, kvs)[key] == m[key]
    decreases |kvs|
  {
    if kvs != [] {
      var rest := kvs[1..];
      InsertKeys(m[kvs[0].0 := kvs[0].1], rest);
      assert InsertedKeys(kvs) == {kvs[0].0} + InsertedKeys(rest) by {
        forall key | key in InsertedKeys(kvs)
          ensures key in {kvs[0].0} + InsertedKeys(rest)
        {
          var k :| 0 <= k < |kvs| && kvs[k].0 == key;
          if k > 0 { assert rest[k - 1] == kvs[k]; }
        }
        forall key | key in InsertedKeys(rest) ensures key in InsertedKeys(kvs) {
          var k :| 0 <= k < |rest| && rest[k].0 == key;
          assert rest[k] == kvs[k + 1];
        }
      }
    }
  }

  /** A key whose last pair is at `i` holds that pair's value. */
  lemma {:induction false} InsertLast<K, V>(m: map<K, V>, kvs: seq<(K, V)>, i: nat)
    requires i < |kvs|
    requires forall j :: i < j < |kvs| ==> kvs[j].0 != kvs[i].0
    ensures kvs[i].0 in Insert(m, kvs) && Insert(m, kvs)[kvs[i].0] == kvs[i].1
    decreases |kvs|
  {
    InsertKeys(m, kvs);
    assert kvs[i].0 in InsertedKeys(kvs);
    var rest := kvs[1..];
    if i == 0 {
      InsertKeys(m[kvs[0].0 := kvs[0].1], rest);
      assert kvs[0].0 !in InsertedKeys(rest) by {
        forall k | 0 <= k < |rest| ensures rest[k].0 != kvs[0].0 {
          assert rest[k] == kvs[k + 1];
        }
      }
    } else {
      assert rest[i - 1] == kvs[i];
      forall j | i - 1 < j < |rest| ensures rest[j].0 != rest[i - 1].0 {
        assert rest[j] == kvs[j + 1];
      }
      InsertLast(m[kvs[0].0 := kvs[0].1], rest, i - 1);
    }
  }

  /** The attribute name and the operation each record contributes. */
  function Entries(ds: seq<MethodDetails>): (r: seq<(string, Operation)>)
    ensures |r| == |ds|
  {
    seq(|ds|, k requires 0 <= k < |ds| => (PublicName(ds[k]), OperationOf(ds[k])))
  }

  /** The public names of the records, as a set. */
  function PublicNames(ds: seq<MethodDetails>): set<string> {
    set k | 0 <= k < |ds| :: PublicName(ds[k])
  }

  /** The namespace after registering the operations in order: a later
      operation with the same public name replaces an earlier one. */
  function Register(ns: map<string, Operation>, ds: seq<MethodDetails>): map<string, Operation> {
    Insert(ns, Entries(ds))
  }

  lemma EntryAt(ds: seq<MethodDetails>, k: nat)
    requires k < |ds|
    ensures Entries(ds)[k].0 == PublicName(ds[k])
  {
  }

  lemma EntryKeysWithin(ds: seq<MethodDetails>)
    ensures InsertedKeys(Entries(ds)) <= PublicNames(ds)
  {
    var kvs := Entries(ds);
    forall n | n in InsertedKeys(kvs) ensures n in PublicNames(ds) {
      var k :| 0 <= k < |kvs| && kvs[k].0 == n;
      EntryAt(ds, k);
    }
  }

  lemma EntryKeysCover(ds: seq<MethodDetails>)
    ensures PublicNames(ds) <= InsertedKeys(Entries(ds))
  {
    var kvs := Entries(ds);
    forall n | n in PublicNames(ds) ensures n in InsertedKeys(kvs) {
      var k :| 0 <= k < |ds| && PublicName(ds[k]) == n;
      EntryAt(ds, k);
      assert kvs[k].0 == n;
    }
  }

  lemma EntryKeys(ds: seq<MethodDetails>)
    ensures InsertedKeys(Entries(ds)) == PublicNames(ds)
  {
    EntryKeysWithin(ds);
    EntryKeysCover(ds);
  }

  /** Registering adds exactly the public names of the records, and an
      existing entry no record names is kept. */
  lemma RegisterKeys(ns: map<string, Operation>, ds: seq<MethodDetails>)
    ensures Register(ns, ds).Keys == ns.Keys + PublicNames(ds)
    ensures forall n :: n in ns && n !in PublicNames(ds) ==> Register(ns, ds)[n] == ns[n]
  {
    InsertKeys(ns, Entries(ds));
    EntryKeys(ds);
  }

  /** An operation whose public name no later operation reuses is registered
      under that name with its own signature, frozen values and docstring. */
  lemma RegisterLookup(ns: map<string, Operation>, ds: seq<MethodDetails>, i: nat)
    requires i < |ds|
    requires forall j :: i < j < |ds| ==> PublicName(ds[j]) != PublicName(ds[i])
    ensures PublicName(ds[i]) in Register(ns, ds)
    ensures Register(ns, ds)[PublicName(ds[i])] == OperationOf(ds[i])
  {
    var kvs := Entries(ds);
    forall j | i < j < |kvs| ensures kvs[j].0 != kvs[i].0 {
      assert kvs[j].0 == PublicName(ds[j]);
    }
    InsertLast(ns, kvs, i);
  }

  /** Pairs whose keys are pairwise distinct have as many keys. */
  lemma {:induction false} DistinctKeysCount<K, V>(kvs: seq<(K, V)>)
    requires forall k, l :: 0 <= k < l < |kvs| ==> kvs[k].0 != kvs[l].0
    ensures |InsertedKeys(kvs)| == |kvs|
  {
    if kvs != [] {
      var n := |kvs| - 1;
      var front := kvs[..n];
      assert InsertedKeys(kvs) == InsertedKeys(front) + {kvs[n].0} by {
        forall x | x in InsertedKeys(kvs) ensures x in InsertedKeys(front) + {kvs[n].0} {
          var k :| 0 <= k < |kvs| && kvs[k].0 == x;
          if k < n { assert front[k] == kvs[k]; }
        }
        forall x | x in InsertedKeys(front) ensures x in InsertedKeys(kvs) {
          var k :| 0 <= k < |front| && front[k].0 == x;
          assert kvs[k] == front[k];
        }
      }
      assert kvs[n].0 !in InsertedKeys(front) by {
        forall k | 0 <= k < |front| ensures front[k].0 != kvs[n].0 {
          assert front[k] == kvs[k];
        }
      }
      DistinctKeysCount(front);
    }
  }

  /** Records whose public names are pairwise distinct have as many names. */
  lemma DistinctNamesCount(ds: seq<MethodDetails>)
    requires forall k, l :: 0 <= k < l < |ds| ==> PublicName(ds[k]) != PublicName(ds[l])
    ensures |PublicNames(ds)| == |ds|
  {
    var kvs := Entries(ds);
    forall k, l | 0 <= k < l < |kvs| ensures kvs[k].0 != kvs[l].0 {
      EntryAt(ds, k);
      EntryAt(ds, l);
    }
    DistinctKeysCount(kvs);
    EntryKeys(ds);
  }

  /** Registering records with pairwise distinct public names into an empty
      namespace gives one operation per record, each under its own name. */
  lemma RegisterDistinct(ds: seq<MethodDetails>)
    requires forall k, l :: 0 <= k < l < |ds| ==> PublicName(ds[k]) != PublicName(ds[l])
    ensures Register(map[], ds).Keys == PublicNames(ds)
    ensures |Register(map[], ds).Keys| == |ds|
    ensures forall i :: 0 <= i < |ds| ==>
      PublicName(ds[i]) in Register(map[], ds) && Register(map[], ds)[PublicName(ds[i])] == OperationOf(ds[i])
  {
    RegisterKeys(map[], ds);
    DistinctNamesCount(ds);
    forall i | 0 <= i < |ds|
      ensures PublicName(ds[i]) in Register(map[], ds) && Register(map[], ds)[PublicName(ds[i])] == OperationOf(ds[i])
    {
      RegisterLookup(map[], ds, i);
    }
  }

  /** The first record whose exec method the type does not have. */
  function FirstMissing(ds: seq<MethodDetails>, attributes: set<string>): (r: Option<nat>)
    ensures r.Some? ==> r.value < |ds| && ds[r.value].execMethod !in attributes
    ensures r.Some? ==> forall j :: 0 <= j < r.value ==> ds[j].execMethod in attributes
    ensures r.None? <==> forall j :: 0 <= j < |ds| ==> ds[j].execMethod in attributes
    decreases |ds|
  {
    if ds == [] then None
    else if ds[0].execMethod !in attributes then Some(0)
    else
      match FirstMissing(ds[1..], attributes)
      case None => None
      case Some(i) => Some(i + 1)
  }

  /** Attaching the records in order: the first record whose exec method the
      type lacks raises `AttributeError`, and the type is then not created. */
  function BuildNamespace(ns: map<string, Operation>, ds: seq<MethodDetails>, attributes: set<string>): Result<map<string, Operation>> {
    match FirstMissing(ds, attributes)
    case Some(i) => Err(AttributeError(ds[i].execMethod))
    case None => Ok(Register(ns, ds))
  }

  /** The first record whose exec method is missing, once the loop reaches it,
      fails the attachment. */
  lemma MissingAt(ns: map<string, Operation>, ds: seq<MethodDetails>, attributes: set<string>, i: nat)
    requires i < |ds| && ds[i].execMethod !in attributes
    requires FirstMissing(ds, attributes).None? || FirstMissing(ds, attributes).value >= i
    ensures BuildNamespace(ns, ds, attributes) == Err(AttributeError(ds[i].execMethod))
  {
    var m := FirstMissing(ds, attributes);
    assert m.Some?;
    assert m.value <= i;
  }

  /** One record attached: the rest of the inserts start from the extended
      namespace. */
  lemma AttachStep(ns: map<string, Operation>, ds: seq<MethodDetails>, i: nat)
    requires i < |ds|
    ensures Insert(ns, Entries(ds)[i..]) == Insert(ns[PublicName(ds[i]) := OperationOf(ds[i])], Entries(ds)[i + 1..])
  {
    InsertCons(ns, Entries(ds), i);
  }

  /** Every record attached: the namespace is the registered one. */
  lemma AttachedAll(ns0: map<string, Operation>, ns: map<string, Operation>, ds: seq<MethodDetails>, attributes: set<string>)
    requires FirstMissing(ds, attributes).None? || FirstMissing(ds, attributes).value >= |ds|
    requires Insert(ns, Entries(ds)[|ds|..]) == Register(ns0, ds)
    ensures BuildNamespace(ns0, ds, attributes) == Ok(ns)
  {
    assert Entries(ds)[|ds|..] == [];
  }

  /** Replacing element `i` of a list that agrees with `orig` from `i` on. */
  lemma UpdateAt<T>(orig: seq<T>, table: seq<T>, i: nat, x: T)
    requires i < |table| == |orig| && table[i..] == orig[i..]
    ensures orig[i] == table[i]
    ensures var t := table[i := x];
      && t[..i + 1] == table[..i] + [x]
      && t[i + 1..] == orig[i + 1..]
      && t == t[..i + 1] + orig[i + 1..]
  {
    assert orig[i] == orig[i..][0];
    assert table[i := x][i + 1..] == table[i + 1..] == orig[i..][1..];
  }

  class ClientType {
    /** The binding table; the same list object as the module-level table, so
        the edits made by an expansion are seen by every later one. */
    var methodsBinding: seq<Binding>
    const docstringTemplate: Option<Template>
    /** Names `getattr(client, ...)` resolves to a callable (exec strategies). */
    const attributes: set<string>
    /** The public operations attached to the type. */
    var namespace: map<string, Operation>

    constructor (table: seq<Binding>, tpl: Option<Template>, attrs: set<string>)
      ensures methodsBinding == table && docstringTemplate == tpl && attributes == attrs && namespace == map[]
    {
      methodsBinding := table;
      docstringTemplate := tpl;
      attributes := attrs;
      namespace := map[];
    }

    method GetAndExtendMethods() returns (r: Result<seq<MethodDetails>>)
      modifies this`methodsBinding
      ensures (r, methodsBinding) == GetAndExtend(old(methodsBinding), docstringTemplate)
    {
      // The loop edits the table's dicts one by one; nothing reads the table
      // while it runs, so the edited table is stored back when the loop ends.
      var table := methodsBinding;
      ghost var orig := table;
      var extended: seq<Binding> := [];
      var i := 0;
      while i < |table|
        invariant 0 <= i <= |table| == |orig|
        invariant table[i..] == orig[i..]
        invariant ExpandAll(orig[..i], docstringTemplate) == Expansion(table[..i], Ok(extended))
      {
        ExpandPrefixStep(orig, i, docstringTemplate, table[..i], extended);
        var step := ExtendEntry(table[i], docstringTemplate);
        UpdateAt(orig, table, i, step.binding);
        table := table[i := step.binding];
        if step.emitted.Err? {
          StopsEarly(orig, i + 1, docstringTemplate);
          methodsBinding := table;
          r := Err(step.emitted.error);
          return;
        }
        extended := extended + step.emitted.value;
        i := i + 1;
      }
      RunsToEnd(orig, i, docstringTemplate, table, extended);
      methodsBinding := table;
      r := AllDetails(extended);
    }

    /** The loop of `__new__` over the expanded records: each is wrapped and
        attached under its public name. */
    method AttachAll(ds: seq<MethodDetails>) returns (r: Result<map<string, Operation>>)
      ensures r == BuildNamespace(namespace, ds, attributes)
    {
      var ns := namespace;
      var i := 0;
      while i < |ds|
        invariant 0 <= i <= |ds|
        invariant FirstMissing(ds, attributes).None? || FirstMissing(ds, attributes).value >= i
        invariant Insert(ns, Entries(ds)[i..]) == Register(namespace, ds)
      {
        if ds[i].execMethod !in attributes {
          MissingAt(namespace, ds, attributes, i);
          return Err(AttributeError(ds[i].execMethod));
        }
        AttachStep(ns, ds, i);
        ns := ns[PublicName(ds[i]) := OperationOf(ds[i])];
        i := i + 1;
      }
      AttachedAll(namespace, ns, ds, attributes);
      return Ok(ns);
    }

    /** `__new__`: expand the table (only when it is non-empty), then attach
        one operation per record; an exec method the type does not have fails
        the creation of the type, which then gets no operations. */
    method Build() returns (r: Result<map<string, Operation>>)
      modifies this`methodsBinding, this`namespace
      ensures old(methodsBinding) == [] ==> r == Ok(old(namespace)) && namespace == old(namespace) && methodsBinding == old(methodsBinding)
      ensures old(methodsBinding) != [] ==>
        && methodsBinding == GetAndExtend(old(methodsBinding), docstringTemplate).1
        && r == (var details := GetAndExtend(old(methodsBinding), docstringTemplate).0;
                 if details.Err? then Err(details.error) else BuildNamespace(old(namespace), details.value, attributes))
        && namespace == (if r.Ok? then r.value else old(namespace))
    {
      if methodsBinding == [] {
        return Ok(namespace);
      }
      var details := GetAndExtendMethods();
      if details.Err? {
        return Err(details.error);
      }
      r := AttachAll(details.value);
      if r.Ok? {
        namespace := r.value;
      }
    }
  }
}

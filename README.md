# SkillCorner client on fitrequest — a Dafny model

This project models the core of a small HTTP client library and the
SkillCorner API client built on it.

- **Method generation** (`fitrequest/method_generator.py`). A client
  class declares a table of binding dicts. When the class is created, each
  binding is given a docstring from the class template when it has none.
  Each binding is followed by a derived `save_` sibling unless its
  `create_save_method` flag is false. Every resulting dict is validated into
  a `MethodDetails` record. Each record becomes a public operation with a
  generated signature and a wrapper that freezes the verb, the endpoint and
  the response key.
- **Request shaping and response dispatch** (`fitrequest/client.py`).
  The endpoint is formatted with the resource id and joined to the base URL.
  List-valued query parameters are joined with commas. The response is
  decoded by its `Content-Type`, and a response key is unwrapped.
- **The SkillCorner client** (`skillcorner/client.py`). Its table has 17
  GET endpoints. A paginated response (a dict with a `next` key) is followed
  link by link and replaced by the concatenation of the pages' `results`.
  Tracking data is checked against its three file formats and decoded as
  JSON Lines.

Files:

- `py_core.dfy` — the Python builtins the core relies on: truthiness,
  `str()`, `split`, `replace`, `strip`, `join`, and a `Result` type for
  exceptions.
- `method_generator.dfy` — module `MethodGenerator`. The table expansion
  is the loop of a `ClientType` class that edits its table in place, proved
  against the specification `ExpandAll`. The wrapper is a `BoundOperation`
  class owning its frozen dict.
- `fitrequest_client.dfy` — module `FitRequestClient`: `_request` and its
  helpers. The HTTP session is a scripted value (`Server`): it answers with
  the responses of a fixed script, in order, and records every request it
  is sent.
- `skillcorner_client.dfy` — module `SkillcornerClient`: pagination
  (`Paginate`, and the loop `PaginateAndReturn` proved against it), the
  request override and the tracking-data operation.
- `skillcorner_bindings.dfy` — module `SkillcornerBindings`: the
  docstring template and the 17-entry table, and what the generator makes
  of them: 34 operations with their records.

## Model

| member | source | states |
|---|---|---|
| MethodGenerator.ParseRequestMethod | venv/lib/python3.9/site-packages/fitrequest/method_generator.py:12-17 | a verb string parses to the member whose value it is, and to nothing when no member has that value |
| MethodGenerator.ToDetails | venv/lib/python3.9/site-packages/fitrequest/method_generator.py:20-30 | validation succeeds exactly when every declared field present has its type (`Validates`: `name` and `endpoint` strings, optional strings string or `None`, `extra_params` a list of strings or `None`, `raise_for_status` a bool, `request_method` a method's value); otherwise it is a validation error, a missing `name` among them; the record carries every given value (name, endpoint, docstring, exec method, each extra parameter in order, `raise_for_status`, the parsed verb, resource name, response key), and an absent field takes its declared default (`_request`, true, GET, None) |
| MethodGenerator.AllDetails | venv/lib/python3.9/site-packages/fitrequest/method_generator.py:43-48 | one record per expanded dict, in order, each the validation of its dict; succeeds exactly when every dict validates |
| MethodGenerator.Render | venv/lib/python3.9/site-packages/fitrequest/method_generator.py:38 | `format(**method)` succeeds exactly when every field the template names is a key of the dict; otherwise it is a `KeyError` for a missing key; a template without fields renders as its own text |
| MethodGenerator.RenderReadsOnlyFields | venv/lib/python3.9/site-packages/fitrequest/method_generator.py:38 | two dicts that agree on the keys the template names render the same docstring |
| SkillcornerBindings.RenderTexts | venv/lib/python3.9/site-packages/fitrequest/method_generator.py:38 | a template whose every field is a key of the dict renders to its literal text with each field replaced by `str()` of the dict's value, in order |
| MethodGenerator.SaveName | venv/lib/python3.9/site-packages/fitrequest/method_generator.py:52-53 | corrected derivation: the text up to the first `_` becomes `save`, the rest of the name is kept; a name without `_` is unchanged |
| MethodGenerator.SaveNamesOfWords | venv/lib/python3.9/site-packages/fitrequest/method_generator.py:52-53 | for a name `w_rest`, the first word is `w`; the intended name is `save_rest`; the as-written name is `save_` followed by `rest` with every `w_` rewritten |
| MethodGenerator.SaveNameAgrees | venv/lib/python3.9/site-packages/fitrequest/method_generator.py:52-53 | the as-written and the intended derivations agree whenever `<first word>_` does not occur again after the start |
| MethodGenerator.SaveNameAsWrittenRewritesInside | venv/lib/python3.9/site-packages/fitrequest/method_generator.py:52-53 | a name `w_a w_c` is rewritten at both places as written (`save_a save_c`), unlike the intended `save_a w_c`, and the two differ |
| MethodGenerator.CreateSaveMethodFrom | venv/lib/python3.9/site-packages/fitrequest/method_generator.py:50-57 | the sibling dict keeps every other key of the source; its name is the source's replace-all derivation `SaveNameAsWritten` (every `<first word>_` becomes `save_`, see Findings); its exec method is the source's (default `_request`) plus `_and_save`; its extra params are the source's list, or none when falsy, plus `filepath`; its docstring is the source's plus the save sentence, or empty; it fails exactly when the name is missing or not a string or a truthy `extra_params` is not a list |
| MethodGenerator.PrepareBinding | venv/lib/python3.9/site-packages/fitrequest/method_generator.py:37-38 | the docstring is rendered only when a template is set and the dict's own docstring is falsy, and the dict is otherwise unchanged; this fails exactly when a named field is missing; on success only `docstring` changes |
| MethodGenerator.ExtendEntry | venv/lib/python3.9/site-packages/fitrequest/method_generator.py:36-42 | one loop iteration, editing the dict in place, yields exactly the step `ExtendOne` specifies |
| MethodGenerator.PlacedByStep | venv/lib/python3.9/site-packages/fitrequest/method_generator.py:39-42 | an iteration emits the prepared dict, followed by its `save_` sibling exactly when `create_save_method` is absent or truthy |
| MethodGenerator.ExpandStopsAtError | venv/lib/python3.9/site-packages/fitrequest/method_generator.py:36-42 | once an iteration raises, the exception is the result and the dicts after it are left untouched |
| MethodGenerator.ExpandAllSucceeds | venv/lib/python3.9/site-packages/fitrequest/method_generator.py:36-42 | the loop runs to the end when every iteration succeeds |
| MethodGenerator.ExpansionLayout | venv/lib/python3.9/site-packages/fitrequest/method_generator.py:35-42 | the expanded list keeps the bindings in order, each immediately followed by its sibling when it asks for one, and its length is the number of bindings plus the number of siblings |
| MethodGenerator.ExpansionEditsTable | venv/lib/python3.9/site-packages/fitrequest/method_generator.py:37-40 | after a complete expansion every dict of the table has the docstring rule applied and no `create_save_method` key |
| MethodGenerator.AllCreate | venv/lib/python3.9/site-packages/fitrequest/method_generator.py:40 | a table none of whose dicts has `create_save_method` gives every binding a sibling |
| MethodGenerator.SecondExpansionSavesAll | venv/lib/python3.9/site-packages/fitrequest/method_generator.py:40 | expanding the same (edited) table a second time gives every binding a sibling, so the list is twice the table |
| MethodGenerator.ClientType.GetAndExtendMethods | venv/lib/python3.9/site-packages/fitrequest/method_generator.py:34-48 | the loop over the table edits it in place and returns the records exactly as the specification `GetAndExtend` says, on the error path too |
| MethodGenerator.SignatureListsParams | venv/lib/python3.9/site-packages/fitrequest/method_generator.py:66-74 | the generated signature is the name applied to `self`, the resource name, each extra parameter annotated `str`, `params`, `raise_for_status` with the record's default, and `**kwargs`, separated by `, ` |
| MethodGenerator.PublicName | venv/lib/python3.9/site-packages/fitrequest/method_generator.py:105 | the attribute name neither starts nor ends with `_` |
| MethodGenerator.FrozenKwargs | venv/lib/python3.9/site-packages/fitrequest/method_generator.py:77-81 | the frozen keyword arguments are exactly `method`, `endpoint` and `response_key` |
| MethodGenerator.FrozenKwargsWin | venv/lib/python3.9/site-packages/fitrequest/method_generator.py:83-94 | the frozen verb, endpoint and response key always reach the exec method; the caller's `method`/`endpoint` never do and each logs one warning; the resource name's value is passed as `resource_id`; every other argument is passed unchanged |
| MethodGenerator.ResourceIdPersists | venv/lib/python3.9/site-packages/fitrequest/method_generator.py:91-94 | a resource id stored by one call is still passed by a later call that does not supply the resource name, and it overrides a `resource_id` that later call passes itself |
| MethodGenerator.BoundOperation.constructor | venv/lib/python3.9/site-packages/fitrequest/method_generator.py:77-81 | a new wrapper starts from the frozen keyword arguments of its record |
| MethodGenerator.BoundOperation.Call | venv/lib/python3.9/site-packages/fitrequest/method_generator.py:83-94 | one call updates the frozen dict and passes on the arguments and warnings `ModifiedCall` specifies |
| MethodGenerator.RegisterKeys | venv/lib/python3.9/site-packages/fitrequest/method_generator.py:104-106 | registering the operations adds exactly their public names and keeps every other attribute |
| MethodGenerator.RegisterLookup | venv/lib/python3.9/site-packages/fitrequest/method_generator.py:104-108 | an operation whose public name no later operation reuses is found under that name with its own signature, frozen values and docstring |
| MethodGenerator.FirstMissing | venv/lib/python3.9/site-packages/fitrequest/method_generator.py:101-102 | the first record whose exec method the type lacks; none exactly when every exec method exists |
| MethodGenerator.ClientType.AttachAll | venv/lib/python3.9/site-packages/fitrequest/method_generator.py:101-108 | attaching the records yields the namespace `BuildNamespace` specifies: an `AttributeError` at the first unknown exec method, else every operation registered in order |
| MethodGenerator.ClientType.Build | venv/lib/python3.9/site-packages/fitrequest/method_generator.py:98-109 | an empty table creates the type unchanged; otherwise the table is expanded in place and the operations are attached, and a failure leaves the namespace as it was |
| FitRequestClient.Classify | venv/lib/python3.9/site-packages/fitrequest/client.py:79-86 | the content-type suffix tests in the source's order: `json` first, then `plain`/`html`, then `xml`, else bytes (each case as an if-and-only-if) |
| FitRequestClient.HandleResponse | venv/lib/python3.9/site-packages/fitrequest/client.py:74-86 | the body is the decoded JSON, the text, the element tree or the raw bytes according to the content type; a decoding failure is an error |
| FitRequestClient.MissingContentTypeIsBytes | venv/lib/python3.9/site-packages/fitrequest/client.py:78 | a response without `Content-Type` is returned as raw bytes |
| FitRequestClient.ClassifyJsonSuffix | venv/lib/python3.9/site-packages/fitrequest/client.py:79-80 | any content type ending in `json` is decoded as JSON, whatever precedes the suffix |
| FitRequestClient.ClassifyJson | venv/lib/python3.9/site-packages/fitrequest/client.py:79-80 | `application/json` is decoded as JSON |
| FitRequestClient.ClassifyHtml | venv/lib/python3.9/site-packages/fitrequest/client.py:81-82 | `text/html` is returned as text |
| FitRequestClient.ClassifyPlain | venv/lib/python3.9/site-packages/fitrequest/client.py:81-82 | `text/plain` is returned as text |
| FitRequestClient.ClassifyXml | venv/lib/python3.9/site-packages/fitrequest/client.py:83-84 | `application/xml` is parsed as XML |
| FitRequestClient.ClassifyOctetStream | venv/lib/python3.9/site-packages/fitrequest/client.py:79-86 | `application/octet-stream` matches no suffix and is returned as raw bytes |
| FitRequestClient.UnwrapKey | venv/lib/python3.9/site-packages/fitrequest/client.py:128 | a dict response with a non-empty response key is replaced by that key's value, and a missing key is a `KeyError`; any other response is returned unchanged |
| FitRequestClient.TransformParams | venv/lib/python3.9/site-packages/fitrequest/client.py:164-166 | the transformed parameters have the same keys, each value transformed on its own |
| FitRequestClient.SentParams | venv/lib/python3.9/site-packages/fitrequest/client.py:115 | parameters are sent, transformed, exactly when they are given and non-empty |
| FitRequestClient.TransformParamsIdempotent | venv/lib/python3.9/site-packages/fitrequest/client.py:164-166 | transforming twice is transforming once |
| FitRequestClient.TransformListRoundTrip | venv/lib/python3.9/site-packages/fitrequest/client.py:166 | an empty list is sent as the empty string; a list of comma-free strings is sent as a text that splits back on `,` into exactly those strings |
| FitRequestClient.FillWithoutBraces | venv/lib/python3.9/site-packages/fitrequest/client.py:108 | an endpoint without braces is left unchanged by `format` |
| FitRequestClient.FillOnePlaceholder | venv/lib/python3.9/site-packages/fitrequest/client.py:108 | an endpoint with a single `{}` and no other brace has it replaced by the id's text |
| FitRequestClient.FillTwoPlaceholders | venv/lib/python3.9/site-packages/fitrequest/client.py:108 | an endpoint with two `{}` fails with `IndexError` |
| FitRequestClient.FinalUrlStripsSlashes | venv/lib/python3.9/site-packages/fitrequest/client.py:70-72 | however many slashes lead the endpoint, exactly one separates it from the base URL and the rest of the endpoint is kept |
| FitRequestClient.Send | venv/lib/python3.9/site-packages/fitrequest/client.py:111-117 | the scripted session answers with its next response and logs the request, or fails with a connection error and changes nothing when the script is exhausted |
| FitRequestClient.Execute | venv/lib/python3.9/site-packages/fitrequest/client.py:70-128 | a call sends at most one request, and only a successful one consumes a scripted response; when the endpoint cannot be filled, or the URL built from it is invalid, that error (`InvalidUrl` with the message naming the URL) is returned and nothing is sent; with no response scripted the call fails and the session is untouched |
| FitRequestClient.ExecuteSends | venv/lib/python3.9/site-packages/fitrequest/client.py:108-128 | a well-formed call to a valid URL sends exactly one request, carrying the filled URL and the shaped parameters, and returns the decoded, unwrapped response |
| SkillcornerClient.CompleteUnlessNext | venv/lib/python3.9/site-packages/skillcorner/client.py:122-123 | every text, XML tree, byte string and non-object JSON document is complete; an object is complete exactly when it has no `next` key, whatever its other keys, and one with a `next` key is not, even when it is null |
| SkillcornerClient.NextEndpoint | venv/lib/python3.9/site-packages/skillcorner/client.py:135 | a non-string link is an `AttributeError`, an empty base URL a `ValueError`; otherwise it succeeds exactly when the base URL occurs in the link |
| SkillcornerClient.NextEndpointOfLink | venv/lib/python3.9/site-packages/skillcorner/client.py:135 | a link made of the base URL and a path that does not repeat it yields that path |
| SkillcornerClient.PageResults | venv/lib/python3.9/site-packages/skillcorner/client.py:130 | a page's results are read exactly when it is a dict whose `results` is a list, and they are that list |
| SkillcornerClient.PaginateAndReturn | venv/lib/python3.9/site-packages/skillcorner/client.py:125-140 | the loop returns the results and leaves the session exactly as the recursive specification `Paginate` says |
| SkillcornerClient.PaginateLastPage | venv/lib/python3.9/site-packages/skillcorner/client.py:130-132 | a page with a null `next` ends the loop with its results appended and no request sent |
| SkillcornerClient.PaginateFollowsLink | venv/lib/python3.9/site-packages/skillcorner/client.py:130-139 | a page linking to a path appends its results and continues with the response to the follow-up request |
| SkillcornerClient.PaginateFollowsChain | venv/lib/python3.9/site-packages/skillcorner/client.py:125-140 | over a chain of pages, pagination returns every page's results in chain order and sends one follow-up request per further page, to the linked URL, without query parameters |
| SkillcornerClient.RequestReturnsComplete | venv/lib/python3.9/site-packages/skillcorner/client.py:150-154 | a failed base request, or a complete response, is returned as it is after that one request |
| SkillcornerClient.RequestFollowsChain | venv/lib/python3.9/site-packages/skillcorner/client.py:142-155 | a call answered by the first page of a chain returns the list of all the chain's results in place of that page |
| SkillcornerClient.CheckFormat | venv/lib/python3.9/site-packages/skillcorner/client.py:165-167 | the format check passes exactly when no parameters are given or `file_format` (default `jsonl`) is one of the three valid formats; otherwise it is a `ValueError` |
| SkillcornerClient.SplitJoinLines | venv/lib/python3.9/site-packages/skillcorner/client.py:170 | splitting a text of lines, each ended by `\n` and free of line breaks, gives back exactly those lines |
| SkillcornerClient.LoadAll | venv/lib/python3.9/site-packages/skillcorner/client.py:170 | decoding succeeds exactly when every line decodes, giving one record per line in line order |
| SkillcornerClient.DecodeJoinedText | venv/lib/python3.9/site-packages/skillcorner/client.py:169-170 | a JSON Lines text decodes to one record per line, in line order |
| SkillcornerClient.DecodeLinesByType | venv/lib/python3.9/site-packages/skillcorner/client.py:169-170 | a JSON document that is a string is split and decoded exactly as a text body, succeeding exactly when every line decodes; a body that is neither `str` nor `bytes` (a decoded list, dict, number or `None`, or an XML element) is an `AttributeError` |
| SkillcornerClient.DecodeJoinedJsonString | venv/lib/python3.9/site-packages/skillcorner/client.py:169-170 | a JSON string holding JSON Lines decodes to one record per line, in line order |
| SkillcornerClient.GetTrackingData | venv/lib/python3.9/site-packages/skillcorner/client.py:157-172 | an invalid format fails before any request; JSON Lines are decoded line by line, whether the body is text, bytes or a JSON string; FIFA formats are returned as received; the branch returning nothing is unreachable |
| SkillcornerBindings.DocstringSource | venv/lib/python3.9/site-packages/skillcorner/client.py:14-17 | the modelled template is exactly `METHOD_DOCSTRING`, with its two fields `endpoint` and `docs_url_anchor`, and it is set |
| SkillcornerBindings.RenderEntry | venv/lib/python3.9/site-packages/skillcorner/client.py:14-17 | an entry's docstring is the template with its endpoint and its documentation anchor filled in |
| SkillcornerBindings.PathTextFixed | venv/lib/python3.9/site-packages/skillcorner/client.py:59 | the segments `api`, `matches` give exactly the source text `/api/matches/` |
| SkillcornerBindings.PathTextWithId | venv/lib/python3.9/site-packages/skillcorner/client.py:32 | the segments around the placeholder give exactly the source text `/api/competitions/{}/editions/` |
| SkillcornerBindings.ToBinding | venv/lib/python3.9/site-packages/skillcorner/client.py:19-113 | an entry's dict has `name`, `endpoint`, `docs_url_anchor`, and `resource_name`/`exec_method` only where the table sets them |
| SkillcornerBindings.TableChecked | venv/lib/python3.9/site-packages/skillcorner/client.py:19-113 | every entry has a brace-free path, a resource name exactly when its endpoint has a placeholder, and no `get_` inside its name after the prefix |
| SkillcornerBindings.TablePlaceholders | venv/lib/python3.9/site-packages/skillcorner/client.py:19-113 | each endpoint with a resource name has exactly one `{` and one `}`, the others none, and filling any of them with any id succeeds |
| SkillcornerBindings.FillEntry | venv/lib/python3.9/site-packages/fitrequest/client.py:108 | filling a well-formed endpoint leaves a fixed one unchanged and puts the id's text in place of the placeholder |
| SkillcornerBindings.NamesDistinct | venv/lib/python3.9/site-packages/skillcorner/client.py:19-113 | no two entries share a name |
| SkillcornerBindings.EntryNameAgrees | venv/lib/python3.9/site-packages/fitrequest/method_generator.py:52-53 | for an entry whose subject has no further `get_`, the as-written and the intended `save_` names agree |
| SkillcornerBindings.TableSaveNamesAgree | venv/lib/python3.9/site-packages/skillcorner/client.py:19-113 | for every name in the table the source's derivation of the `save_` name gives the intended `save_<subject>` |
| SkillcornerBindings.PrepareEntry | venv/lib/python3.9/site-packages/fitrequest/method_generator.py:37-40 | every entry gets its docstring from the template and asks for a `save_` sibling |
| SkillcornerBindings.SiblingOfEntry | venv/lib/python3.9/site-packages/fitrequest/method_generator.py:50-57 | an entry's sibling is named by the source's derivation, which for every entry of the table is `save_<subject>` (`TableSaveNamesAgree`), runs `<exec method>_and_save`, takes `filepath` and documents the saving |
| SkillcornerBindings.DetailsOfEntry | venv/lib/python3.9/site-packages/fitrequest/method_generator.py:43-48 | an entry's dict validates into a GET record with its name, endpoint, docstring, exec method and resource name |
| SkillcornerBindings.DetailsOfSibling | venv/lib/python3.9/site-packages/fitrequest/method_generator.py:43-48 | a sibling's dict validates into the matching `save_` record |
| SkillcornerBindings.EntriesExpand | venv/lib/python3.9/site-packages/fitrequest/method_generator.py:34-42 | a list of entries expands to twice as many dicts, each entry's dict followed by its sibling's |
| SkillcornerBindings.EntriesRecords | venv/lib/python3.9/site-packages/fitrequest/method_generator.py:34-48 | a list of entries yields, for each entry, its own record and then its sibling's record |
| SkillcornerBindings.TableRecords | venv/lib/python3.9/site-packages/skillcorner/client.py:19-113 | the client's table yields 34 operations in table order, each entry followed by its `save_` sibling |
| SkillcornerBindings.EntriesBuild | venv/lib/python3.9/site-packages/fitrequest/method_generator.py:101-102 | entries that name no exec method or the tracking one yield only operations whose exec strategy the client has |
| SkillcornerBindings.TableBuilds | venv/lib/python3.9/site-packages/skillcorner/client.py:116-120 | creating `SkillcornerClient` attaches every one of its 34 operations: each names an exec strategy the client has |
| MethodGenerator.DistinctKeysCount | venv/lib/python3.9/site-packages/fitrequest/method_generator.py:101-106 | key/value pairs with pairwise distinct keys set exactly as many attributes as there are pairs |
| MethodGenerator.DistinctNamesCount | venv/lib/python3.9/site-packages/fitrequest/method_generator.py:101-106 | records with pairwise distinct public names give as many attribute names as records |
| MethodGenerator.RegisterDistinct | venv/lib/python3.9/site-packages/fitrequest/method_generator.py:101-108 | registering records with pairwise distinct public names on a fresh client gives exactly those names, one attribute per record, each bound to its own record's operation |
| SkillcornerBindings.PublicNamesOfEntry | venv/lib/python3.9/site-packages/fitrequest/method_generator.py:52-60 | for a subject that is not empty and does not end in `_`, `strip('_')` leaves the entry's names as `get_<subject>` and `save_<subject>` |
| SkillcornerBindings.RecordNamesDistinct | venv/lib/python3.9/site-packages/fitrequest/method_generator.py:36-60 | records expanded from entries with distinct subjects, each followed by its `save_` sibling, have pairwise distinct public names: a `get_` name never meets a `save_` name and same-kind names differ by subject |
| SkillcornerBindings.ExpandedLookup | venv/lib/python3.9/site-packages/fitrequest/method_generator.py:101-108 | registering such records gives one attribute per record, and each entry's `get_<subject>` and `save_<subject>` find its own operation and its sibling |
| SkillcornerBindings.TableLookup | venv/lib/python3.9/site-packages/skillcorner/client.py:19-120 | `SkillcornerClient` ends up with 34 distinct operation attributes: for each of the 17 entries `get_<subject>` is its own operation and `save_<subject>` its saving sibling, and no operation replaces another |

## Left out

- Logging is left out. The wrapper's warnings are returned as values.
  So are the HTTP session, authentication, retries, `User-Agent`, timeouts and
  the `response_log_level` log.
- The session is a scripted test double (`Server`). It lets the pagination
  loop terminate: each follow-up request consumes one scripted response.
- `raise_for_status` is left out: the status code is not modelled.
- `urlparse` is a parameter of the configuration (`isUrlValid`).
  `response.json()`, `defusedxml` and `orjson.loads` are given as results on
  the response or as parameters, because their parsers are foreign code.
- `_build_final_url` returns a `ValueError` object in place of the URL, and
  the session then fails on it. The model turns this into an `InvalidUrl`
  error before any request is sent.
- `_save_data`, `_request_and_save` and `_get_tracking_data_and_save` are
  left out: they write files. Their names are modelled as exec strategies
  the client has.
- `__getattr__` is left out: its close-match suggestion uses `difflib`.
- `makefun.create_function` and `setattr` are modelled as a signature string
  and a namespace map.
- `str.format` is modelled only for what endpoints and docstrings use:
  `{}` and `{0}` fields, `{{`/`}}` escapes and named fields. Format specs,
  conversions and attribute or index access in a field are not modelled.
- Headers are looked up case-sensitively: `requests` folds case, the model
  does not.
- `results.extend(...)` is modelled for a list of results only; extending
  with a string or a dict (which Python allows) is an error in the model.
- MethodGenerator.ToDetails: does not model pydantic's coercions or the
  `docstring_variables` field. An `extra_params` whose items are not all
  strings is rejected here, while pydantic accepts any list; such a record
  fails later, when its signature is joined (line 72).
- MethodGenerator.ExtendOne: its own contract bounds only the number of dicts
  emitted. The content is stated by `PlacedByStep` and `ExpansionLayout`.
- SkillcornerClient.Paginate: has no contract of its own, because it is the
  specification of the loop. Its behaviour is stated by the
  `Paginate*` lemmas.
- SkillcornerBindings.Table: the names are written as `"get_" + subject` and
  the endpoints as lists of path segments. Only two endpoints are proved
  equal to the source's literal text (`PathTextFixed`, `PathTextWithId`);
  the other fifteen are transcribed segment by segment, and no lemma checks
  them against the text.
- The request body `data` of `_request` (client.py lines 100 and 114) is not
  modelled: `Call` and `SentRequest` carry no body, because the session
  passes it on unchanged and nothing in the core reads it.
- MethodGenerator.ClientType.AttachAll: the exec methods the type has are a
  fixed set (`attributes`). In the source `getattr` runs after the earlier
  `setattr` calls of the same loop, so an exec method naming an operation
  generated earlier in that loop would also be found; the model does not
  capture that.
- PyCore.ToStr: a string inside a list or tuple is rendered by `Repr`
  between single quotes with no escaping. Python's `repr` switches to double quotes for a
  string holding `'` and escapes backslashes and control characters; the
  model does not.
- FitRequestClient.Format: a field ends at the first `}`; Python counts
  nested braces when it looks for the end of a field. A `{` inside a field
  is a `ValueError` in both, but for an unbalanced one such as `"{a{b}"`
  Python's message is "expected '}' before end of string" and the model's
  is "unexpected '{' in field name".
- Dicts are values in the model. When the source puts the same dict object
  in two slots of a methods binding, updating one slot in place also changes
  the other; the model does not capture that aliasing. No binding of the
  SkillCorner table shares a dict between slots.
- MethodGenerator.TemplateSource: a docstring template is given already cut
  into literal text and named fields. A literal holding `{` or `}` is
  written back without `{{`/`}}` escaping, and a positional `{}` field
  (an `IndexError` under `format(**method)`) cannot be expressed. The
  SkillCorner template has neither.
- Floating-point JSON numbers and the XML tree beyond tag, text and children
  are not modelled.

## Findings

| source | as written | input that shows it | evidently intended | confidence | as-written member | corrected member |
|---|---|---|---|---|---|---|
| venv/lib/python3.9/site-packages/fitrequest/method_generator.py:52-53 | `name.replace(f'{prefix_verb}_', 'save_')` rewrites every occurrence of the first word followed by `_` | `get_budget_report` becomes `save_budsave_report` | `save_budget_report`: only the leading verb is replaced | not executed | MethodGenerator.SaveNameAsWrittenRewritesInside | MethodGenerator.SaveName |

The model follows the source as written: `CreateSaveMethodFrom` derives
the sibling's name with `SaveNameAsWritten`. For the SkillCorner table both
derivations give `save_<subject>` (`TableSaveNamesAgree`).

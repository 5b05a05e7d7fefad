/** The fetch wrapper of src/api/client.js: base-URL normalisation, path joining,
    query-parameter filtering, header merging and response-to-error mapping.
    `fetch`, `JSON.parse` and the `URL` class are abstract: their results are inputs. */
module ApiClient {
  import opened Entities

  /** `BASE_URL`: the configured base with one trailing `/` removed, `''` when unset. */
  function NormalizeBase(configured: Option<string>): (b: string)
    ensures configured.None? ==> b == ""
    ensures configured.Some? ==> configured.value == b || configured.value == b + "/"
    ensures configured.Some? && |configured.value| > 0 && configured.value[|configured.value| - 1] == '/' ==>
      configured.value == b + "/"
    ensures configured.Some? && (configured.value == "" || configured.value[|configured.value| - 1] != '/') ==>
      b == configured.value
  {
    if configured.None? then ""
    else
      var s := configured.value;
      if |s| > 0 && s[|s| - 1] == '/' then s[..|s| - 1] else s
  }

  /** `buildUrl`: the base followed by the path, with exactly one `/` inserted when the path lacks it. */
  function BuildUrl(base: string, path: string): (u: string)
    ensures |u| > |base| && u[..|base|] == base && u[|base|] == '/'
    ensures |path| > 0 && path[0] == '/' ==> u == base + path
    ensures (path == "" || path[0] != '/') ==> u == base + "/" + path
  {
    var p := if |path| > 0 && path[0] == '/' then path else "/" + path;
    base + p
  }

  /** Prefixing a `/` to a path that lacks one does not change the URL. */
  lemma BuildUrlLeadingSlash(base: string, path: string)
    requires path == "" || path[0] != '/'
    ensures BuildUrl(base, path) == BuildUrl(base, "/" + path)
  {
  }

  /** A query-parameter value: `undefined`, `null`, or any other value as `String(v)` renders it. */
  datatype ParamValue = Undefined | Null | Value(text: string)

  /** The parameters kept, as (key, string) pairs in entry order. */
  function KeptParams(entries: seq<(string, ParamValue)>): seq<(string, string)>
  {
    if entries == [] then []
    else
      var (k, v) := entries[0];
      (if v.Value? then [(k, v.text)] else []) + KeptParams(entries[1..])
  }

  /** Filtering distributes over concatenation, so kept parameters stay in entry order. */
  lemma {:induction false} KeptParamsAppend(xs: seq<(string, ParamValue)>, ys: seq<(string, ParamValue)>)
    ensures KeptParams(xs + ys) == KeptParams(xs) + KeptParams(ys)
    decreases |xs|
  {
    if xs == [] {
      assert xs + ys == ys;
    } else {
      assert (xs + ys)[0] == xs[0] && (xs + ys)[1..] == xs[1..] + ys;
      KeptParamsAppend(xs[1..], ys);
    }
  }

  /** A pair is sent iff the entry had a value other than `undefined` or `null`. */
  lemma {:induction false} KeptParamsMembers(entries: seq<(string, ParamValue)>, k: string, s: string)
    ensures (k, s) in KeptParams(entries) <==> (k, Value(s)) in entries
    decreases |entries|
  {
    if entries != [] {
      KeptParamsMembers(entries[1..], k, s);
      var head := if entries[0].1.Value? then [(entries[0].0, entries[0].1.text)] else [];
      assert KeptParams(entries) == head + KeptParams(entries[1..]);
      assert (k, Value(s)) in entries <==> entries[0] == (k, Value(s)) || (k, Value(s)) in entries[1..] by {
        assert entries == [entries[0]] + entries[1..];
      }
    }
  }

  /** The forEach over `Object.entries(params)`, appending to the URL's search parameters.
      `params` is `None` when not given or not an object. */
  method AppendParams(search: seq<(string, string)>, params: Option<seq<(string, ParamValue)>>)
    returns (r: seq<(string, string)>)
    ensures r == search + KeptParams(OrEmpty(params))
  {
    r := search;
    if params.None? {
      return;
    }
    var entries := params.value;
    var i := 0;
    while i < |entries|
      invariant 0 <= i <= |entries|
      invariant r == search + KeptParams(entries[..i])
    {
      var (k, v) := entries[i];
      KeptParamsAppend(entries[..i], [entries[i]]);
      assert entries[..i + 1] == entries[..i] + [entries[i]];
      if v.Undefined? || v.Null? {
        // skipped
      } else {
        r := r + [(k, v.text)];
      }
      i := i + 1;
    }
    assert entries[..i] == entries;
  }

  /** A request body: `NoBody` for every falsy value, a `FormData`, or any other value
      carried as its `JSON.stringify` text. */
  datatype Body = NoBody | FormDataBody(fields: seq<(string, string)>) | JsonBody(serialized: string)

  /** `token || localStorage.getItem('auth_token')`, absent when both are empty. */
  function AuthToken(token: Option<string>, stored: Option<string>): (t: Option<string>)
    ensures t.Some? <==> Truthy(token) || Truthy(stored)
    ensures t.Some? ==> t.value != ""
    ensures Truthy(token) ==> t == token
    ensures !Truthy(token) && Truthy(stored) ==> t == stored
  {
    if Truthy(token) then token else if Truthy(stored) then stored else None
  }

  /** What the final headers must be: caller headers over the `Accept` default, then
      `Content-Type` for a JSON body and `Authorization` for a token, both over the caller's. */
  predicate HeadersFor(caller: map<string, string>, body: Body, tok: Option<string>, h: map<string, string>)
  {
    && h.Keys == caller.Keys + {"Accept"} + (if body.JsonBody? then {"Content-Type"} else {})
                 + (if tok.Some? then {"Authorization"} else {})
    && h["Accept"] == (if "Accept" in caller then caller["Accept"] else "application/json")
    && (body.JsonBody? ==> h["Content-Type"] == "application/json")
    && (tok.Some? ==> h["Authorization"] == "Bearer " + tok.value)
    && (forall k :: (k in caller && k != "Accept" && (k != "Content-Type" || !body.JsonBody?)
                     && (k != "Authorization" || tok.None?)) ==> h[k] == caller[k])
  }

  /** Two header maps meeting `HeadersFor` are equal: it determines the headers. */
  lemma HeadersForUnique(caller: map<string, string>, body: Body, tok: Option<string>,
                         h1: map<string, string>, h2: map<string, string>)
    requires HeadersFor(caller, body, tok, h1) && HeadersFor(caller, body, tok, h2)
    ensures h1 == h2
  {
  }

  /** `finalHeaders`, built by spreading and then overwriting entries. */
  method BuildHeaders(caller: map<string, string>, body: Body, token: Option<string>, stored: Option<string>)
    returns (h: map<string, string>)
    ensures HeadersFor(caller, body, AuthToken(token, stored), h)
  {
    h := map["Accept" := "application/json"] + caller;
    if body.JsonBody? {
      h := h["Content-Type" := "application/json"];
    }
    var authToken := AuthToken(token, stored);
    if authToken.Some? {
      h := h["Authorization" := "Bearer " + authToken.value];
    }
  }

  /** A parsed response body: the text it came from and its `message` member. */
  datatype Json = Json(text: string, message: Option<string>)

  /** What `JSON.parse` makes of a response text: a value (`None` for `null`) or a syntax error. */
  datatype ParseResult = Parsed(data: Option<Json>) | SyntaxError

  datatype Response = Response(ok: bool, status: int, statusText: string, text: string)

  /** What `request` resolves or rejects with. */
  datatype Outcome =
    | Data(data: Option<Json>)
    | RawResponse(response: Response)
    | HttpError(message: string, status: int, data: Option<Json>)
    | ParseFailure

  /** `data?.message` when truthy, else the status text. */
  function ErrorMessage(data: Option<Json>, statusText: string): string
  {
    if data.Some? then OrElse(data.value.message, statusText) else statusText
  }

  /** The response handling of `request`; `parsed` is what `JSON.parse` gives for `res.text`. */
  function HandleResponse(res: Response, raw: bool, parsed: ParseResult): (o: Outcome)
    ensures raw ==> o == RawResponse(res)
    ensures !raw && res.text == "" && res.ok ==> o == Data(None)
    ensures !raw ==> !o.RawResponse?
    ensures !raw && res.text != "" && parsed.SyntaxError? ==> o == ParseFailure
    ensures !raw && res.ok && (res.text == "" || parsed.Parsed?) ==>
      o == Data(if res.text == "" then None else parsed.data)
    ensures o.Data? ==> res.ok && !raw && o.data == (if res.text == "" then None else parsed.data)
    ensures o.HttpError? <==> !raw && !res.ok && (res.text == "" || parsed.Parsed?)
    ensures o.HttpError? ==>
      var data := if res.text == "" then None else parsed.data;
      o.status == res.status && o.data == data && o.message == ErrorMessage(data, res.statusText)
    ensures o.HttpError? && o.data.Some? && Truthy(o.data.value.message) ==> o.message == o.data.value.message.value
  {
    if raw then RawResponse(res)
    else if res.text != "" && parsed.SyntaxError? then ParseFailure
    else
      var data := if res.text == "" then None else parsed.data;
      if !res.ok then HttpError(ErrorMessage(data, res.statusText), res.status, data)
      else Data(data)
  }

  /** The options object of `request`; absent fields are `None`, `NoBody`, an empty map or false. */
  datatype Options = Options(params: Option<seq<(string, ParamValue)>>, body: Body,
                             headers: map<string, string>, token: Option<string>, raw: bool)

  /** The call handed to `fetch`: target path, appended query, method, headers, body, credentials. */
  datatype FetchCall = FetchCall(path: string, query: seq<(string, string)>, httpMethod: string,
                                 headers: map<string, string>, body: Body, credentials: string)

  /** `request`: builds the fetch call and maps the response `res` the backend gives to it.
      `configuredBase` is the configured base URL, unset when absent. */
  method Request(configuredBase: Option<string>, httpMethod: string, path: string, opts: Options, storedToken: Option<string>,
                 res: Response, parsed: ParseResult)
    returns (call: FetchCall, outcome: Outcome)
    ensures call.path == BuildUrl(NormalizeBase(configuredBase), path)
    ensures call.query == KeptParams(OrEmpty(opts.params))
    ensures call.httpMethod == httpMethod && call.body == opts.body && call.credentials == "include"
    ensures HeadersFor(opts.headers, opts.body, AuthToken(opts.token, storedToken), call.headers)
    ensures outcome == HandleResponse(res, opts.raw, parsed)
  {
    var target := BuildUrl(NormalizeBase(configuredBase), path);
    var query := AppendParams([], opts.params);
    var headers := BuildHeaders(opts.headers, opts.body, opts.token, storedToken);
    call := FetchCall(target, query, httpMethod, headers, opts.body, "include");
    if !opts.raw {
      var data: Option<Json>;
      if res.text == "" {
        data := None;
      } else if parsed.SyntaxError? {
        return call, ParseFailure;
      } else {
        data := parsed.data;
      }
      if !res.ok {
        return call, HttpError(ErrorMessage(data, res.statusText), res.status, data);
      }
      return call, Data(data);
    }
    outcome := RawResponse(res);
  }
}

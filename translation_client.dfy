/** The client of the translation server: which request each tool sends, the
    input guards that stop a call before any request, and how a response
    becomes a result or an error. */
module TranslationClient {
  import opened Prelude
  import opened Json
  import opened Http

  /** The translation server the client talks to when no other base URL is
      configured. */
  const DefaultTranslationUrl := "http://127.0.0.1:1969"

  /** `/^https?:\/\//i` as a regular expression engine runs it: "http", an
      optional "s", then "://", with letters compared case-insensitively. */
  predicate MatchesHttpPattern(s: string)
  {
    && |s| >= 4
    && LowerChar(s[0]) == 'h' && LowerChar(s[1]) == 't'
    && LowerChar(s[2]) == 't' && LowerChar(s[3]) == 'p'
    && (SeparatorAt(s, 4) || (|s| >= 5 && LowerChar(s[4]) == 's' && SeparatorAt(s, 5)))
  }

  predicate SeparatorAt(s: string, i: nat)
  {
    i + 3 <= |s| && s[i] == ':' && s[i + 1] == '/' && s[i + 2] == '/'
  }

  /** Reference reading of the test: ignoring case, the text begins with
      "http://" or with "https://". */
  predicate HasHttpScheme(s: string)
  {
    "http://" <= Lower(s) || "https://" <= Lower(s)
  }

  lemma HttpPatternIsSchemePrefix(s: string)
    ensures MatchesHttpPattern(s) <==> HasHttpScheme(s)
  {
    var l := Lower(s);
    if "http://" <= l {
      assert l[..7] == "http://";
      assert LowerChar(s[4]) == ':' && LowerChar(s[5]) == '/' && LowerChar(s[6]) == '/';
    }
    if "https://" <= l {
      assert l[..8] == "https://";
      assert LowerChar(s[5]) == ':' && LowerChar(s[6]) == '/' && LowerChar(s[7]) == '/';
    }
    if MatchesHttpPattern(s) {
      if SeparatorAt(s, 4) {
        assert l[..7] == "http://";
      } else {
        assert l[..8] == "https://";
      }
    }
  }

  /** `toUrl`: an absolute http(s) URL is used as given, anything else is
      resolved against the server's base URL. */
  function ToUrl(pathOrUrl: string, base: string): (r: Url)
    ensures HasHttpScheme(pathOrUrl) ==> r == Absolute(pathOrUrl)
    ensures !HasHttpScheme(pathOrUrl) ==> r == Resolved(pathOrUrl, base)
  {
    HttpPatternIsSchemePrefix(pathOrUrl);
    if MatchesHttpPattern(pathOrUrl) then Absolute(pathOrUrl) else Resolved(pathOrUrl, base)
  }

  /** A scheme written in capitals still counts as absolute. */
  lemma UpperCaseSchemeIsAbsolute(base: string)
    ensures ToUrl("HTTPS://example.org/a", base) == Absolute("HTTPS://example.org/a")
    ensures ToUrl("/web", base) == Resolved("/web", base)
    ensures ToUrl("ftp://example.org", base) == Resolved("ftp://example.org", base)
  {
    assert Lower("HTTPS://example.org/a")[..8] == "https://";
    assert Lower("/web")[0] == '/';
    assert Lower("ftp://example.org")[0] == 'f';
  }

  /** `parseJsonMaybe`: only a string is parsed, and a string that is not JSON
      comes back unchanged. */
  function ParseJsonMaybe(body: Value, parse: Parser): (r: Value)
    ensures !body.Str? ==> r == body
    ensures body.Str? && parse(body.s).None? ==> r == body
    ensures body.Str? && parse(body.s).Some? ==> r == parse(body.s).value
  {
    if Nullish(body) then body
    else if !body.Str? then body
    else match parse(body.s)
      case Some(v) => v
      case None => body
  }

  /** `ensureOk`: an error exactly for a status of 400 or more, carrying the
      operation, the status and the (parsed) body. */
  function EnsureOk(resp: Response, operation: string, parse: Parser): (r: Option<Error>)
    ensures r.Some? <==> IsFailureStatus(resp.statusCode)
    ensures r.Some? ==> r.value == Rejected(operation, resp.statusCode, Detail(ParseJsonMaybe(resp.body, parse)))
  {
    if resp.statusCode >= 400 then
      Some(Rejected(operation, resp.statusCode, Detail(ParseJsonMaybe(resp.body, parse))))
    else None
  }

  /** `ensureOk(...)` followed by `return success`. */
  function Checked(resp: Response, operation: string, parse: Parser, success: Value): (r: Result<Value>)
    ensures r.Err? <==> IsFailureStatus(resp.statusCode)
    ensures r.Err? ==> r.error == Rejected(operation, resp.statusCode, Detail(ParseJsonMaybe(resp.body, parse)))
    ensures r.Err? ==> EnsureOk(resp, operation, parse) == Some(r.error)
    ensures r.Ok? ==> r.value == success
  {
    match EnsureOk(resp, operation, parse)
    case Some(e) => Err(e)
    case None => Ok(success)
  }

  function OkItems(items: Value): Value
  {
    Obj(map["status" := Str("ok"), "items" := items])
  }

  /** How `translateWeb` reads the server's reply: 300 is a choice between
      several items, answered before the status check; the rest goes through
      `ensureOk`. */
  function WebOutcome(targetUrl: Value, resp: Response, parse: Parser): (r: Result<Value>)
    ensures resp.statusCode == 300 ==>
      var data := ParseJsonMaybe(resp.body, parse);
      && r.Ok? && r.value.Obj? && r.value.fields.Keys == {"status", "url", "session", "items"}
      && Prop(r.value, "status") == Str("multiple_choices")
      && Prop(r.value, "url") == (if Truthy(Prop(data, "url")) then Prop(data, "url") else targetUrl)
      && Prop(r.value, "session") == Prop(data, "session")
      && Prop(r.value, "items") == Prop(data, "items")
    ensures resp.statusCode != 300 ==> (r.Err? <==> IsFailureStatus(resp.statusCode))
    ensures resp.statusCode != 300 && r.Ok? ==> r.value == OkItems(ParseJsonMaybe(resp.body, parse))
    ensures r.Err? ==> r.error == Rejected("translate_web", resp.statusCode, Detail(ParseJsonMaybe(resp.body, parse)))
  {
    if resp.statusCode == 300 then
      var data := Or(ParseJsonMaybe(resp.body, parse), Obj(map[]));
      Ok(Obj(map[
        "status" := Str("multiple_choices"),
        "url" := Or(Prop(data, "url"), targetUrl),
        "session" := Prop(data, "session"),
        "items" := Prop(data, "items")]))
    else
      Checked(resp, "translate_web", parse, OkItems(ParseJsonMaybe(resp.body, parse)))
  }

  /** The reply to a request, then what the caller makes of a response. */
  function AfterReply(d: Result<Response>, f: Response -> Result<Value>): Result<Value>
  {
    match d
    case Err(e) => Err(e)
    case Ok(resp) => f(resp)
  }

  /** `postText`: the headers start from a plain-text content type that the
      caller's headers may override. */
  function TextRequest(target: Url, body: Body, headers: map<string, Value>): (r: Request)
    ensures r.target == target && r.body == body
    ensures r.headers.Keys == headers.Keys + {"Content-Type"}
    ensures forall k :: k in headers ==> r.headers[k] == headers[k]
    ensures "Content-Type" !in headers ==> r.headers["Content-Type"] == Str("text/plain")
  {
    Request(target, map["Content-Type" := Str("text/plain")] + headers, body)
  }

  /** `postJson`: the payload travels as JSON text, and the headers start from
      a JSON content type that the caller's headers may override. */
  function JsonRequest(target: Url, payload: Value, headers: map<string, Value>): (r: Request)
    ensures r.target == target && r.body == JsonText(payload)
    ensures r.headers.Keys == headers.Keys + {"Content-Type"}
    ensures forall k :: k in headers ==> r.headers[k] == headers[k]
    ensures "Content-Type" !in headers ==> r.headers["Content-Type"] == Str("application/json")
  {
    Request(target, map["Content-Type" := Str("application/json")] + headers, JsonText(payload))
  }

  /** The payload `translateWebSelect` sends: session and items, and the URL
      only when one is given. */
  predicate IsSelectPayload(p: map<string, Value>, options: Value)
  {
    && p.Keys == {"session", "items"} + (if Truthy(Prop(options, "url")) then {"url"} else {})
    && p["session"] == Prop(options, "session")
    && p["items"] == Prop(options, "items")
    && ("url" in p ==> p["url"] == Prop(options, "url"))
  }

  /** What one `translateWeb(targetUrl)` does, stated on the requests sent
      before it (`before`) and after it (`after`), the network's answers
      (`reply`) and its result `r`: a falsy URL is refused without a request;
      otherwise exactly one plain-text POST of the URL to `/web`, read by
      `WebOutcome`. */
  predicate WebRun(base: string, parse: Parser, targetUrl: Value,
                   before: seq<Request>, after: seq<Request>, reply: Reply, r: Result<Value>)
  {
    if !Truthy(targetUrl) then
      r == Err(Thrown("translate_web requires a url")) && after == before
    else
      var req := TextRequest(ToUrl("/web", base), AsGiven(targetUrl), map[]);
      && after == before + [req]
      && r == AfterReply(reply(|before|, req), (resp: Response) => WebOutcome(targetUrl, resp, parse))
  }

  /** One `translateWebSelect(options)`: refused without a request unless
      options, session and items are all truthy; otherwise one JSON POST to
      `/web` with the select payload, and the status rule on the raw body. */
  predicate WebSelectRun(base: string, parse: Parser, options: Value,
                         before: seq<Request>, after: seq<Request>, reply: Reply, r: Result<Value>)
  {
    if !Truthy(options) || !Truthy(Prop(options, "session")) || !Truthy(Prop(options, "items")) then
      r == Err(Thrown("translate_web_select requires session and items")) && after == before
    else
      && |after| == |before| + 1
      && after[..|before|] == before
      && var req := after[|before|];
      && req.target == ToUrl("/web", base)
      && req.headers == map["Content-Type" := Str("application/json")]
      && req.body.JsonText? && req.body.v.Obj? && IsSelectPayload(req.body.v.fields, options)
      && r == AfterReply(reply(|before|, req),
                         (resp: Response) => Checked(resp, "translate_web_select", parse, OkItems(resp.body)))
  }

  /** One `translateSearch(identifier)`: a falsy identifier is refused without
      a request; otherwise one plain-text POST to `/search`. */
  predicate SearchRun(base: string, parse: Parser, identifier: Value,
                      before: seq<Request>, after: seq<Request>, reply: Reply, r: Result<Value>)
  {
    if !Truthy(identifier) then
      r == Err(Thrown("translate_search requires an identifier")) && after == before
    else
      var req := TextRequest(ToUrl("/search", base), AsGiven(identifier), map[]);
      && after == before + [req]
      && r == AfterReply(reply(|before|, req),
                         (resp: Response) => Checked(resp, "translate_search", parse, OkItems(ParseJsonMaybe(resp.body, parse))))
  }

  /** One `translateImport(options)`: any string is accepted as data, the
      empty string included, and the content type defaults to plain text. */
  predicate ImportRun(base: string, parse: Parser, options: Value,
                      before: seq<Request>, after: seq<Request>, reply: Reply, r: Result<Value>)
  {
    if !Truthy(options) || !Prop(options, "data").Str? then
      r == Err(Thrown("translate_import requires data (string)")) && after == before
    else
      var mimeType := if Truthy(Prop(options, "mimeType")) then Prop(options, "mimeType") else Str("text/plain");
      var req := Request(ToUrl("/import", base), map["Content-Type" := mimeType], AsGiven(Prop(options, "data")));
      && after == before + [req]
      && r == AfterReply(reply(|before|, req),
                         (resp: Response) => Checked(resp, "translate_import", parse, OkItems(ParseJsonMaybe(resp.body, parse))))
  }

  /** One `exportItems(options)`: the export URL carries the format as a query
      parameter; the items, `[]` when absent, travel as JSON text. The
      serialised URL already has a scheme, so `postText`'s `toUrl` hands back
      the same URL. */
  predicate ExportRun(base: string, parse: Parser, options: Value,
                      before: seq<Request>, after: seq<Request>, reply: Reply, r: Result<Value>)
  {
    if !Truthy(options) || !Truthy(Prop(options, "format")) then
      r == Err(Thrown("export_items requires format")) && after == before
    else
      var items := if Truthy(Prop(options, "items")) then Prop(options, "items") else Arr([]);
      var req := Request(WithParam(Resolved("/export", base), "format", ToJsString(Prop(options, "format"))),
                         map["Content-Type" := Str("application/json")], JsonText(items));
      && after == before + [req]
      && r == AfterReply(reply(|before|, req),
                         (resp: Response) => Checked(resp, "export_items", parse,
                                         Obj(map["status" := Str("ok"), "output" := resp.body])))
  }

  method TranslateWeb(t: Transport, base: string, parse: Parser, targetUrl: Value) returns (r: Result<Value>)
    modifies t
    ensures WebRun(base, parse, targetUrl, old(t.sent), t.sent, t.reply, r)
  {
    if !Truthy(targetUrl) {
      return Err(Thrown("translate_web requires a url"));
    }
    var d := t.Post(TextRequest(ToUrl("/web", base), AsGiven(targetUrl), map[]));
    match d
    case Err(e) => r := Err(e);
    case Ok(resp) => r := WebOutcome(targetUrl, resp, parse);
  }

  method TranslateWebSelect(t: Transport, base: string, parse: Parser, options: Value) returns (r: Result<Value>)
    modifies t
    ensures WebSelectRun(base, parse, options, old(t.sent), t.sent, t.reply, r)
  {
    if !Truthy(options) || !Truthy(Prop(options, "session")) || !Truthy(Prop(options, "items")) {
      return Err(Thrown("translate_web_select requires session and items"));
    }
    var payload := map["session" := Prop(options, "session"), "items" := Prop(options, "items")];
    if Truthy(Prop(options, "url")) {
      payload := payload["url" := Prop(options, "url")];
    }
    var req := JsonRequest(ToUrl("/web", base), Obj(payload), map[]);
    var d := t.Post(req);
    match d
    case Err(e) => r := Err(e);
    case Ok(resp) => r := Checked(resp, "translate_web_select", parse, OkItems(resp.body));
  }

  method TranslateSearch(t: Transport, base: string, parse: Parser, identifier: Value) returns (r: Result<Value>)
    modifies t
    ensures SearchRun(base, parse, identifier, old(t.sent), t.sent, t.reply, r)
  {
    if !Truthy(identifier) {
      return Err(Thrown("translate_search requires an identifier"));
    }
    var d := t.Post(TextRequest(ToUrl("/search", base), AsGiven(identifier), map[]));
    match d
    case Err(e) => r := Err(e);
    case Ok(resp) => r := Checked(resp, "translate_search", parse, OkItems(ParseJsonMaybe(resp.body, parse)));
  }

  method TranslateImport(t: Transport, base: string, parse: Parser, options: Value) returns (r: Result<Value>)
    modifies t
    ensures ImportRun(base, parse, options, old(t.sent), t.sent, t.reply, r)
  {
    if !Truthy(options) || !Prop(options, "data").Str? {
      return Err(Thrown("translate_import requires data (string)"));
    }
    var mimeType := Or(Prop(options, "mimeType"), Str("text/plain"));
    var req := TextRequest(ToUrl("/import", base), AsGiven(Prop(options, "data")), map["Content-Type" := mimeType]);
    assert req.headers == map["Content-Type" := mimeType];
    var d := t.Post(req);
    match d
    case Err(e) => r := Err(e);
    case Ok(resp) => r := Checked(resp, "translate_import", parse, OkItems(ParseJsonMaybe(resp.body, parse)));
  }

  method ExportItems(t: Transport, base: string, parse: Parser, options: Value) returns (r: Result<Value>)
    modifies t
    ensures ExportRun(base, parse, options, old(t.sent), t.sent, t.reply, r)
  {
    if !Truthy(options) || !Truthy(Prop(options, "format")) {
      return Err(Thrown("export_items requires format"));
    }
    var url := WithParam(Resolved("/export", base), "format", ToJsString(Prop(options, "format")));
    var payload := JsonText(Or(Prop(options, "items"), Arr([])));
    var req := TextRequest(url, payload, map["Content-Type" := Str("application/json")]);
    assert req.headers == map["Content-Type" := Str("application/json")];
    var d := t.Post(req);
    match d
    case Err(e) => r := Err(e);
    case Ok(resp) => r := Checked(resp, "export_items", parse, Obj(map["status" := Str("ok"), "output" := resp.body]));
  }
}

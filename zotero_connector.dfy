/** Saving through the Zotero connector endpoint: the payload built from the
    caller's options, the request headers, and the status rule. */
module ZoteroConnector {
  import opened Json
  import opened Http

  /** Where the connector lives and what it is told about the client. The
      defaults are `DefaultConfig`. */
  datatype Config = Config(baseUrl: string, apiVersion: string, defaultClientVersion: string)

  const DefaultConfig := Config("http://127.0.0.1:23119", "3", "translation-server-mcp")

  /** The options copied into the payload, each only when truthy. */
  const PayloadOptions: seq<string> := ["sessionID", "uri", "cookie", "detailedCookies", "proxy"]

  /** The payload for `items` under `options`: `items` always, each of the
      payload options exactly when it is truthy, with its value unchanged, and
      nothing else. */
  predicate IsPayloadFor(payload: map<string, Value>, items: seq<Value>, options: Value)
  {
    && "items" in payload && payload["items"] == Arr(items)
    && (forall k :: k in PayloadOptions ==> (k in payload <==> Truthy(Prop(options, k))))
    && (forall k :: k in PayloadOptions && k in payload ==> payload[k] == Prop(options, k))
    && (forall k :: k in payload ==> k == "items" || k in PayloadOptions)
  }

  method BuildPayload(items: seq<Value>, options: Value) returns (payload: map<string, Value>)
    ensures IsPayloadFor(payload, items, options)
    ensures (forall k :: k in PayloadOptions ==> !Truthy(Prop(options, k))) ==> payload == map["items" := Arr(items)]
    ensures "clientVersion" !in payload
  {
    payload := map["items" := Arr(items)];
    if Truthy(Prop(options, "sessionID")) {
      payload := payload["sessionID" := Prop(options, "sessionID")];
    }
    if Truthy(Prop(options, "uri")) {
      payload := payload["uri" := Prop(options, "uri")];
    }
    if Truthy(Prop(options, "cookie")) {
      payload := payload["cookie" := Prop(options, "cookie")];
    }
    if Truthy(Prop(options, "detailedCookies")) {
      payload := payload["detailedCookies" := Prop(options, "detailedCookies")];
    }
    if Truthy(Prop(options, "proxy")) {
      payload := payload["proxy" := Prop(options, "proxy")];
    }
  }

  /** The `X-Zotero-Version` header: the caller's client version when truthy,
      the configured default otherwise. */
  function ClientVersion(cfg: Config, options: Value): (r: Value)
    ensures Truthy(Prop(options, "clientVersion")) ==> r == Prop(options, "clientVersion")
    ensures !Truthy(Prop(options, "clientVersion")) ==> r == Str(cfg.defaultClientVersion)
  {
    Or(Prop(options, "clientVersion"), Str(cfg.defaultClientVersion))
  }

  /** The connector's headers: a JSON body, the configured connector API
      version, and the client version. */
  function Headers(cfg: Config, options: Value): (h: map<string, Value>)
    ensures h.Keys == {"Content-Type", "X-Zotero-Connector-API-Version", "X-Zotero-Version"}
    ensures h["Content-Type"] == Str("application/json")
    ensures h["X-Zotero-Connector-API-Version"] == Str(cfg.apiVersion)
    ensures h["X-Zotero-Version"] == ClientVersion(cfg, options)
  {
    map[
      "Content-Type" := Str("application/json"),
      "X-Zotero-Connector-API-Version" := Str(cfg.apiVersion),
      "X-Zotero-Version" := ClientVersion(cfg, options)]
  }

  /** The one request `save` sends for `items` under `options`. */
  predicate IsSaveRequest(req: Request, cfg: Config, items: Value, options: Value)
  {
    && req.target == Resolved("/connector/saveItems", cfg.baseUrl)
    && req.headers == Headers(cfg, options)
    && req.body.JsonText? && req.body.v.Obj?
    && IsPayloadFor(req.body.v.fields, Wrap(items), options)
  }

  /** What one `save(items, options)` does, stated on the requests sent
      before and after it, the network's answers and its result: exactly one
      request, and the status rule on its response. */
  predicate SaveRun(cfg: Config, items: Value, options: Value,
                    before: seq<Request>, after: seq<Request>, reply: Reply, r: Result<Value>)
  {
    && |after| == |before| + 1 && after[..|before|] == before
    && IsSaveRequest(after[|before|], cfg, items, options)
    && var d := reply(|before|, after[|before|]);
    && r == if d.Err? then Err(d.error) else SaveReply("zotero connector save", d.value)
  }

  method Save(t: Transport, cfg: Config, items: Value, options: Value) returns (r: Result<Value>)
    modifies t
    ensures SaveRun(cfg, items, options, old(t.sent), t.sent, t.reply, r)
  {
    var payload := BuildPayload(Wrap(items), options);
    var req := Request(Resolved("/connector/saveItems", cfg.baseUrl), Headers(cfg, options), JsonText(Obj(payload)));
    var d := t.Post(req);
    match d
    case Err(e) => r := Err(e);
    case Ok(resp) => r := SaveReply("zotero connector save", resp);
  }
}

/** The MCP server's decisions: which tool handler a call reaches, which Zotero
    backend a save goes to with which options, and how a result becomes the
    reply's single text element. */
module Server {
  import opened Prelude
  import opened Json
  import opened Http
  import TranslationClient
  import ZoteroConnector
  import ZoteroLocal

  /** The endpoints the server talks to and the JSON parser it relies on. */
  datatype Deployment = Deployment(
    translationUrl: string,
    connector: ZoteroConnector.Config,
    local: ZoteroLocal.Config,
    parse: Parser)

  /** `zoteroWeb.save(items, options)`: that connector is not part of this
      model, so its outcome is supplied from outside. */
  type WebSave = (Value, Value) -> Result<Value>

  /** One element of a tool reply's `content`. */
  datatype Content = Content(kind: string, text: Rendered)

  datatype ToolReply = ToolReply(content: seq<Content>)

  /** `toText`: a string result is the text itself; anything else is its
      two-space-indented JSON. */
  function ToText(result: Value): (r: Rendered)
    ensures result.Str? ==> r == Verbatim(result.s)
    ensures !result.Str? ==> r == Stringify(result, 2)
  {
    if result.Str? then Verbatim(result.s) else Stringify(result, 2)
  }

  /** The arguments `handleSaveToZotero` hands to a backend. */
  const ForwardedFields: seq<string> := [
    "libraryType", "libraryId", "collectionKey", "sessionID", "uri",
    "cookie", "detailedCookies", "proxy", "clientVersion"]

  /** The options object: exactly the nine forwarded fields, each read from
      the arguments (undefined when absent). */
  function ForwardedOptions(args: Value): (o: Value)
    ensures o.Obj? && o.fields.Keys == set f | f in ForwardedFields
    ensures forall f :: f in ForwardedFields ==> o.fields[f] == Prop(args, f)
    ensures "target" !in o.fields && "items" !in o.fields
  {
    Obj(map f | f in ForwardedFields :: Prop(args, f))
  }

  datatype Backend = Connector | Local | Web

  /** The `if (target === ...)` chain: each of the three names selects its own
      backend, and nothing else selects one. */
  function SelectBackend(target: Value): (b: Option<Backend>)
    ensures b == Some(Connector) <==> target == Str("connector")
    ensures b == Some(Local) <==> target == Str("local")
    ensures b == Some(Web) <==> target == Str("web")
  {
    if target == Str("connector") then Some(Connector)
    else if target == Str("local") then Some(Local)
    else if target == Str("web") then Some(Web)
    else None
  }

  /** `args.target || "connector"`: without a target, the connector. */
  function SaveTarget(args: Value): (r: Value)
    ensures Truthy(Prop(args, "target")) ==> r == Prop(args, "target")
    ensures !Truthy(Prop(args, "target")) ==> SelectBackend(r) == Some(Connector)
  {
    Or(Prop(args, "target"), Str("connector"))
  }

  predicate MissingItems(args: Value)
  {
    !Truthy(args) || !Truthy(Prop(args, "items"))
  }

  /** What one `handleSaveToZotero(args)` does, stated on the requests sent
      before and after it, the network's answers and its result: items are
      required before anything else; then exactly the selected backend runs,
      with the forwarded options, or an unknown target is refused without any
      request. */
  predicate SaveToZoteroRun(d: Deployment, web: WebSave, args: Value,
                            before: seq<Request>, after: seq<Request>, reply: Reply, r: Result<Value>)
  {
    var items := Prop(args, "items");
    var options := ForwardedOptions(args);
    if MissingItems(args) then
      r == Err(Thrown("save_to_zotero requires items")) && after == before
    else
      match SelectBackend(SaveTarget(args))
      case None => r == Err(Thrown("Unknown Zotero target: " + ToJsString(SaveTarget(args)))) && after == before
      case Some(Connector) => ZoteroConnector.SaveRun(d.connector, items, options, before, after, reply, r)
      case Some(Local) => ZoteroLocal.SaveRun(d.local, items, options, before, after, reply, r)
      case Some(Web) => r == web(items, options) && after == before
  }

  method HandleSaveToZotero(t: Transport, d: Deployment, web: WebSave, args: Value) returns (r: Result<Value>)
    modifies t
    ensures SaveToZoteroRun(d, web, args, old(t.sent), t.sent, t.reply, r)
  {
    if MissingItems(args) {
      return Err(Thrown("save_to_zotero requires items"));
    }
    var target := SaveTarget(args);
    var options := ForwardedOptions(args);
    var backend := SelectBackend(target);
    match backend
    case None =>
      r := Err(Thrown("Unknown Zotero target: " + ToJsString(target)));
    case Some(Connector) =>
      r := ZoteroConnector.Save(t, d.connector, Prop(args, "items"), options);
    case Some(Local) =>
      r := ZoteroLocal.Save(t, d.local, Prop(args, "items"), options);
    case Some(Web) =>
      r := web(Prop(args, "items"), options);
  }

  /** A tool call as the `switch` reads it: the handler, and the argument
      object that handler receives. */
  datatype ToolCall =
    | TranslateWebCall(url: Value)
    | WebSelectCall(options: Value)
    | SearchCall(identifier: Value)
    | ImportCall(options: Value)
    | ExportCall(options: Value)
    | SaveCall(args: Value)
  {
    /** The tool name this handler answers to. */
    function Name(): string
    {
      match this
      case TranslateWebCall(_) => "translate_web"
      case WebSelectCall(_) => "translate_web_select"
      case SearchCall(_) => "translate_search"
      case ImportCall(_) => "translate_import"
      case ExportCall(_) => "export_items"
      case SaveCall(_) => "save_to_zotero"
    }
  }

  const ToolNames: seq<string> := [
    "translate_web", "translate_web_select", "translate_search",
    "translate_import", "export_items", "save_to_zotero"]

  /** The `switch (name)`: a known name reaches the handler of that name,
      every other name reaches none. */
  function Route(name: string, args: Value): (r: Option<ToolCall>)
    ensures r.Some? <==> name in ToolNames
    ensures r.Some? ==> r.value.Name() == name
  {
    match name
    case "translate_web" => Some(TranslateWebCall(Prop(args, "url")))
    case "translate_web_select" =>
      Some(WebSelectCall(Obj(map["session" := Prop(args, "session"), "items" := Prop(args, "items"), "url" := Prop(args, "url")])))
    case "translate_search" => Some(SearchCall(Prop(args, "identifier")))
    case "translate_import" =>
      Some(ImportCall(Obj(map["data" := Prop(args, "data"), "mimeType" := Prop(args, "mimeType")])))
    case "export_items" =>
      Some(ExportCall(Obj(map["items" := Prop(args, "items"), "format" := Prop(args, "format")])))
    case "save_to_zotero" => Some(SaveCall(args))
    case _ => None
  }

  /** The reply the handler builds from a tool's outcome: a thrown error is
      passed on, a result becomes the single text element. */
  function Answer(outcome: Result<Value>): (r: Result<ToolReply>)
    ensures outcome.Err? <==> r.Err?
    ensures outcome.Err? ==> r.error == outcome.error
    ensures outcome.Ok? ==> r.value == ToolReply([Content("text", ToText(outcome.value))])
  {
    match outcome
    case Err(e) => Err(e)
    case Ok(v) => Ok(ToolReply([Content("text", ToText(v))]))
  }

  /** What one call of tool `name` does with the already defaulted
      arguments `args`: each known name runs its handler on the arguments the
      `switch` picks out, and the reply is `Answer` of that handler's outcome. */
  predicate CallRun(d: Deployment, web: WebSave, name: string, args: Value,
                    before: seq<Request>, after: seq<Request>, reply: Reply, outcome: Result<Value>)
  {
    var base, parse := d.translationUrl, d.parse;
    match name
    case "translate_web" =>
      TranslationClient.WebRun(base, parse, Prop(args, "url"), before, after, reply, outcome)
    case "translate_web_select" =>
      TranslationClient.WebSelectRun(base, parse,
        Obj(map["session" := Prop(args, "session"), "items" := Prop(args, "items"), "url" := Prop(args, "url")]),
        before, after, reply, outcome)
    case "translate_search" =>
      TranslationClient.SearchRun(base, parse, Prop(args, "identifier"), before, after, reply, outcome)
    case "translate_import" =>
      TranslationClient.ImportRun(base, parse,
        Obj(map["data" := Prop(args, "data"), "mimeType" := Prop(args, "mimeType")]),
        before, after, reply, outcome)
    case "export_items" =>
      TranslationClient.ExportRun(base, parse,
        Obj(map["items" := Prop(args, "items"), "format" := Prop(args, "format")]),
        before, after, reply, outcome)
    case "save_to_zotero" =>
      SaveToZoteroRun(d, web, args, before, after, reply, outcome)
    case _ => false
  }

  /** The `CallToolRequestSchema` handler: missing arguments count as `{}`; an
      unknown tool is refused before any request; a known tool runs its
      handler on the arguments the `switch` picks out, and the reply is that
      handler's error or its result as the single text element. */
  method CallTool(t: Transport, d: Deployment, web: WebSave, name: string, arguments: Value)
    returns (r: Result<ToolReply>)
    modifies t
    ensures name !in ToolNames ==> r == Err(Thrown("Unknown tool: " + name)) && t.sent == old(t.sent)
    ensures name in ToolNames ==> exists outcome ::
      CallRun(d, web, name, Or(arguments, Obj(map[])), old(t.sent), t.sent, t.reply, outcome) && r == Answer(outcome)
  {
    var args := Or(arguments, Obj(map[]));
    var call := Route(name, args);
    if call.None? {
      return Err(Thrown("Unknown tool: " + name));
    }
    var result: Result<Value>;
    match call.value {
      case TranslateWebCall(url) =>
        result := TranslationClient.TranslateWeb(t, d.translationUrl, d.parse, url);
      case WebSelectCall(options) =>
        result := TranslationClient.TranslateWebSelect(t, d.translationUrl, d.parse, options);
      case SearchCall(identifier) =>
        result := TranslationClient.TranslateSearch(t, d.translationUrl, d.parse, identifier);
      case ImportCall(options) =>
        result := TranslationClient.TranslateImport(t, d.translationUrl, d.parse, options);
      case ExportCall(options) =>
        result := TranslationClient.ExportItems(t, d.translationUrl, d.parse, options);
      case SaveCall(saveArgs) =>
        result := HandleSaveToZotero(t, d, web, saveArgs);
    }
    assert CallRun(d, web, name, args, old(t.sent), t.sent, t.reply, result);
    r := Answer(result);
  }
}

/** Saving through Zotero's local web API: tagging every item with a
    collection, the library path, the API key guard and the status rule. */
module ZoteroLocal {
  import opened Prelude
  import opened Json
  import opened Http

  /** Where the local API lives and the API key taken from the environment
      (None when the variable is unset). */
  datatype Config = Config(baseUrl: string, apiKey: Option<string>)

  const DefaultBaseUrl := "http://127.0.0.1:23119"

  /** `item.collections` as `applyCollection` reads it: the array, or empty
      when the property is missing or not an array. */
  function Collections(item: Value): (r: seq<Value>)
    ensures Prop(item, "collections").Arr? ==> r == Prop(item, "collections").elems
    ensures !Prop(item, "collections").Arr? ==> r == []
  {
    var c := Prop(item, "collections");
    if c.Arr? then c.elems else []
  }

  predicate NoDuplicates(s: seq<Value>)
  {
    forall i, j :: 0 <= i < j < |s| ==> s[i] != s[j]
  }

  /** The callback of `applyCollection` for one item: a copy of the item whose
      `collections` holds the key, appended at the end when it was missing. */
  function Tag(item: Value, key: Value): (r: Value)
    ensures r.Obj? && r.fields.Keys == ShallowCopy(item).Keys + {"collections"}
    ensures Prop(r, "collections").Arr?
    ensures key in Collections(r)
    ensures key in Collections(item) ==> Collections(r) == Collections(item)
    ensures key !in Collections(item) ==> Collections(r) == Collections(item) + [key]
    ensures !Prop(item, "collections").Arr? ==> Collections(r) == [key]
    ensures forall f :: f != "collections" && f in r.fields ==> r.fields[f] == ShallowCopy(item)[f]
  {
    var collections := Collections(item);
    var updated := if key in collections then collections else collections + [key];
    Obj(ShallowCopy(item)["collections" := Arr(updated)])
  }

  /** `applyCollection`: with a falsy key the list itself; otherwise one tagged
      copy per item, in order. Reading `collections` of a null or undefined
      item throws, and the first such item decides the error. */
  function ApplyCollection(items: seq<Value>, key: Value): (r: Result<seq<Value>>)
    ensures !Truthy(key) ==> r == Ok(items)
    ensures Truthy(key) ==> (r.Err? <==> exists i :: 0 <= i < |items| && Nullish(items[i]))
    ensures Truthy(key) && r.Ok? ==>
      |r.value| == |items| && forall i :: 0 <= i < |items| ==> r.value[i] == Tag(items[i], key)
    ensures r.Err? ==> exists i ::
      && 0 <= i < |items| && Nullish(items[i])
      && (forall j :: 0 <= j < i ==> !Nullish(items[j]))
      && r.error == NullDereference(items[i], "collections")
    decreases |items|
  {
    if !Truthy(key) then Ok(items)
    else if |items| == 0 then Ok([])
    else if Nullish(items[0]) then Err(NullDereference(items[0], "collections"))
    else
      match ApplyCollection(items[1..], key)
      case Err(e) =>
        assert forall i :: 1 <= i < |items| ==> items[i] == items[1..][i - 1];
        Err(e)
      case Ok(rest) => Ok([Tag(items[0], key)] + rest)
  }

  /** Tagging a tagged item again changes nothing. */
  lemma TagIdempotent(item: Value, key: Value)
    ensures Tag(Tag(item, key), key) == Tag(item, key)
  {
    var once := Tag(item, key);
    assert Collections(once) == Collections(Tag(item, key));
    assert ShallowCopy(once) == once.fields;
    assert once.fields["collections" := Arr(Collections(once))] == once.fields;
  }

  /** Applying the same collection twice is the same as applying it once. */
  lemma ApplyCollectionIdempotent(items: seq<Value>, key: Value)
    requires ApplyCollection(items, key).Ok?
    ensures ApplyCollection(ApplyCollection(items, key).value, key) == ApplyCollection(items, key)
  {
    if Truthy(key) {
      var once := ApplyCollection(items, key).value;
      forall i | 0 <= i < |once| ensures Tag(once[i], key) == once[i] {
        TagIdempotent(items[i], key);
      }
      FixedPoint(once, key);
    }
  }

  /** A list of items that tagging leaves alone is returned as it is. */
  lemma {:induction false} FixedPoint(items: seq<Value>, key: Value)
    requires Truthy(key)
    requires forall i :: 0 <= i < |items| ==> Tag(items[i], key) == items[i]
    ensures ApplyCollection(items, key) == Ok(items)
    decreases |items|
  {
    if |items| > 0 {
      var head := items[0];
      assert Tag(head, key) == head;
      assert head.Obj?;
      FixedPoint(items[1..], key);
      assert [head] + items[1..] == items;
    }
  }

  /** A key is never added twice: `collections` without duplicates stays so. */
  lemma TagKeepsNoDuplicates(item: Value, key: Value)
    requires NoDuplicates(Collections(item))
    ensures NoDuplicates(Collections(Tag(item, key)))
  {
    var before := Collections(item);
    if key !in before {
      var after := Collections(Tag(item, key));
      assert after == before + [key];
      forall i, j | 0 <= i < j < |after| ensures after[i] != after[j] {
        if j == |before| {
          assert after[i] == before[i];
        }
      }
    }
  }

  /** Every item saved under a truthy key lists the key, keeps the
      collections it had in front, and gains no duplicate. */
  lemma ApplyCollectionTagsEveryItem(items: seq<Value>, key: Value, i: int)
    requires Truthy(key) && ApplyCollection(items, key).Ok?
    requires 0 <= i < |items|
    ensures key in Collections(ApplyCollection(items, key).value[i])
    ensures Collections(items[i]) <= Collections(ApplyCollection(items, key).value[i])
    ensures NoDuplicates(Collections(items[i])) ==> NoDuplicates(Collections(ApplyCollection(items, key).value[i]))
  {
    if NoDuplicates(Collections(items[i])) {
      TagKeepsNoDuplicates(items[i], key);
    }
  }

  /** `(options && options[field]) || fallback`, as it appears in the path:
      the fallback when the option is falsy, otherwise the option as the
      template literal renders it: a string as itself, a number in decimal. */
  function PathSegment(options: Value, field: string, fallback: string): (r: string)
    ensures !Truthy(Prop(options, field)) ==> r == fallback
    ensures Truthy(Prop(options, field)) ==> r == ToJsString(Prop(options, field))
    ensures Prop(options, field).Str? && Truthy(Prop(options, field)) ==> r == Prop(options, field).s
    ensures Prop(options, field).Num? && Truthy(Prop(options, field)) ==> r == IntToString(Prop(options, field).n)
  {
    ToJsString(Or(Prop(options, field), Str(fallback)))
  }

  function LibraryType(options: Value): string
  {
    PathSegment(options, "libraryType", "users")
  }

  function LibraryId(options: Value): string
  {
    PathSegment(options, "libraryId", "0")
  }

  /** `/${libraryType}/${libraryId}/items`. */
  function ItemsPath(options: Value): (r: string)
    ensures r == "/" + LibraryType(options) + "/" + LibraryId(options) + "/items"
  {
    var parts := ["", LibraryType(options), LibraryId(options), "items"];
    assert Join(parts[3..], "/") == "items";
    assert Join(parts[2..], "/") == parts[2] + "/" + "items";
    assert Join(parts[1..], "/") == parts[1] + "/" + (parts[2] + "/" + "items");
    Join(parts, "/")
  }

  /** The path reads back as its segments: library type, library id, "items"
      (when neither value contains a slash); with no options it is
      "/users/0/items". */
  lemma ItemsPathSegments(options: Value)
    requires '/' !in LibraryType(options) && '/' !in LibraryId(options)
    ensures Split(ItemsPath(options), '/') == ["", LibraryType(options), LibraryId(options), "items"]
  {
    var parts := ["", LibraryType(options), LibraryId(options), "items"];
    assert forall i :: 0 <= i < |parts| ==> '/' !in parts[i];
    SplitJoin(parts, '/');
  }

  lemma DefaultItemsPath()
    ensures ItemsPath(Undefined) == "/users/0/items"
    ensures ItemsPath(Obj(map[])) == "/users/0/items"
  {
  }

  /** A numeric library id goes into the path in decimal. */
  lemma NumericLibraryIdPath()
    ensures ItemsPath(Obj(map["libraryId" := Num(42)])) == "/users/42/items"
  {
    var options := Obj(map["libraryId" := Num(42)]);
    assert NatToString(42) == NatToString(4) + [DigitChar(2)];
    assert LibraryId(options) == "42";
    assert LibraryType(options) == "users";
  }

  predicate HasApiKey(cfg: Config)
  {
    cfg.apiKey.Some? && cfg.apiKey.value != ""
  }

  /** The local API's headers: the key, API version 3 and a JSON body. */
  function Headers(apiKey: string): (h: map<string, Value>)
    ensures h.Keys == {"Zotero-API-Key", "Zotero-API-Version", "Content-Type"}
    ensures h["Zotero-API-Key"] == Str(apiKey)
    ensures h["Zotero-API-Version"] == Str("3") && h["Content-Type"] == Str("application/json")
  {
    map[
      "Zotero-API-Key" := Str(apiKey),
      "Zotero-API-Version" := Str("3"),
      "Content-Type" := Str("application/json")]
  }

  /** What one `save(items, options)` does, stated on the requests sent
      before and after it, the network's answers and its result: without an
      API key, or when tagging an item throws, nothing is sent; otherwise
      exactly one request, and the status rule on its reply. */
  predicate SaveRun(cfg: Config, items: Value, options: Value,
                    before: seq<Request>, after: seq<Request>, reply: Reply, r: Result<Value>)
  {
    var tagged := ApplyCollection(Wrap(items), Prop(options, "collectionKey"));
    if !HasApiKey(cfg) then
      r == Err(Thrown("ZOTERO_LOCAL_API_KEY is required for Zotero local API")) && after == before
    else if tagged.Err? then
      r == Err(tagged.error) && after == before
    else
      var req := Request(Resolved(ItemsPath(options), cfg.baseUrl), Headers(cfg.apiKey.value), JsonText(Arr(tagged.value)));
      var d := reply(|before|, req);
      && after == before + [req]
      && r == if d.Err? then Err(d.error) else SaveReply("zotero local save", d.value)
  }

  method Save(t: Transport, cfg: Config, items: Value, options: Value) returns (r: Result<Value>)
    modifies t
    ensures SaveRun(cfg, items, options, old(t.sent), t.sent, t.reply, r)
  {
    if !HasApiKey(cfg) {
      return Err(Thrown("ZOTERO_LOCAL_API_KEY is required for Zotero local API"));
    }
    var path := ItemsPath(options);
    var tagged := ApplyCollection(Wrap(items), Prop(options, "collectionKey"));
    if tagged.Err? {
      return Err(tagged.error);
    }
    var req := Request(Resolved(path, cfg.baseUrl), Headers(cfg.apiKey.value), JsonText(Arr(tagged.value)));
    var d := t.Post(req);
    match d
    case Err(e) => r := Err(e);
    case Ok(resp) => r := SaveReply("zotero local save", resp);
  }
}

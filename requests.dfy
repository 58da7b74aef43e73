/**
 * The shapes of the requests the client sends: the transport's configuration,
 * PHP's truthiness test that decides whether an optional argument is sent, and
 * every query and JSON body the client assembles from optional arguments.
 */
module Requests {
  import opened Wrappers
  import opened Http

  // ---------------------------------------------------------------- transport configuration

  /** The fixed prefix of every endpoint; the library id and a slash follow it. */
  const ApiBaseUrl: string := "https://video.bunnycdn.com/library/"

  /** The options the client's constructor gives its transport. */
  function ClientConfig(apiBaseUrl: string, libraryId: string, accessKey: string): (c: Config)
    ensures !c.allowRedirects && !c.httpErrors
    ensures c.baseUri == apiBaseUrl + libraryId + "/"
    ensures Keys(c.headers) == ["AccessKey"]
    ensures Get(c.headers, "AccessKey") == Some(Str(accessKey))
  {
    Config(false, false, apiBaseUrl + libraryId + "/", [Entry("AccessKey", Str(accessKey))])
  }

  /** The library id a base URI is rooted at; the inverse of the constructor's concatenation. */
  function LibraryIdOf(baseUri: string): Option<string>
  {
    if |ApiBaseUrl| < |baseUri| && baseUri[..|ApiBaseUrl|] == ApiBaseUrl && baseUri[|baseUri| - 1] == '/'
    then Some(baseUri[|ApiBaseUrl|..|baseUri| - 1])
    else None
  }

  /** Every library gets its own base URI, and the library id can be read back from it. */
  lemma {:induction false} BaseUriRoundTrip(libraryId: string, accessKey: string)
    ensures LibraryIdOf(ClientConfig(ApiBaseUrl, libraryId, accessKey).baseUri) == Some(libraryId)
  {
    var u := ClientConfig(ApiBaseUrl, libraryId, accessKey).baseUri;
    assert u == ApiBaseUrl + (libraryId + "/");
    assert u[..|ApiBaseUrl|] == ApiBaseUrl;
    assert u[|ApiBaseUrl|..|u| - 1] == libraryId;
  }

  // ---------------------------------------------------------------- PHP truthiness

  /** `if ($v)` in PHP: "", "0", 0, false, null and the empty array are false, everything else true. */
  predicate Truthy(v: Value)
  {
    match v
    case Str(s) => s != "" && s != "0"
    case Int(i) => i != 0
    case Bool(b) => b
    case Null => false
    case Base64Of(data) => |data| > 0
    case Array(entries) => |entries| > 0
  }

  /** A nullable string parameter (`string $x = null`) as a PHP value. */
  function Nullable(o: Option<string>): Value
  {
    if o.Some? then Str(o.value) else Null
  }

  /** A nullable int parameter (`int $x = null`) as a PHP value. */
  function NullableInt(o: Option<int>): Value
  {
    if o.Some? then Int(o.value) else Null
  }

  /** A nullable array parameter (`array $x = null`) as a PHP value. */
  function NullableArray(o: Option<seq<Entry>>): Value
  {
    if o.Some? then Array(o.value) else Null
  }

  /** `$b ? 'true' : 'false'`: how the client writes a boolean flag into a query. */
  function BoolString(b: bool): (s: string)
    ensures s == "true" <==> b
    ensures s == "false" <==> !b
    ensures Truthy(Str(s))
  {
    if b then "true" else "false"
  }

  /** Reads a flag back from its query string. */
  function ParseBool(s: string): Option<bool>
  {
    if s == "true" then Some(true) else if s == "false" then Some(false) else None
  }

  lemma {:induction false} BoolStringRoundTrip(b: bool)
    ensures ParseBool(BoolString(b)) == Some(b)
  {
  }

  /** What a lookup of an optional key finds: the value when it is truthy, nothing otherwise. */
  function IfTruthy(v: Value): Option<Value>
  {
    if Truthy(v) then Some(v) else None
  }

  /** `if ($v) { $a[$key] = $v; }` as the entries it appends to `$a`. */
  function Optional(key: string, v: Value): (q: seq<Entry>)
    ensures Keys(q) == if Truthy(v) then [key] else []
    ensures Get(q, key) == IfTruthy(v)
  {
    if Truthy(v) then [Entry(key, v)] else []
  }

  lemma {:induction false} GetSkipsOptional(a: seq<Entry>, key: string, other: string, v: Value)
    requires key != other
    ensures Get(a + Optional(other, v), key) == Get(a, key)
  {
    GetAppend(a, Optional(other, v), key);
  }

  lemma {:induction false} GetFindsOptional(a: seq<Entry>, key: string, v: Value)
    requires key !in Keys(a)
    ensures Get(a + Optional(key, v), key) == IfTruthy(v)
  {
    GetAppend(a, Optional(key, v), key);
  }

  lemma {:induction false} KeysAppendOptional(a: seq<Entry>, key: string, v: Value)
    ensures Keys(a + Optional(key, v)) == Keys(a) + (if Truthy(v) then [key] else [])
  {
    KeysAppend(a, Optional(key, v));
  }

  lemma {:induction false} UniqueAppendOptional(a: seq<Entry>, key: string, v: Value)
    requires UniqueKeys(a) && key !in Keys(a)
    ensures UniqueKeys(a + Optional(key, v))
  {
    var q := a + Optional(key, v);
    forall i, j | 0 <= i < j < |q| ensures q[i].key != q[j].key {
      if j >= |a| {
        assert q[j].key == key;
        assert Keys(a)[i] == a[i].key;
      }
    }
  }

  // ---------------------------------------------------------------- listVideos

  /** The query of listVideos: page and itemsPerPage always, then search, collection, orderBy when truthy. */
  function ListVideosQuery(search: Option<string>, page: int, items: int, collection: Option<string>, orderby: Option<string>): seq<Entry>
  {
    [Entry("page", Int(page)), Entry("itemsPerPage", Int(items))]
      + Optional("search", Nullable(search))
      + Optional("collection", Nullable(collection))
      + Optional("orderBy", Nullable(orderby))
  }

  /** The two page keys come first and always hold the page and page-size arguments. */
  lemma {:induction false} ListVideosAlwaysPages(search: Option<string>, page: int, items: int, collection: Option<string>, orderby: Option<string>)
    ensures var q := ListVideosQuery(search, page, items, collection, orderby);
      && q[..2] == [Entry("page", Int(page)), Entry("itemsPerPage", Int(items))]
      && Get(q, "page") == Some(Int(page))
      && Get(q, "itemsPerPage") == Some(Int(items))
  {
    var q0 := [Entry("page", Int(page)), Entry("itemsPerPage", Int(items))];
    var tail := Optional("search", Nullable(search)) + Optional("collection", Nullable(collection)) + Optional("orderBy", Nullable(orderby));
    assert ListVideosQuery(search, page, items, collection, orderby) == q0 + tail;
    assert Keys(q0) == ["page", "itemsPerPage"];
    GetAppend(q0, tail, "page");
    GetAppend(q0, tail, "itemsPerPage");
  }

  /** Each optional key of listVideos is sent exactly when its argument is truthy, with that argument as its value. */
  lemma {:induction false} ListVideosOptionalKeys(search: Option<string>, page: int, items: int, collection: Option<string>, orderby: Option<string>)
    ensures var q := ListVideosQuery(search, page, items, collection, orderby);
      && Get(q, "search") == IfTruthy(Nullable(search))
      && Get(q, "collection") == IfTruthy(Nullable(collection))
      && Get(q, "orderBy") == IfTruthy(Nullable(orderby))
  {
    var q0 := [Entry("page", Int(page)), Entry("itemsPerPage", Int(items))];
    var q1 := q0 + Optional("search", Nullable(search));
    var q2 := q1 + Optional("collection", Nullable(collection));
    var q := q2 + Optional("orderBy", Nullable(orderby));
    assert Get(q, "search") == IfTruthy(Nullable(search)) by {
      assert Keys(q0) == ["page", "itemsPerPage"];
      GetFindsOptional(q0, "search", Nullable(search));
      GetSkipsOptional(q1, "search", "collection", Nullable(collection));
      GetSkipsOptional(q2, "search", "orderBy", Nullable(orderby));
    }
    assert Get(q, "collection") == IfTruthy(Nullable(collection)) by {
      assert Keys(q0) == ["page", "itemsPerPage"];
      KeysAppendOptional(q0, "search", Nullable(search));
      GetFindsOptional(q1, "collection", Nullable(collection));
      GetSkipsOptional(q2, "collection", "orderBy", Nullable(orderby));
    }
    assert Get(q, "orderBy") == IfTruthy(Nullable(orderby)) by {
      assert Keys(q0) == ["page", "itemsPerPage"];
      KeysAppendOptional(q0, "search", Nullable(search));
      KeysAppendOptional(q1, "collection", Nullable(collection));
      GetFindsOptional(q2, "orderBy", Nullable(orderby));
    }
  }

  /** The keys listVideos sends, in order. */
  lemma {:induction false} ListVideosKeys(search: Option<string>, page: int, items: int, collection: Option<string>, orderby: Option<string>)
    ensures Keys(ListVideosQuery(search, page, items, collection, orderby))
      == ["page", "itemsPerPage"]
           + (if Truthy(Nullable(search)) then ["search"] else [])
           + (if Truthy(Nullable(collection)) then ["collection"] else [])
           + (if Truthy(Nullable(orderby)) then ["orderBy"] else [])
  {
    var q0 := [Entry("page", Int(page)), Entry("itemsPerPage", Int(items))];
    var q1 := q0 + Optional("search", Nullable(search));
    var q2 := q1 + Optional("collection", Nullable(collection));
    assert Keys(q0) == ["page", "itemsPerPage"];
    KeysAppendOptional(q0, "search", Nullable(search));
    KeysAppendOptional(q1, "collection", Nullable(collection));
    KeysAppendOptional(q2, "orderBy", Nullable(orderby));
  }

  /** listVideos never sends a key twice. */
  lemma {:induction false} ListVideosUniqueKeys(search: Option<string>, page: int, items: int, collection: Option<string>, orderby: Option<string>)
    ensures UniqueKeys(ListVideosQuery(search, page, items, collection, orderby))
  {
    var q0 := [Entry("page", Int(page)), Entry("itemsPerPage", Int(items))];
    var q1 := q0 + Optional("search", Nullable(search));
    var q2 := q1 + Optional("collection", Nullable(collection));
    assert Keys(q0) == ["page", "itemsPerPage"];
    KeysAppendOptional(q0, "search", Nullable(search));
    KeysAppendOptional(q1, "collection", Nullable(collection));
    UniqueAppendOptional(q0, "search", Nullable(search));
    UniqueAppendOptional(q1, "collection", Nullable(collection));
    UniqueAppendOptional(q2, "orderBy", Nullable(orderby));
  }

  /** A falsy optional argument ("" or "0") sends the same query as leaving it out. */
  lemma {:induction false} ListVideosFalsyIsOmitted(search: string, page: int, items: int, collection: Option<string>, orderby: Option<string>)
    requires !Truthy(Str(search))
    ensures ListVideosQuery(Some(search), page, items, collection, orderby) == ListVideosQuery(None, page, items, collection, orderby)
  {
  }

  /** With no optional argument, listVideos sends exactly page=1 and itemsPerPage=100. */
  lemma {:induction false} ListVideosDefaults()
    ensures ListVideosQuery(None, 1, 100, None, None) == [Entry("page", Int(1)), Entry("itemsPerPage", Int(100))]
  {
  }

  /** Supplying a truthy search inserts exactly one key, `search`, right after the page keys. */
  lemma {:induction false} ListVideosSearchAddsOneKey(search: string, page: int, items: int, collection: Option<string>, orderby: Option<string>)
    requires Truthy(Str(search))
    ensures Keys(ListVideosQuery(Some(search), page, items, collection, orderby))
      == Keys(ListVideosQuery(None, page, items, collection, orderby))[..2] + ["search"]
         + Keys(ListVideosQuery(None, page, items, collection, orderby))[2..]
  {
    var pages: seq<string> := ["page", "itemsPerPage"];
    var rest: seq<string> := (if Truthy(Nullable(collection)) then ["collection"] else [])
      + (if Truthy(Nullable(orderby)) then ["orderBy"] else []);
    var without := Keys(ListVideosQuery(None, page, items, collection, orderby));
    var with := Keys(ListVideosQuery(Some(search), page, items, collection, orderby));
    assert without == pages + rest by { ListVideosKeys(None, page, items, collection, orderby); }
    assert with == pages + ["search"] + rest by { ListVideosKeys(Some(search), page, items, collection, orderby); }
    assert without[..2] == pages;
    assert without[2..] == rest;
  }

  /** Supplying a truthy search changes the value of no other key. */
  lemma {:induction false} ListVideosSearchKeepsOtherKeys(search: string, page: int, items: int, collection: Option<string>, orderby: Option<string>, k: string)
    requires Truthy(Str(search)) && k != "search"
    ensures Get(ListVideosQuery(Some(search), page, items, collection, orderby), k)
         == Get(ListVideosQuery(None, page, items, collection, orderby), k)
  {
    var q0 := [Entry("page", Int(page)), Entry("itemsPerPage", Int(items))];
    var tail := Optional("collection", Nullable(collection)) + Optional("orderBy", Nullable(orderby));
    assert ListVideosQuery(None, page, items, collection, orderby) == q0 + tail;
    assert ListVideosQuery(Some(search), page, items, collection, orderby) == q0 + [Entry("search", Str(search))] + tail;
    KeysAppend(q0, [Entry("search", Str(search))]);
    GetAppend(q0 + [Entry("search", Str(search))], tail, k);
    GetAppend(q0, [Entry("search", Str(search))], k);
    GetAppend(q0, tail, k);
  }

  // ---------------------------------------------------------------- createVideo

  /** The JSON body of createVideo: all three keys, in this order, null when not supplied. */
  function CreateVideoBody(title: Value, collectionId: Option<string>, thumbnailTime: Option<int>): seq<Entry>
  {
    [Entry("title", title), Entry("collectionId", Nullable(collectionId)), Entry("thumbnailTime", NullableInt(thumbnailTime))]
  }

  /**
   * createVideo sends every key even when an optional argument is null or falsy,
   * unlike the omission rule of fetchVideo.
   */
  lemma {:induction false} CreateVideoBodyAlwaysComplete(title: Value, collectionId: Option<string>, thumbnailTime: Option<int>)
    ensures var b := CreateVideoBody(title, collectionId, thumbnailTime);
      && Keys(b) == ["title", "collectionId", "thumbnailTime"]
      && Get(b, "title") == Some(title)
      && Get(b, "collectionId") == Some(Nullable(collectionId))
      && Get(b, "thumbnailTime") == Some(NullableInt(thumbnailTime))
  {
  }

  // ---------------------------------------------------------------- uploadVideoWithVideoId

  /** The query of uploadVideoWithVideoId: enabledResolutions when truthy, nothing else. */
  function UploadQuery(enabledResolutions: Option<string>): seq<Entry>
  {
    Optional("enabledResolutions", Nullable(enabledResolutions))
  }

  // ---------------------------------------------------------------- getVideoPlayData

  /** The query of getVideoPlayData: token, then expires, each when truthy. */
  function PlayDataQuery(token: Option<string>, expires: Option<int>): seq<Entry>
  {
    [] + Optional("token", Nullable(token)) + Optional("expires", NullableInt(expires))
  }

  lemma {:induction false} PlayDataQueryShape(token: Option<string>, expires: Option<int>)
    ensures var q := PlayDataQuery(token, expires);
      && Get(q, "token") == IfTruthy(Nullable(token))
      && Get(q, "expires") == IfTruthy(NullableInt(expires))
      && Keys(q) == (if Truthy(Nullable(token)) then ["token"] else []) + (if Truthy(NullableInt(expires)) then ["expires"] else [])
      && (expires == Some(0) ==> "expires" !in Keys(q))
  {
    var e: seq<Entry> := [];
    var q1 := e + Optional("token", Nullable(token));
    assert q1 == Optional("token", Nullable(token));
    assert Get(q1, "token") == IfTruthy(Nullable(token));
    assert Keys(q1) == if Truthy(Nullable(token)) then ["token"] else [];
    GetSkipsOptional(q1, "token", "expires", NullableInt(expires));
    KeysAppendOptional(q1, "expires", NullableInt(expires));
    assert "expires" !in Keys(q1);
    GetFindsOptional(q1, "expires", NullableInt(expires));
  }

  // ---------------------------------------------------------------- fetchVideo

  /** The query of fetchVideo: collectionId, then thumbnailTime, each when truthy. */
  function FetchQuery(collectionId: Option<string>, thumbnailTime: Option<int>): seq<Entry>
  {
    [] + Optional("collectionId", Nullable(collectionId)) + Optional("thumbnailTime", NullableInt(thumbnailTime))
  }

  /** The JSON body of fetchVideo: url always, then title and headers, each when truthy. */
  function FetchBody(url: string, title: Option<string>, headers: Option<seq<Entry>>): seq<Entry>
  {
    [Entry("url", Str(url))] + Optional("title", Nullable(title)) + Optional("headers", NullableArray(headers))
  }

  /** fetchVideo sends collectionId and thumbnailTime in the query, each exactly when truthy. */
  lemma {:induction false} FetchQueryShape(collectionId: Option<string>, thumbnailTime: Option<int>)
    ensures Get(FetchQuery(collectionId, thumbnailTime), "collectionId") == IfTruthy(Nullable(collectionId))
    ensures Get(FetchQuery(collectionId, thumbnailTime), "thumbnailTime") == IfTruthy(NullableInt(thumbnailTime))
  {
    var q1: seq<Entry> := [] + Optional("collectionId", Nullable(collectionId));
    assert Keys([]) == [];
    GetFindsOptional([], "collectionId", Nullable(collectionId));
    GetSkipsOptional(q1, "collectionId", "thumbnailTime", NullableInt(thumbnailTime));
    GetFindsOptional(q1, "thumbnailTime", NullableInt(thumbnailTime));
  }

  /** fetchVideo's body starts with the url and holds title and headers exactly when truthy; empty headers are left out. */
  lemma {:induction false} FetchBodyShape(url: string, title: Option<string>, headers: Option<seq<Entry>>)
    ensures FetchBody(url, title, headers)[0] == Entry("url", Str(url))
    ensures Get(FetchBody(url, title, headers), "title") == IfTruthy(Nullable(title))
    ensures Get(FetchBody(url, title, headers), "headers") == IfTruthy(NullableArray(headers))
    ensures headers == Some([]) ==> "headers" !in Keys(FetchBody(url, title, headers))
  {
    var b0 := [Entry("url", Str(url))];
    var b1 := b0 + Optional("title", Nullable(title));
    assert Keys(b0) == ["url"];
    GetFindsOptional(b0, "title", Nullable(title));
    GetSkipsOptional(b1, "title", "headers", NullableArray(headers));
    KeysAppendOptional(b0, "title", Nullable(title));
    GetFindsOptional(b1, "headers", NullableArray(headers));
  }

  /** With only the url, fetchVideo sends an empty query and a body holding just the url. */
  lemma {:induction false} FetchOmitsEverythingUnsupplied(url: string)
    ensures FetchQuery(None, None) == []
    ensures FetchBody(url, None, None) == [Entry("url", Str(url))]
  {
  }

  // ---------------------------------------------------------------- addCaption

  /** The JSON body of addCaption: srclang and the base64 file content always, label when truthy. */
  function CaptionBody(srclang: string, content: seq<bv8>, captionLabel: Value): seq<Entry>
  {
    [Entry("srclang", Str(srclang)), Entry("captionsFile", Base64Of(content))] + Optional("label", captionLabel)
  }

  lemma {:induction false} CaptionBodyShape(srclang: string, content: seq<bv8>, captionLabel: Value)
    ensures var b := CaptionBody(srclang, content, captionLabel);
      && Get(b, "srclang") == Some(Str(srclang))
      && Get(b, "captionsFile") == Some(Base64Of(content))
      && Get(b, "label") == IfTruthy(captionLabel)
  {
    var b0 := [Entry("srclang", Str(srclang)), Entry("captionsFile", Base64Of(content))];
    assert Keys(b0) == ["srclang", "captionsFile"];
    GetFindsOptional(b0, "label", captionLabel);
    GetSkipsOptional(b0, "srclang", "label", captionLabel);
    GetSkipsOptional(b0, "captionsFile", "label", captionLabel);
  }

  // ---------------------------------------------------------------- boolean flags

  /** The query of transcribeVideo: the language and the force flag written as a string. */
  function TranscribeQuery(language: string, force: bool): seq<Entry>
  {
    [Entry("language", Str(language)), Entry("force", Str(BoolString(force)))]
  }

  /** The query of repackageVideo: the keepOriginalFiles flag as a native bool. */
  function RepackageQuery(keepOriginalFiles: bool): seq<Entry>
  {
    [Entry("keepOriginalFiles", Bool(keepOriginalFiles))]
  }

  /** The query of getCollection: the includeThumbnails flag written as a string. */
  function GetCollectionQuery(includeThumbnails: bool): seq<Entry>
  {
    [Entry("includeThumbnails", Str(BoolString(includeThumbnails)))]
  }

  // ---------------------------------------------------------------- listCollections

  /** The query of listCollections: four keys always, then search when truthy. */
  function ListCollectionsQuery(search: Option<string>, page: int, items: int, orderby: string, includeThumbnails: bool): seq<Entry>
  {
    ListCollectionsFixed(page, items, orderby, includeThumbnails) + Optional("search", Nullable(search))
  }

  function ListCollectionsFixed(page: int, items: int, orderby: string, includeThumbnails: bool): seq<Entry>
  {
    [ Entry("page", Int(page)), Entry("itemsPerPage", Int(items)),
      Entry("includeThumbnails", Str(BoolString(includeThumbnails))), Entry("orderBy", Str(orderby)) ]
  }

  /** listCollections always sends its four fixed keys, then search exactly when it is truthy. */
  lemma {:induction false} ListCollectionsQueryKeys(search: Option<string>, page: int, items: int, orderby: string, includeThumbnails: bool)
    ensures Keys(ListCollectionsQuery(search, page, items, orderby, includeThumbnails))
      == ["page", "itemsPerPage", "includeThumbnails", "orderBy"] + (if Truthy(Nullable(search)) then ["search"] else [])
    ensures Get(ListCollectionsQuery(search, page, items, orderby, includeThumbnails), "search") == IfTruthy(Nullable(search))
  {
    var q0 := ListCollectionsFixed(page, items, orderby, includeThumbnails);
    assert Keys(q0) == ["page", "itemsPerPage", "includeThumbnails", "orderBy"];
    KeysAppendOptional(q0, "search", Nullable(search));
    GetFindsOptional(q0, "search", Nullable(search));
  }

  /** The four fixed keys of listCollections hold the page, the page size, the flag as a string, and the order. */
  lemma {:induction false} ListCollectionsQueryValues(search: Option<string>, page: int, items: int, orderby: string, includeThumbnails: bool)
    ensures var q := ListCollectionsQuery(search, page, items, orderby, includeThumbnails);
      && Get(q, "page") == Some(Int(page))
      && Get(q, "itemsPerPage") == Some(Int(items))
      && Get(q, "includeThumbnails") == Some(Str(BoolString(includeThumbnails)))
      && Get(q, "orderBy") == Some(Str(orderby))
  {
    var q0 := ListCollectionsFixed(page, items, orderby, includeThumbnails);
    GetFirst(q0, "page", 0);
    GetFirst(q0, "itemsPerPage", 1);
    GetFirst(q0, "includeThumbnails", 2);
    GetFirst(q0, "orderBy", 3);
    GetSkipsOptional(q0, "page", "search", Nullable(search));
    GetSkipsOptional(q0, "itemsPerPage", "search", Nullable(search));
    GetSkipsOptional(q0, "includeThumbnails", "search", Nullable(search));
    GetSkipsOptional(q0, "orderBy", "search", Nullable(search));
  }

  /**
   * transcribeVideo, listCollections and getCollection send their flags as the
   * strings 'true'/'false'; repackageVideo alone passes a native bool.
   */
  lemma {:induction false} BooleanFlagsAreStrings(language: string, force: bool, search: Option<string>, page: int, items: int, orderby: string, includeThumbnails: bool, keepOriginalFiles: bool)
    ensures Get(TranscribeQuery(language, force), "force") == Some(Str(BoolString(force)))
    ensures Get(ListCollectionsQuery(search, page, items, orderby, includeThumbnails), "includeThumbnails") == Some(Str(BoolString(includeThumbnails)))
    ensures Get(GetCollectionQuery(includeThumbnails), "includeThumbnails") == Some(Str(BoolString(includeThumbnails)))
    ensures Get(RepackageQuery(keepOriginalFiles), "keepOriginalFiles") == Some(Bool(keepOriginalFiles))
  {
    GetFirst(TranscribeQuery(language, force), "force", 1);
    ListCollectionsQueryValues(search, page, items, orderby, includeThumbnails);
    GetFirst(GetCollectionQuery(includeThumbnails), "includeThumbnails", 0);
    GetFirst(RepackageQuery(keepOriginalFiles), "keepOriginalFiles", 0);
  }
}

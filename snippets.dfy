/**
 The `Snippet` dataclass and its JSON mapping. A snippet file holds the
 nested structure `{"alfredsnippet": {"snippet", "uid", "name", "keyword"}}`;
 the collection is not stored in the file but supplied by the caller (it is
 the name of the directory the file was extracted into).
 */
module Snippets {
  import opened Wrappers

  /** A parsed JSON value; the text encoding itself is not modelled. */
  datatype Json =
    | JNull
    | JBool(b: bool)
    | JNumber(literal: string)
    | JString(s: string)
    | JArray(items: seq<Json>)
    | JObject(members: seq<(string, Json)>)

  /**
   `obj[key]` on the dict that `json.loads` builds: when a key is repeated
   in the text, the last occurrence wins.
   */
  function Lookup(members: seq<(string, Json)>, key: string): (r: Option<Json>)
    ensures r.None? <==> forall i :: 0 <= i < |members| ==> members[i].0 != key
    ensures r.Some? ==> exists i :: 0 <= i < |members| && members[i] == (key, r.value)
                          && forall j :: i < j < |members| ==> members[j].0 != key
  {
    if |members| == 0 then None
    else if members[|members| - 1].0 == key then Some(members[|members| - 1].1)
    else Lookup(members[..|members| - 1], key)
  }

  /** The exceptions `from_json` can raise while reading the structure. */
  datatype ParseError =
    | NotAnObject(context: string)   // TypeError: subscripting something that is not a dict
    | MissingKey(key: string)        // KeyError
    | NotAString(key: string)        // a field that is not a JSON string

  /** The values of a `Snippet`'s five fields. */
  datatype Record = Record(collection: string, snippet: string, uid: string, name: string, keyword: string)

  const ROOT_KEY := "alfredsnippet"

  /** `Snippet.to_json`, before text encoding: the four stored fields in their fixed order. */
  function ToJson(r: Record): Json
  {
    JObject([(ROOT_KEY, JObject([
      ("snippet", JString(r.snippet)),
      ("uid", JString(r.uid)),
      ("name", JString(r.name)),
      ("keyword", JString(r.keyword))
    ]))])
  }

  /** `j[key]` where `j` must be a dict. */
  function Member(j: Json, key: string, context: string): (r: Result<Json, ParseError>)
    ensures r.Success? <==> j.JObject? && Lookup(j.members, key).Some?
    ensures r.Success? ==> r.value == Lookup(j.members, key).value
  {
    if !j.JObject? then Failure(NotAnObject(context))
    else match Lookup(j.members, key)
      case None => Failure(MissingKey(key))
      case Some(v) => Success(v)
  }

  /** A field of the `alfredsnippet` object, which must hold a string. */
  function StringField(item: Json, key: string): (r: Result<string, ParseError>)
    ensures r.Success? <==> Member(item, key, ROOT_KEY).Success? && Member(item, key, ROOT_KEY).value.JString?
    ensures r.Success? ==> Member(item, key, ROOT_KEY).value == JString(r.value)
  {
    match Member(item, key, ROOT_KEY)
    case Failure(e) => Failure(e)
    case Success(v) => if v.JString? then Success(v.s) else Failure(NotAString(key))
  }

  /** The snippet object's four fields are all strings. */
  predicate WellFormed(j: Json)
  {
    && Member(j, ROOT_KEY, "document").Success?
    && var item := Member(j, ROOT_KEY, "document").value;
    && StringField(item, "snippet").Success?
    && StringField(item, "uid").Success?
    && StringField(item, "name").Success?
    && StringField(item, "keyword").Success?
  }

  /**
   `Snippet.from_json`: the fields are read in the order `snippet`, `uid`,
   `name`, `keyword`, so the first one missing is the one reported.
   */
  function FromJson(j: Json, collection: string): (r: Result<Record, ParseError>)
    ensures r.Success? <==> WellFormed(j)
    ensures r.Success? ==> r.value.collection == collection
    ensures r.Success? ==>
      var item := Member(j, ROOT_KEY, "document").value;
      && StringField(item, "snippet") == Success(r.value.snippet)
      && StringField(item, "uid") == Success(r.value.uid)
      && StringField(item, "name") == Success(r.value.name)
      && StringField(item, "keyword") == Success(r.value.keyword)
  {
    match Member(j, ROOT_KEY, "document")
    case Failure(e) => Failure(e)
    case Success(item) =>
      match StringField(item, "snippet")
      case Failure(e) => Failure(e)
      case Success(snippet) =>
        match StringField(item, "uid")
        case Failure(e) => Failure(e)
        case Success(uid) =>
          match StringField(item, "name")
          case Failure(e) => Failure(e)
          case Success(name) =>
            match StringField(item, "keyword")
            case Failure(e) => Failure(e)
            case Success(keyword) => Success(Record(collection, snippet, uid, name, keyword))
  }

  /** The four fields in the order `from_json` reads them. */
  const FIELDS: seq<string> := ["snippet", "uid", "name", "keyword"]

  /**
   A document whose `alfredsnippet` object has the first `k` fields, in
   reading order, as strings but not the next one reports the error of that
   next field, whatever the later fields hold.
   */
  lemma FromJsonFirstError(j: Json, collection: string, k: nat)
    requires Member(j, ROOT_KEY, "document").Success?
    requires k < |FIELDS|
    requires forall i :: 0 <= i < k ==> StringField(Member(j, ROOT_KEY, "document").value, FIELDS[i]).Success?
    requires StringField(Member(j, ROOT_KEY, "document").value, FIELDS[k]).Failure?
    ensures FromJson(j, collection) == Failure(StringField(Member(j, ROOT_KEY, "document").value, FIELDS[k]).error)
  {
    var item := Member(j, ROOT_KEY, "document").value;
    if k > 0 { assert StringField(item, FIELDS[0]).Success?; }
    if k > 1 { assert StringField(item, FIELDS[1]).Success?; }
    if k > 2 { assert StringField(item, FIELDS[2]).Success?; }
  }

  /** A document that is not an object, or has no `alfredsnippet` key, reports that error. */
  lemma FromJsonNoDocument(j: Json, collection: string)
    requires Member(j, ROOT_KEY, "document").Failure?
    ensures FromJson(j, collection) == Failure(if j.JObject? then MissingKey(ROOT_KEY) else NotAnObject("document"))
  {
  }

  /** Reading back what `to_json` wrote, with the snippet's own collection, gives the snippet back. */
  lemma RoundTrip(r: Record)
    ensures FromJson(ToJson(r), r.collection) == Success(r)
  {
    var ms := Member(ToJson(r), ROOT_KEY, "document").value.members;
    assert ms[..3][..2] == ms[..2] && ms[..2][..1] == ms[..1];
    assert Lookup(ms, "keyword") == Some(JString(r.keyword));
    assert Lookup(ms, "name") == Lookup(ms[..3], "name") == Some(JString(r.name));
    assert Lookup(ms, "uid") == Lookup(ms[..2], "uid") == Some(JString(r.uid));
    assert Lookup(ms, "snippet") == Lookup(ms[..1], "snippet") == Some(JString(r.snippet));
  }

  /** Writing a parsed snippet back out preserves each of the four fields it was read from. */
  lemma RewriteKeepsFields(j: Json, collection: string, key: string)
    requires FromJson(j, collection).Success?
    requires key in {"snippet", "uid", "name", "keyword"}
    ensures StringField(Member(ToJson(FromJson(j, collection).value), ROOT_KEY, "document").value, key)
         == StringField(Member(j, ROOT_KEY, "document").value, key)
  {
    RoundTrip(FromJson(j, collection).value);
  }

  /** Two different snippets of one collection never serialize to the same structure. */
  lemma ToJsonInjective(a: Record, b: Record)
    requires a.collection == b.collection
    requires ToJson(a) == ToJson(b)
    ensures a == b
  {
    RoundTrip(a);
    RoundTrip(b);
  }

  /**
   The `Snippet` dataclass. Its objects are mutable and are shared: the
   keyword and name indexes hold references to the very objects that the
   transformation rewrites afterwards.
   */
  class Snippet {
    var collection: string
    var snippet: string
    var uid: string
    var name: string
    var keyword: string

    constructor (r: Record)
      ensures Value() == r
    {
      collection, snippet, uid, name, keyword := r.collection, r.snippet, r.uid, r.name, r.keyword;
    }

    /** The current values of the fields. */
    function Value(): Record
      reads this
    {
      Record(collection, snippet, uid, name, keyword)
    }
  }
}

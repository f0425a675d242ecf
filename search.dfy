/** The search request's URL construction: `SearchOrder` and
    `PubApiClientSearch._construct_url` (pydartpub/api/cmd/search.py). The cursor's
    search endpoint is a parameter; performing the request is not modelled. */
module Search {
  import opened Wrappers

  /** The sort orders the search endpoint accepts (a `StrEnum`). */
  datatype SearchOrder = Top | Text | Created | Updated | Popularity | Like | Points {

    /** The enumeration member's string value. */
    function Value(): string {
      match this
      case Top => "top"
      case Text => "text"
      case Created => "created"
      case Updated => "updated"
      case Popularity => "popularity"
      case Like => "like"
      case Points => "points"
    }
  }

  /** A query parameter's value: the query and the order are text, the page a number. */
  datatype ParamValue = TextValue(text: string) | NumberValue(number: int)

  /** An ordered query-parameter dict, as Python's `dict` keeps insertion order. */
  type Params = seq<(string, ParamValue)>

  /** `ValueError("Invalid page number")`. */
  datatype SearchError = InvalidPage(page: int)

  /** The intended result: the search endpoint with its query parameters attached. */
  datatype SearchUrl = SearchUrl(endpoint: string, params: Params)

  /** ASCII lower-casing of one character. */
  function LowerChar(c: char): char {
    if 'A' <= c <= 'Z' then (c as int + 32) as char else c
  }

  /** `str.lower()`, on ASCII letters. */
  function Lower(s: string): (r: string)
    ensures |r| == |s|
    ensures forall i | 0 <= i < |s| :: r[i] == LowerChar(s[i])
  {
    if s == [] then [] else [LowerChar(s[0])] + Lower(s[1..])
  }

  /** A string without upper-case ASCII letters is its own lower-case form. */
  lemma LowerOfLowercase(s: string)
    requires forall i | 0 <= i < |s| :: !('A' <= s[i] <= 'Z')
    ensures Lower(s) == s
  {
  }

  /** All seven order values are already lower case, so `sort.lower()` sends each
      order's own value. */
  lemma OrderValuesAreLowercase(o: SearchOrder)
    ensures Lower(o.Value()) == o.Value()
  {
    LowerOfLowercase(o.Value());
  }

  /** The value under `key`, if the dict has one. */
  function Param(params: Params, key: string): (r: Option<ParamValue>)
    ensures r.Some? <==> exists i | 0 <= i < |params| :: params[i].0 == key
  {
    if params == [] then None
    else if params[0].0 == key then Some(params[0].1)
    else
      var r := Param(params[1..], key);
      assert forall i | 0 < i < |params| :: params[i] == params[1..][i - 1];
      r
  }

  /** An entry with another key in front does not change what a key maps to. */
  lemma ParamSkips(entry: (string, ParamValue), params: Params, key: string)
    requires entry.0 != key
    ensures Param([entry] + params, key) == Param(params, key)
  {
    assert ([entry] + params)[1..] == params;
  }

  /** Where a parameter stands in the order `q`, `page`, `sort`. */
  function Rank(key: string): int {
    if key == "q" then 0 else if key == "page" then 1 else if key == "sort" then 2 else 3
  }

  /** `param[key] = value` on a Python dict: replaces the value of an existing key,
      otherwise appends the entry. */
  function Put(params: Params, key: string, value: ParamValue): Params {
    if params == [] then [(key, value)]
    else if params[0].0 == key then [(key, value)] + params[1..]
    else [params[0]] + Put(params[1..], key, value)
  }

  /** Putting a new key appends it. */
  lemma {:induction false} PutNewKeyAppends(params: Params, key: string, value: ParamValue)
    requires forall i | 0 <= i < |params| :: params[i].0 != key
    ensures Put(params, key, value) == params + [(key, value)]
  {
    if params != [] {
      PutNewKeyAppends(params[1..], key, value);
    }
  }

  /** The parameters `_construct_url` collects for valid arguments: `q` exactly when the
      query is a non-empty string, `page` exactly when the page is not 1, `sort` exactly
      when an order is given, with its lower-cased value, in that order. */
  function SearchParams(query: Option<string>, page: int, sort: Option<SearchOrder>): (r: Params)
    ensures Param(r, "q").Some? <==> query.Some? && query.value != ""
    ensures query.Some? && query.value != "" ==> Param(r, "q") == Some(TextValue(query.value))
    ensures Param(r, "page").Some? <==> page != 1
    ensures page != 1 ==> Param(r, "page") == Some(NumberValue(page))
    ensures Param(r, "sort").Some? <==> sort.Some?
    ensures sort.Some? ==> Param(r, "sort") == Some(TextValue(sort.value.Value()))
    ensures r == [] <==> (query.None? || query.value == "") && page == 1 && sort.None?
  {
    OrderValuesAreLowercase(if sort.Some? then sort.value else Top);
    var s: Params := if sort.Some? then [("sort", TextValue(Lower(sort.value.Value())))] else [];
    var p: Params := (if page != 1 then [("page", NumberValue(page))] else []) + s;
    var r := (if query.Some? && query.value != "" then [("q", TextValue(query.value))] else []) + p;
    assert Param(r, "sort") == Param(s, "sort") by {
      if page != 1 { ParamSkips(("page", NumberValue(page)), s, "sort"); }
      if query.Some? && query.value != "" { ParamSkips(("q", TextValue(query.value)), p, "sort"); }
    }
    r
  }

  /** The collected parameters come in the order `q`, `page`, `sort`, each at most once,
      and no other key is ever collected. */
  lemma SearchParamsOrdered(query: Option<string>, page: int, sort: Option<SearchOrder>)
    ensures var r := SearchParams(query, page, sort);
      forall i, j | 0 <= i < j < |r| :: Rank(r[i].0) < Rank(r[j].0) < 3
  {
  }

  /** The guard and the successive conditional inserts of `_construct_url`: a page
      below 1 is refused before anything is built; otherwise the collected dict is
      the one `SearchParams` describes, and `page` is in it exactly when the page is
      at least 2. */
  method CollectParams(query: Option<string>, page: int, sort: Option<SearchOrder>)
    returns (r: Result<Params, SearchError>)
    ensures r.Err? <==> page < 1
    ensures r.Err? ==> r.error == InvalidPage(page)
    ensures r.Ok? ==> r.value == SearchParams(query, page, sort)
    ensures r.Ok? ==> (Param(r.value, "page").Some? <==> page >= 2)
  {
    if page < 1 {
      return Err(InvalidPage(page));
    }
    var param: Params := [];
    ghost var q: Params := if query.Some? && query.value != "" then [("q", TextValue(query.value))] else [];
    ghost var pg: Params := if page != 1 then [("page", NumberValue(page))] else [];
    ghost var st: Params := if sort.Some? then [("sort", TextValue(Lower(sort.value.Value())))] else [];
    if query.Some? && query.value != "" {
      param := Put(param, "q", TextValue(query.value));
    }
    assert param == q;
    if page != 1 {
      PutNewKeyAppends(param, "page", NumberValue(page));
      param := Put(param, "page", NumberValue(page));
    }
    assert param == q + pg;
    if sort.Some? {
      PutNewKeyAppends(param, "sort", TextValue(Lower(sort.value.Value())));
      param := Put(param, "sort", TextValue(Lower(sort.value.Value())));
    }
    assert param == q + (pg + st);
    return Ok(param);
  }

  /** `_construct_url` as written: the parameters are collected and then dropped, since
      `surl.tostr()` is returned without them. Any valid call yields the bare search
      endpoint, whatever the query, page and order. */
  method ConstructUrlAsWritten(searchUrl: string, query: Option<string>, page: int, sort: Option<SearchOrder>)
    returns (r: Result<string, SearchError>)
    ensures r.Err? <==> page < 1
    ensures r.Err? ==> r.error == InvalidPage(page)
    ensures r.Ok? ==> r.value == searchUrl
  {
    var params := CollectParams(query, page, sort);
    if params.Err? {
      return Err(params.error);
    }
    return Ok(searchUrl);
  }

  /** `_construct_url` as intended: the search endpoint with the collected parameters. */
  method ConstructUrl(searchUrl: string, query: Option<string>, page: int, sort: Option<SearchOrder>)
    returns (r: Result<SearchUrl, SearchError>)
    ensures r.Err? <==> page < 1
    ensures r.Err? ==> r.error == InvalidPage(page)
    ensures r.Ok? ==> r.value == SearchUrl(searchUrl, SearchParams(query, page, sort))
  {
    var params := CollectParams(query, page, sort);
    if params.Err? {
      return Err(params.error);
    }
    return Ok(SearchUrl(searchUrl, params.value));
  }

  /** The defaults (no query, page 1, no order) collect no parameter. */
  lemma DefaultsCollectNothing()
    ensures SearchParams(None, 1, None) == []
  {
  }

  /** The query "http" on page 2 sorted by popularity collects
      `q=http`, `page=2`, `sort=popularity`, in that order. */
  lemma SearchExample()
    ensures SearchParams(Some("http"), 2, Some(Popularity))
      == [("q", TextValue("http")), ("page", NumberValue(2)), ("sort", TextValue("popularity"))]
  {
    OrderValuesAreLowercase(Popularity);
  }
}

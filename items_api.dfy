/** The frontend's API client: the `Item` shape it receives, the query
    string `listItems` assembles, and the check of the response status. */
module ItemsApi {
  import opened Base
  import opened Text
  import opened ItemsSchema

  /** An item as the frontend receives it. The price arrives as a number or
      a numeric string; the model keeps the number it denotes. The
      timestamps are not modelled. */
  datatype FrontItem = FrontItem(
    id: int,
    title: string,
    description: Maybe<string>,
    category: Maybe<string>,
    price: real,
    quantity: int,
    tags: Maybe<seq<string>>,
    status: ItemStatus)

  /** The optional parameters of `listItems`; `None` is `undefined`. */
  datatype ListParams = ListParams(
    q: Option<string>,
    page: Option<int>,
    pageSize: Option<int>,
    status: Option<ItemStatus>,
    category: Option<string>)

  /** One name/value pair of a query string; the name is written as
      `KeyName(name)`. */
  datatype Param = Param(name: Key, value: string)

  function Names(ps: seq<Param>): (ns: seq<Key>)
    ensures |ns| == |ps|
  {
    if ps == [] then [] else [ps[0].name] + Names(ps[1..])
  }

  lemma {:induction false} NameAt(ps: seq<Param>, i: int)
    requires 0 <= i < |ps|
    ensures Names(ps)[i] == ps[i].name
  {
    if i > 0 {
      NameAt(ps[1..], i - 1);
    }
  }

  lemma {:induction false} NamesAppend(a: seq<Param>, b: seq<Param>)
    ensures Names(a + b) == Names(a) + Names(b)
  {
    if a != [] {
      NamesAppend(a[1..], b);
      assert (a + b)[1..] == a[1..] + b;
      assert Names(a + b) == [a[0].name] + Names(a[1..] + b);
      assert Names(a) == [a[0].name] + Names(a[1..]);
    } else {
      assert a + b == b;
    }
  }

  /** `URLSearchParams.set(name, value)` on a list of pairs: the first pair
      with that name takes the value and any later ones are removed; with no
      such pair, the pair is appended. */
  function SetParam(ps: seq<Param>, name: Key, value: string): (r: seq<Param>)
    ensures Lacks(ps, name) ==> r == ps + [Param(name, value)]
  {
    if ps == [] then [Param(name, value)]
    else if ps[0].name == name then [Param(name, value)] + RemoveAll(ps[1..], name)
    else [ps[0]] + SetParam(ps[1..], name, value)
  }

  /** No pair has the name. */
  predicate Lacks(ps: seq<Param>, name: Key) {
    forall i :: 0 <= i < |ps| ==> ps[i].name != name
  }

  function RemoveAll(ps: seq<Param>, name: Key): (r: seq<Param>)
    ensures name !in Names(r)
    ensures forall n :: n != name ==> (n in Names(r) <==> n in Names(ps))
  {
    if ps == [] then []
    else
      var rest := RemoveAll(ps[1..], name);
      assert Names(ps) == [ps[0].name] + Names(ps[1..]);
      if ps[0].name == name then rest
      else
        assert Names([ps[0]] + rest) == [ps[0].name] + Names(rest);
        [ps[0]] + rest
  }

  /** After `set`, the pair is in the list. */
  lemma {:induction false} SetParamHolds(ps: seq<Param>, name: Key, value: string)
    ensures Param(name, value) in SetParam(ps, name, value)
  {
    if ps != [] && ps[0].name != name {
      SetParamHolds(ps[1..], name, value);
    }
  }

  predicate AtMostOnce(ps: seq<Param>, name: Key) {
    forall i, j :: 0 <= i < |ps| && 0 <= j < |ps| && ps[i].name == name && ps[j].name == name ==> i == j
  }

  /** After `set`, the name occurs once. */
  lemma {:induction false} SetParamOnce(ps: seq<Param>, name: Key, value: string)
    ensures AtMostOnce(SetParam(ps, name, value), name)
  {
    var r := SetParam(ps, name, value);
    if ps == [] {
    } else if ps[0].name == name {
      var rest := RemoveAll(ps[1..], name);
      assert r == [Param(name, value)] + rest;
      forall i | 0 < i < |r| ensures r[i].name != name {
        assert r[i] == rest[i - 1];
        NameAt(rest, i - 1);
        assert rest[i - 1].name in Names(rest);
      }
    } else {
      var rest := SetParam(ps[1..], name, value);
      SetParamOnce(ps[1..], name, value);
      assert r == [ps[0]] + rest;
      forall i, j | 0 <= i < |r| && 0 <= j < |r| && r[i].name == name && r[j].name == name
        ensures i == j
      {
        assert r[0] == ps[0];
        assert i > 0 && j > 0;
        assert r[i] == rest[i - 1] && r[j] == rest[j - 1];
      }
    }
  }

  /** `set` leaves the other names as they were. */
  lemma {:induction false} SetParamKeepsOthers(ps: seq<Param>, name: Key, value: string, other: Key)
    requires other != name
    ensures other in Names(SetParam(ps, name, value)) <==> other in Names(ps)
  {
    var r := SetParam(ps, name, value);
    if ps == [] {
      assert Names(r) == [name];
    } else if ps[0].name == name {
      var rest := RemoveAll(ps[1..], name);
      assert Names(ps) == [ps[0].name] + Names(ps[1..]);
      assert Names(r) == [name] + Names(rest);
    } else {
      SetParamKeepsOthers(ps[1..], name, value, other);
      assert Names(ps) == [ps[0].name] + Names(ps[1..]);
      assert Names(r) == [ps[0].name] + Names(SetParam(ps[1..], name, value));
    }
  }

  /** `URLSearchParams`. */
  class SearchParams {
    var pairs: seq<Param>

    constructor ()
      ensures pairs == []
    {
      pairs := [];
    }

    method Set(name: Key, value: string)
      modifies this
      ensures pairs == SetParam(old(pairs), name, value)
    {
      pairs := SetParam(pairs, name, value);
    }
  }

  /** JavaScript truthiness of the parameters: a string is truthy when it
      is not empty, a number when it is not 0. */
  predicate TextGiven(v: Option<string>) {
    v.Some? && v.value != ""
  }

  predicate NumberGiven(v: Option<int>) {
    v.Some? && v.value != 0
  }

  function QPart(p: ListParams): seq<Param> {
    if TextGiven(p.q) then [Param(Q, p.q.value)] else []
  }

  function PagePart(p: ListParams): seq<Param> {
    if NumberGiven(p.page) then [Param(Page, IntToString(p.page.value))] else []
  }

  function PageSizePart(p: ListParams): seq<Param> {
    if NumberGiven(p.pageSize) then [Param(PageSize, IntToString(p.pageSize.value))] else []
  }

  function StatusPart(p: ListParams): seq<Param> {
    if p.status.Some? then [Param(Status, StatusName(p.status.value))] else []
  }

  function CategoryPart(p: ListParams): seq<Param> {
    if TextGiven(p.category) then [Param(Category, p.category.value)] else []
  }

  /** The query string `listItems` sends: every truthy parameter, in the
      order q, page, pageSize, status, category, numbers written with
      `String(n)`. */
  function QueryParams(p: ListParams): seq<Param> {
    QPart(p) + PagePart(p) + PageSizePart(p) + StatusPart(p) + CategoryPart(p)
  }

  /** The names `QueryParams` can hold, one flag per parameter. */
  function GivenNames(p: ListParams): seq<Key> {
    (if TextGiven(p.q) then [Q] else [])
    + (if NumberGiven(p.page) then [Page] else [])
    + (if NumberGiven(p.pageSize) then [PageSize] else [])
    + (if p.status.Some? then [Status] else [])
    + (if TextGiven(p.category) then [Category] else [])
  }

  lemma QueryNames(p: ListParams)
    ensures Names(QueryParams(p)) == GivenNames(p)
  {
    PartNames(p);
    var a := QPart(p);
    var b := a + PagePart(p);
    var c := b + PageSizePart(p);
    var d := c + StatusPart(p);
    NamesAppend(a, PagePart(p));
    NamesAppend(b, PageSizePart(p));
    NamesAppend(c, StatusPart(p));
    NamesAppend(d, CategoryPart(p));
  }

  lemma PartNames(p: ListParams)
    ensures Names(QPart(p)) == (if TextGiven(p.q) then [Q] else [])
    ensures Names(PagePart(p)) == (if NumberGiven(p.page) then [Page] else [])
    ensures Names(PageSizePart(p)) == (if NumberGiven(p.pageSize) then [PageSize] else [])
    ensures Names(StatusPart(p)) == (if p.status.Some? then [Status] else [])
    ensures Names(CategoryPart(p)) == (if TextGiven(p.category) then [Category] else [])
  {
  }

  /** Each `set` of `listItems` adds a name that is not there yet. */
  lemma QueryStepsFresh(p: ListParams)
    ensures Lacks(QPart(p), Page)
    ensures Lacks(QPart(p) + PagePart(p), PageSize)
    ensures Lacks(QPart(p) + PagePart(p) + PageSizePart(p), Status)
    ensures Lacks(QPart(p) + PagePart(p) + PageSizePart(p) + StatusPart(p), Category)
  {
  }

  /** The body of `listItems` up to the request: five conditional `set`
      calls on a fresh `URLSearchParams`. */
  method BuildListQuery(p: ListParams) returns (query: seq<Param>)
    ensures query == QueryParams(p)
  {
    QueryStepsFresh(p);
    var search := new SearchParams();
    if TextGiven(p.q) {
      search.Set(Q, p.q.value);
    }
    assert search.pairs == QPart(p);
    if NumberGiven(p.page) {
      search.Set(Page, IntToString(p.page.value));
    }
    assert search.pairs == QPart(p) + PagePart(p);
    if NumberGiven(p.pageSize) {
      search.Set(PageSize, IntToString(p.pageSize.value));
    }
    assert search.pairs == QPart(p) + PagePart(p) + PageSizePart(p);
    if p.status.Some? {
      search.Set(Status, StatusName(p.status.value));
    }
    assert search.pairs == QPart(p) + PagePart(p) + PageSizePart(p) + StatusPart(p);
    if TextGiven(p.category) {
      search.Set(Category, p.category.value);
    }
    query := search.pairs;
  }

  predicate Distinct(ns: seq<Key>) {
    forall i, j :: 0 <= i < j < |ns| ==> ns[i] != ns[j]
  }

  lemma AppendFresh(a: seq<Key>, b: seq<Key>)
    requires Distinct(a) && |b| <= 1
    requires forall n :: n in b ==> n !in a
    ensures Distinct(a + b)
  {
    forall i, j | 0 <= i < j < |a + b|
      ensures (a + b)[i] != (a + b)[j]
    {
      if j >= |a| {
        assert (a + b)[j] in b;
        assert (a + b)[i] == a[i];
      }
    }
  }

  lemma GivenNamesDistinct(p: ListParams)
    ensures Distinct(GivenNames(p))
  {
    var n1 := if TextGiven(p.q) then [Q] else [];
    var b2 := if NumberGiven(p.page) then [Page] else [];
    var b3 := if NumberGiven(p.pageSize) then [PageSize] else [];
    var b4 := if p.status.Some? then [Status] else [];
    var b5 := if TextGiven(p.category) then [Category] else [];
    AppendFresh(n1, b2);
    AppendFresh(n1 + b2, b3);
    AppendFresh(n1 + b2 + b3, b4);
    AppendFresh(n1 + b2 + b3 + b4, b5);
  }

  /** Each name appears at most once in the query string. */
  lemma QueryParamsDistinct(p: ListParams)
    ensures Distinct(Names(QueryParams(p)))
  {
    QueryNames(p);
    GivenNamesDistinct(p);
  }

  lemma GivenNamesPresence(p: ListParams)
    ensures var ns := GivenNames(p);
      && (Q in ns <==> TextGiven(p.q))
      && (Page in ns <==> NumberGiven(p.page))
      && (PageSize in ns <==> NumberGiven(p.pageSize))
      && (Status in ns <==> p.status.Some?)
      && (Category in ns <==> TextGiven(p.category))
  {
  }

  /** A parameter appears in the query string exactly when it is truthy. */
  lemma QueryParamsPresence(p: ListParams)
    ensures var ns := Names(QueryParams(p));
      && (Q in ns <==> TextGiven(p.q))
      && (Page in ns <==> NumberGiven(p.page))
      && (PageSize in ns <==> NumberGiven(p.pageSize))
      && (Status in ns <==> p.status.Some?)
      && (Category in ns <==> TextGiven(p.category))
  {
    QueryNames(p);
    GivenNamesPresence(p);
  }

  /** The numbers read back with `parseInt` as the numbers sent. */
  lemma QueryNumbersReadBack(p: ListParams)
    ensures NumberGiven(p.page) ==> ParseInt(PagePart(p)[0].value) == p.page
    ensures NumberGiven(p.pageSize) ==> ParseInt(PageSizePart(p)[0].value) == p.pageSize
  {
    if NumberGiven(p.page) {
      ParseIntText(p.page.value);
    }
    if NumberGiven(p.pageSize) {
      ParseIntText(p.pageSize.value);
    }
  }

  /** The page of items the list endpoint answers with. */
  datatype ItemPage = ItemPage(items: seq<FrontItem>, total: int, page: int, pageSize: int)

  /** `res.ok`: a status in 200..299. */
  predicate IsOk(status: int) {
    200 <= status <= 299
  }

  const LoadFailed := "Failed to load items"

  /** The end of `listItems`: a response that is not ok raises an error
      instead of yielding data. */
  function ListResponse(status: int, data: ItemPage): (r: Result<ItemPage, string>)
    ensures r.Ok? <==> IsOk(status)
    ensures r.Ok? ==> r.value == data
    ensures r.Err? ==> r.error == LoadFailed
  {
    if !IsOk(status) then Err(LoadFailed) else Ok(data)
  }
}

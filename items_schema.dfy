/** The three zod schemas of the items API (create body, update body, list
    query) as validators. Each validator returns either the parsed input,
    with zod's defaults filled in, or the list of issues zod reports, in
    zod's order: fields in schema order, checks of one field in the order
    they are declared. Each is paired with a declarative predicate stating
    the bounds, and proved to accept exactly the inputs that satisfy it. */
module ItemsSchema {
  import opened Base
  import opened Text

  /** A value as it reaches zod: a JSON request body or an Express query
      string entry. A missing property is `Undefined`. */
  datatype Json =
    | Undefined
    | JNull
    | JBool(b: bool)
    | JNumber(n: real)
    | JString(s: string)
    | JArray(elems: seq<Json>)
    | JObject

  /** The result of JavaScript's `Number(x)`, which `z.coerce.number()`
      applies before checking. */
  datatype Num = Finite(value: real) | NaN

  /** The fixed cases of `Number(x)`; the conversion of strings, arrays and
      objects is left to the caller-supplied coercion. */
  ghost predicate NumberRules(toNumber: Json -> Num) {
    && toNumber(Undefined) == NaN
    && toNumber(JNull) == Finite(0.0)
    && toNumber(JBool(false)) == Finite(0.0)
    && toNumber(JBool(true)) == Finite(1.0)
    && (forall n: real {:trigger JNumber(n)} :: toNumber(JNumber(n)) == Finite(n))
  }

  datatype ItemStatus = Active | Inactive

  function StatusName(s: ItemStatus): string {
    match s
    case Active => "active"
    case Inactive => "inactive"
  }

  /** `z.enum(["active", "inactive"])` on a string. */
  function StatusOfName(s: string): (r: Option<ItemStatus>)
    ensures r.Some? <==> (s == "active" || s == "inactive")
    ensures r.Some? ==> StatusName(r.value) == s
  {
    if s == "active" then Some(Active)
    else if s == "inactive" then Some(Inactive)
    else None
  }

  lemma StatusNameRoundTrip(st: ItemStatus)
    ensures StatusOfName(StatusName(st)) == Some(st)
  {
  }

  /** Every key the schemas know. A key of the create and update schemas is
      also the name of the column it is stored in. */
  datatype Key = Title | Description | Category | Price | Quantity | Tags | Status | Q | Page | PageSize

  function KeyName(k: Key): string {
    match k
    case Title => "title"
    case Description => "description"
    case Category => "category"
    case Price => "price"
    case Quantity => "quantity"
    case Tags => "tags"
    case Status => "status"
    case Q => "q"
    case Page => "page"
    case PageSize => "pageSize"
  }

  /** The keys of the item schemas, which are also columns of the table. */
  predicate IsItemKey(k: Key) {
    k != Q && k != Page && k != PageSize
  }

  /** What a size check measured. */
  datatype Bounded = StringLength | NumberValue | ArrayLength

  /** The check that failed, as zod classifies it. */
  datatype IssueCode =
    | Required
    | InvalidType(expected: string, received: string)
    | TooSmall(what: Bounded, minimum: int)
    | TooBig(what: Bounded, maximum: int)
    | NotInteger
    | InvalidEnum(received: string)
    | Custom(message: string)

  /** One issue, attributed to the top-level key it belongs to (an issue of
      a tag is attributed to `tags`, as `flatten()` groups it). */
  datatype Issue = Issue(key: Key, code: IssueCode)

  /** zod's default English message for an issue. */
  function Message(c: IssueCode): string {
    match c
    case Required => "Required"
    case InvalidType(e, r) => "Expected " + e + ", received " + r
    case TooSmall(StringLength, n) => "String must contain at least " + IntToString(n) + " character(s)"
    case TooSmall(NumberValue, n) => "Number must be greater than or equal to " + IntToString(n)
    case TooSmall(ArrayLength, n) => "Array must contain at least " + IntToString(n) + " element(s)"
    case TooBig(StringLength, n) => "String must contain at most " + IntToString(n) + " character(s)"
    case TooBig(NumberValue, n) => "Number must be less than or equal to " + IntToString(n)
    case TooBig(ArrayLength, n) => "Array must contain at most " + IntToString(n) + " element(s)"
    case NotInteger => "Expected integer, received float"
    case InvalidEnum(r) => "Invalid enum value. Expected 'active' | 'inactive', received '" + r + "'"
    case Custom(m) => m
  }

  /** zod's name for the type of a value, used in "Expected ..., received ...". */
  function TypeName(v: Json): string {
    match v
    case Undefined => "undefined"
    case JNull => "null"
    case JBool(_) => "boolean"
    case JNumber(_) => "number"
    case JString(_) => "string"
    case JArray(_) => "array"
    case JObject => "object"
  }

  /** `s.length`: the number of UTF-16 code units, which is what zod's
      `.min` and `.max` on strings compare. */
  function Utf16Length(s: string): (n: nat)
    ensures |s| <= n <= 2 * |s|
  {
    if s == [] then 0
    else Utf16Length(s[..|s| - 1]) + (if s[|s| - 1] as int > 0xFFFF then 2 else 1)
  }

  predicate IsWhole(r: real) {
    r.Floor as real == r
  }

  // ---------------------------------------------------------------------
  // Declarative bounds

  predicate TextWithin(v: Json, min: nat, max: nat) {
    v.JString? && min <= Utf16Length(v.s) <= max
  }

  /** `z.string().max(max).nullable().optional()`. */
  predicate OptionalText(v: Json, max: nat) {
    v == Undefined || v == JNull || TextWithin(v, 0, max)
  }

  predicate NumberAtLeast(n: Num, min: int) {
    n.Finite? && n.value >= min as real
  }

  predicate WholeNumberWithin(n: Num, min: int, max: Option<int>) {
    n.Finite? && IsWhole(n.value) && n.value >= min as real && (max.Some? ==> n.value <= max.value as real)
  }

  /** `z.array(z.string().min(1).max(50)).max(50).nullable().optional()`,
      shared by the create and update schemas. */
  predicate TagsAcceptable(v: Json) {
    || v == Undefined
    || v == JNull
    || (v.JArray? && |v.elems| <= MaxTags && forall i :: 0 <= i < |v.elems| ==> TextWithin(v.elems[i], 1, MaxTagLength))
  }

  predicate StatusAcceptable(v: Json) {
    v.JString? && StatusOfName(v.s).Some?
  }

  const MaxTitleLength := 255
  const MaxDescriptionLength := 5000
  const MaxCategoryLength := 100
  const MaxTags := 50
  const MaxTagLength := 50
  const MaxPageSize := 100

  // ---------------------------------------------------------------------
  // Field checks, in the order zod runs them

  function IssuesOf<T>(r: Result<T, seq<Issue>>): seq<Issue> {
    if r.Err? then r.error else []
  }

  predicate AllAbout(issues: seq<Issue>, k: Key) {
    forall i :: 0 <= i < |issues| ==> issues[i].key == k
  }

  /** `z.string().min(min).max(max)`; `minMessage` replaces the message of
      the `min` check when the schema gives one. */
  function CheckString(k: Key, v: Json, min: nat, max: nat, minMessage: Option<string>): (r: Result<string, seq<Issue>>)
    ensures r.Ok? <==> TextWithin(v, min, max)
    ensures r.Ok? ==> r.value == v.s
    ensures r.Err? ==> |r.error| > 0 && AllAbout(r.error, k)
  {
    match v
    case Undefined => Err([Issue(k, Required)])
    case JString(s) =>
      var n := Utf16Length(s);
      var tooShort := if n < min then [Issue(k, if minMessage.Some? then Custom(minMessage.value) else TooSmall(StringLength, min))] else [];
      var tooLong := if n > max then [Issue(k, TooBig(StringLength, max))] else [];
      if tooShort + tooLong == [] then Ok(s) else Err(tooShort + tooLong)
    case _ => Err([Issue(k, InvalidType("string", TypeName(v)))])
  }

  /** `z.string()` with no bounds. */
  function CheckText(k: Key, v: Json): (r: Result<string, seq<Issue>>)
    ensures r.Ok? <==> v.JString?
    ensures r.Ok? ==> r.value == v.s
    ensures r.Err? ==> |r.error| > 0 && AllAbout(r.error, k)
  {
    match v
    case Undefined => Err([Issue(k, Required)])
    case JString(s) => Ok(s)
    case _ => Err([Issue(k, InvalidType("string", TypeName(v)))])
  }

  /** `z.string().max(max).nullable().optional()`. */
  function CheckOptionalText(k: Key, v: Json, max: nat): (r: Result<Maybe<string>, seq<Issue>>)
    ensures r.Ok? <==> OptionalText(v, max)
    ensures r.Ok? ==> r.value == (if v == Undefined then Absent else if v == JNull then Null else Present(v.s))
    ensures r.Err? ==> |r.error| > 0 && AllAbout(r.error, k)
  {
    if v == Undefined then Ok(Absent)
    else if v == JNull then Ok(Null)
    else
      match CheckString(k, v, 0, max, None)
      case Ok(s) => Ok(Present(s))
      case Err(e) => Err(e)
  }

  /** A coerced number with an optional `.int()`, then `.min(min)` and an
      optional `.max(max)`. NaN fails the type check and nothing else runs. */
  function CheckNumber(k: Key, n: Num, integer: bool, min: int, max: Option<int>, minMessage: Option<string>): (r: Result<real, seq<Issue>>)
    ensures r.Ok? <==> n.Finite? && (integer ==> IsWhole(n.value)) && n.value >= min as real && (max.Some? ==> n.value <= max.value as real)
    ensures r.Ok? ==> r.value == n.value
    ensures r.Err? ==> |r.error| > 0 && AllAbout(r.error, k)
  {
    match n
    case NaN => Err([Issue(k, InvalidType("number", "nan"))])
    case Finite(x) =>
      var notInt := if integer && !IsWhole(x) then [Issue(k, NotInteger)] else [];
      var tooSmall := if x < min as real then [Issue(k, if minMessage.Some? then Custom(minMessage.value) else TooSmall(NumberValue, min))] else [];
      var tooBig := if max.Some? && x > max.value as real then [Issue(k, TooBig(NumberValue, max.value))] else [];
      if notInt + tooSmall + tooBig == [] then Ok(x) else Err(notInt + tooSmall + tooBig)
  }

  /** The element checks of the tags array, element by element. */
  function CheckTagElements(es: seq<Json>): (r: Result<seq<string>, seq<Issue>>)
    ensures r.Ok? <==> forall i :: 0 <= i < |es| ==> TextWithin(es[i], 1, MaxTagLength)
    ensures r.Ok? ==> |r.value| == |es| && forall i :: 0 <= i < |es| ==> r.value[i] == es[i].s
    ensures r.Err? ==> |r.error| > 0 && AllAbout(r.error, Tags)
  {
    if es == [] then Ok([])
    else
      var first := CheckString(Tags, es[0], 1, MaxTagLength, None);
      var rest := CheckTagElements(es[1..]);
      if first.Ok? && rest.Ok? then Ok([first.value] + rest.value)
      else Err(IssuesOf(first) + IssuesOf(rest))
  }

  /** The strings of an array whose elements are all strings. */
  function TagTexts(es: seq<Json>): seq<string>
    requires forall i :: 0 <= i < |es| ==> es[i].JString?
  {
    seq(|es|, i requires 0 <= i < |es| => es[i].s)
  }

  /** The tags schema: the array's own size check runs before its elements. */
  function CheckTags(v: Json): (r: Result<Maybe<seq<string>>, seq<Issue>>)
    ensures r.Ok? <==> TagsAcceptable(v)
    ensures r.Ok? && v == Undefined ==> r.value == Absent
    ensures r.Ok? && v == JNull ==> r.value == Null
    ensures r.Ok? && v.JArray? ==> r.value == Present(TagTexts(v.elems))
    ensures r.Err? ==> |r.error| > 0 && AllAbout(r.error, Tags)
  {
    match v
    case Undefined => Ok(Absent)
    case JNull => Ok(Null)
    case JArray(es) =>
      var tooMany := if |es| > MaxTags then [Issue(Tags, TooBig(ArrayLength, MaxTags))] else [];
      var elems := CheckTagElements(es);
      if tooMany == [] && elems.Ok? then
        assert elems.value == TagTexts(es);
        Ok(Present(elems.value))
      else Err(tooMany + IssuesOf(elems))
    case _ => Err([Issue(Tags, InvalidType("array", TypeName(v)))])
  }

  /** `z.enum(["active", "inactive"])`. */
  function CheckStatus(k: Key, v: Json): (r: Result<ItemStatus, seq<Issue>>)
    ensures r.Ok? <==> StatusAcceptable(v)
    ensures r.Ok? ==> StatusName(r.value) == v.s
    ensures r.Err? ==> |r.error| > 0 && AllAbout(r.error, k)
  {
    match v
    case Undefined => Err([Issue(k, Required)])
    case JString(s) =>
      if StatusOfName(s).Some? then Ok(StatusOfName(s).value) else Err([Issue(k, InvalidEnum(s))])
    case _ => Err([Issue(k, InvalidType("'active' | 'inactive'", TypeName(v)))])
  }

  // ---------------------------------------------------------------------
  // The item create schema

  /** A request body, reduced to the keys the item schemas read; any other
      key is stripped by zod and never reaches the service. */
  datatype ItemBody = ItemBody(title: Json, description: Json, category: Json, price: Json, quantity: Json, tags: Json, status: Json)

  /** The output of the create schema. */
  datatype CreateInput = CreateInput(
    title: string,
    description: Maybe<string>,
    category: Maybe<string>,
    price: real,
    quantity: int,
    tags: Maybe<seq<string>>,
    status: ItemStatus)

  /** The bounds of the create schema. */
  predicate CreateAcceptable(body: ItemBody, toNumber: Json -> Num) {
    && TextWithin(body.title, 1, MaxTitleLength)
    && OptionalText(body.description, MaxDescriptionLength)
    && OptionalText(body.category, MaxCategoryLength)
    && NumberAtLeast(toNumber(body.price), 0)
    && (body.quantity == Undefined || WholeNumberWithin(toNumber(body.quantity), 0, None))
    && TagsAcceptable(body.tags)
    && (body.status == Undefined || StatusAcceptable(body.status))
  }

  /** What an absent, null or string field becomes. */
  function MaybeText(v: Json): Maybe<string>
    requires v == Undefined || v == JNull || v.JString?
  {
    if v == Undefined then Absent else if v == JNull then Null else Present(v.s)
  }

  function MaybeTags(v: Json): Maybe<seq<string>>
    requires TagsAcceptable(v)
  {
    if v == Undefined then Absent else if v == JNull then Null else Present(TagTexts(v.elems))
  }

  /** The accepted create input, stated directly on the body: the values
      sent, with quantity defaulting to 0 and status to "active". */
  function NormalizeCreate(body: ItemBody, toNumber: Json -> Num): CreateInput
    requires CreateAcceptable(body, toNumber)
  {
    CreateInput(
      body.title.s,
      MaybeText(body.description),
      MaybeText(body.category),
      toNumber(body.price).value,
      if body.quantity == Undefined then 0 else toNumber(body.quantity).value.Floor,
      MaybeTags(body.tags),
      if body.status == Undefined then Active else StatusOfName(body.status.s).value)
  }

  /** `itemCreateSchema.parse(body)`. */
  function ParseCreate(body: ItemBody, toNumber: Json -> Num): (r: Result<CreateInput, seq<Issue>>)
    ensures r.Ok? <==> CreateAcceptable(body, toNumber)
    ensures r.Err? ==> |r.error| > 0
    ensures r.Ok? ==> r.value == NormalizeCreate(body, toNumber)
  {
    var title := CheckString(Title, body.title, 1, MaxTitleLength, None);
    var description := CheckOptionalText(Description, body.description, MaxDescriptionLength);
    var category := CheckOptionalText(Category, body.category, MaxCategoryLength);
    var price := CheckNumber(Price, toNumber(body.price), false, 0, None, None);
    var quantity := if body.quantity == Undefined then Ok(0.0) else CheckNumber(Quantity, toNumber(body.quantity), true, 0, None, None);
    var tags := CheckTags(body.tags);
    var status := if body.status == Undefined then Ok(Active) else CheckStatus(Status, body.status);
    var issues := IssuesOf(title) + IssuesOf(description) + IssuesOf(category) + IssuesOf(price)
      + IssuesOf(quantity) + IssuesOf(tags) + IssuesOf(status);
    if title.Ok? && description.Ok? && category.Ok? && price.Ok? && quantity.Ok? && tags.Ok? && status.Ok? then
      Ok(CreateInput(title.value, description.value, category.value, price.value,
        quantity.value.Floor, tags.value, status.value))
    else
      Err(issues)
  }

  // ---------------------------------------------------------------------
  // The item update schema

  /** The output of the update schema: every field optional, no defaults. */
  datatype UpdateInput = UpdateInput(
    title: Option<string>,
    description: Maybe<string>,
    category: Maybe<string>,
    price: Option<real>,
    quantity: Option<int>,
    tags: Maybe<seq<string>>,
    status: Option<ItemStatus>)

  /** The bounds of the update schema: those of the create schema, each
      field optional. */
  predicate UpdateAcceptable(body: ItemBody, toNumber: Json -> Num) {
    && (body.title == Undefined || TextWithin(body.title, 1, MaxTitleLength))
    && OptionalText(body.description, MaxDescriptionLength)
    && OptionalText(body.category, MaxCategoryLength)
    && (body.price == Undefined || NumberAtLeast(toNumber(body.price), 0))
    && (body.quantity == Undefined || WholeNumberWithin(toNumber(body.quantity), 0, None))
    && TagsAcceptable(body.tags)
    && (body.status == Undefined || StatusAcceptable(body.status))
  }

  /** A field of an update is present exactly when the client sent it. */
  predicate SuppliedExactly(body: ItemBody, d: UpdateInput) {
    && (d.title.Some? <==> body.title != Undefined)
    && (!d.description.Absent? <==> body.description != Undefined)
    && (!d.category.Absent? <==> body.category != Undefined)
    && (d.price.Some? <==> body.price != Undefined)
    && (d.quantity.Some? <==> body.quantity != Undefined)
    && (!d.tags.Absent? <==> body.tags != Undefined)
    && (d.status.Some? <==> body.status != Undefined)
  }

  function Optional<T>(v: Json, check: Result<T, seq<Issue>>): Result<Option<T>, seq<Issue>> {
    if v == Undefined then Ok(None)
    else if check.Ok? then Ok(Some(check.value))
    else Err(check.error)
  }

  /** The accepted update input, stated directly on the body: exactly the
      fields sent, nothing filled in. */
  function NormalizeUpdate(body: ItemBody, toNumber: Json -> Num): UpdateInput
    requires UpdateAcceptable(body, toNumber)
  {
    UpdateInput(
      if body.title == Undefined then None else Some(body.title.s),
      MaybeText(body.description),
      MaybeText(body.category),
      if body.price == Undefined then None else Some(toNumber(body.price).value),
      if body.quantity == Undefined then None else Some(toNumber(body.quantity).value.Floor),
      MaybeTags(body.tags),
      if body.status == Undefined then None else StatusOfName(body.status.s))
  }

  /** An accepted update holds only the keys the client supplied. */
  lemma UpdateHoldsOnlySuppliedKeys(body: ItemBody, toNumber: Json -> Num)
    requires UpdateAcceptable(body, toNumber)
    ensures SuppliedExactly(body, NormalizeUpdate(body, toNumber))
  {
  }

  /** `itemUpdateSchema.parse(body)`. */
  function ParseUpdate(body: ItemBody, toNumber: Json -> Num): (r: Result<UpdateInput, seq<Issue>>)
    ensures r.Ok? <==> UpdateAcceptable(body, toNumber)
    ensures r.Err? ==> |r.error| > 0
    ensures r.Ok? ==> r.value == NormalizeUpdate(body, toNumber)
  {
    var title := Optional(body.title, CheckString(Title, body.title, 1, MaxTitleLength, None));
    var description := CheckOptionalText(Description, body.description, MaxDescriptionLength);
    var category := CheckOptionalText(Category, body.category, MaxCategoryLength);
    var price := Optional(body.price, CheckNumber(Price, toNumber(body.price), false, 0, None, None));
    var quantity := Optional(body.quantity, CheckNumber(Quantity, toNumber(body.quantity), true, 0, None, None));
    var tags := CheckTags(body.tags);
    var status := Optional(body.status, CheckStatus(Status, body.status));
    var issues := IssuesOf(title) + IssuesOf(description) + IssuesOf(category) + IssuesOf(price)
      + IssuesOf(quantity) + IssuesOf(tags) + IssuesOf(status);
    if title.Ok? && description.Ok? && category.Ok? && price.Ok? && quantity.Ok? && tags.Ok? && status.Ok? then
      var q := if quantity.value.Some? then Some(quantity.value.value.Floor) else None;
      Ok(UpdateInput(title.value, description.value, category.value, price.value, q, tags.value, status.value))
    else
      Err(issues)
  }

  // ---------------------------------------------------------------------
  // The list query schema

  datatype QueryBody = QueryBody(q: Json, page: Json, pageSize: Json, status: Json, category: Json)

  /** The output of the query schema. */
  datatype ItemQuery = ItemQuery(q: Option<string>, page: int, pageSize: int, status: Option<ItemStatus>, category: Option<string>)

  predicate QueryAcceptable(query: QueryBody, toNumber: Json -> Num) {
    && (query.q == Undefined || query.q.JString?)
    && (query.page == Undefined || WholeNumberWithin(toNumber(query.page), 1, None))
    && (query.pageSize == Undefined || WholeNumberWithin(toNumber(query.pageSize), 1, Some(MaxPageSize)))
    && (query.status == Undefined || StatusAcceptable(query.status))
    && (query.category == Undefined || query.category.JString?)
  }

  /** The accepted query, stated directly on the query string: the values
      sent, with page defaulting to 1 and pageSize to 10. */
  function NormalizeQuery(query: QueryBody, toNumber: Json -> Num): ItemQuery
    requires QueryAcceptable(query, toNumber)
  {
    ItemQuery(
      if query.q == Undefined then None else Some(query.q.s),
      if query.page == Undefined then 1 else toNumber(query.page).value.Floor,
      if query.pageSize == Undefined then 10 else toNumber(query.pageSize).value.Floor,
      if query.status == Undefined then None else StatusOfName(query.status.s),
      if query.category == Undefined then None else Some(query.category.s))
  }

  /** `itemQuerySchema.parse(query)`: page defaults to 1, pageSize to 10. */
  function ParseQuery(query: QueryBody, toNumber: Json -> Num): (r: Result<ItemQuery, seq<Issue>>)
    ensures r.Ok? <==> QueryAcceptable(query, toNumber)
    ensures r.Err? ==> |r.error| > 0
    ensures r.Ok? ==> r.value == NormalizeQuery(query, toNumber)
  {
    var q := Optional(query.q, CheckText(Q, query.q));
    var page := if query.page == Undefined then Ok(1.0) else CheckNumber(Page, toNumber(query.page), true, 1, None, None);
    var pageSize := if query.pageSize == Undefined then Ok(10.0) else CheckNumber(PageSize, toNumber(query.pageSize), true, 1, Some(MaxPageSize), None);
    var status := Optional(query.status, CheckStatus(Status, query.status));
    var category := Optional(query.category, CheckText(Category, query.category));
    var issues := IssuesOf(q) + IssuesOf(page) + IssuesOf(pageSize) + IssuesOf(status) + IssuesOf(category);
    if q.Ok? && page.Ok? && pageSize.Ok? && status.Ok? && category.Ok? then
      Ok(ItemQuery(q.value, page.value.Floor, pageSize.value.Floor, status.value, category.value))
    else
      Err(issues)
  }

  /** An accepted query carries the page, the page size, the search text,
      the status and the category that were sent, and the defaults for
      those that were not; page and page size are within their bounds. */
  lemma QueryCarriesSentValues(query: QueryBody, toNumber: Json -> Num)
    requires QueryAcceptable(query, toNumber)
    ensures var d := NormalizeQuery(query, toNumber);
      && 1 <= d.page && 1 <= d.pageSize <= MaxPageSize
      && (query.page == Undefined ==> d.page == 1)
      && (query.page != Undefined ==> toNumber(query.page) == Finite(d.page as real))
      && (query.pageSize == Undefined ==> d.pageSize == 10)
      && (query.pageSize != Undefined ==> toNumber(query.pageSize) == Finite(d.pageSize as real))
      && (d.q.Some? <==> query.q != Undefined)
      && (d.q.Some? ==> d.q.value == query.q.s)
      && (d.category.Some? <==> query.category != Undefined)
      && (d.category.Some? ==> d.category.value == query.category.s)
      && (d.status.Some? <==> query.status != Undefined)
      && (d.status.Some? ==> StatusName(d.status.value) == query.status.s)
  {
  }

  // ---------------------------------------------------------------------
  // `error.flatten().fieldErrors`

  /** The messages of the issues about `k`, in the order zod reported them. */
  function FieldMessages(issues: seq<Issue>, k: Key): (ms: seq<string>)
    ensures |ms| <= |issues|
    ensures |ms| > 0 <==> exists i :: 0 <= i < |issues| && issues[i].key == k
  {
    if issues == [] then []
    else (if issues[0].key == k then [Message(issues[0].code)] else []) + FieldMessages(issues[1..], k)
  }

  /** `flatten().fieldErrors`: for every key that has issues, their messages. */
  function FieldErrors(issues: seq<Issue>): map<Key, seq<string>> {
    map k | k in (set i | 0 <= i < |issues| :: issues[i].key) :: FieldMessages(issues, k)
  }
}

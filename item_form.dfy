/** The create/edit form of the frontend: the values it starts from, its own
    zod schema, the conversion of the comma-separated tags text, the payload
    it hands to `onSubmit`, and the first-message-per-field error display.
    The form values are JSON values because every edit stores the text of
    the input. */
module ItemForm {
  import opened Base
  import opened Text
  import opened ItemsSchema
  import opened ItemsApi

  // ---------------------------------------------------------------------
  // Tags text <-> list

  /** `s.trim()` on every piece. */
  function TrimAll(parts: seq<string>): (r: seq<string>)
    ensures |r| == |parts|
    ensures forall i :: 0 <= i < |r| ==> r[i] == Trim(parts[i])
  {
    if parts == [] then [] else [Trim(parts[0])] + TrimAll(parts[1..])
  }

  /** `.filter(Boolean)` on strings: the non-empty ones, in order. */
  function DropEmpty(parts: seq<string>): (r: seq<string>)
    ensures |r| <= |parts|
    ensures forall s :: s in r <==> s in parts && s != ""
  {
    if parts == [] then []
    else (if parts[0] == "" then [] else [parts[0]]) + DropEmpty(parts[1..])
  }

  lemma {:induction false} DropEmptyKeepsAll(parts: seq<string>)
    requires forall i :: 0 <= i < |parts| ==> parts[i] != ""
    ensures DropEmpty(parts) == parts
  {
    if parts != [] {
      DropEmptyKeepsAll(parts[1..]);
    }
  }

  /** Filtering a concatenation filters each part. */
  lemma {:induction false} DropEmptyAppend(a: seq<string>, b: seq<string>)
    ensures DropEmpty(a + b) == DropEmpty(a) + DropEmpty(b)
    decreases |a|
  {
    if a == [] {
      assert a + b == b;
    } else {
      assert (a + b)[0] == a[0];
      assert (a + b)[1..] == a[1..] + b;
      DropEmptyAppend(a[1..], b);
    }
  }

  /** One piece survives the filter exactly when it is non-empty. */
  lemma DropEmptySingle(p: string)
    ensures DropEmpty([p]) == if p == "" then [] else [p]
  {
    assert [p][1..] == [];
  }

  /** Tags as a list that the tags text can hold unchanged: each one is
      non-empty, has no white space at either end and no comma. */
  predicate TagsClean(tags: seq<string>) {
    forall i :: 0 <= i < |tags| ==> tags[i] != "" && IsTrimmed(tags[i]) && ',' !in tags[i]
  }

  /** `text.split(",").map((s) => s.trim()).filter(Boolean)`. */
  function SplitTags(text: string): (r: seq<string>)
    ensures TagsClean(r)
    ensures |r| <= |Split(text, ',')|
  {
    var pieces := Split(text, ',');
    var r := DropEmpty(TrimAll(pieces));
    forall i | 0 <= i < |r|
      ensures r[i] != "" && IsTrimmed(r[i]) && ',' !in r[i]
    {
      assert r[i] in TrimAll(pieces);
      var j :| 0 <= j < |pieces| && TrimAll(pieces)[j] == r[i];
      assert ',' !in pieces[j];
      TrimKeeps(pieces[j], ',');
    }
    r
  }

  lemma SplitTagsIs(text: string)
    ensures SplitTags(text) == DropEmpty(TrimAll(Split(text, ',')))
  {
  }

  lemma {:induction false} TrimAllAppend(a: seq<string>, b: seq<string>)
    ensures TrimAll(a + b) == TrimAll(a) + TrimAll(b)
    decreases |a|
  {
    if a == [] {
      assert a + b == b;
    } else {
      assert (a + b)[0] == a[0];
      assert (a + b)[1..] == a[1..] + b;
      TrimAllAppend(a[1..], b);
    }
  }

  /** The tags of a text are those of the text before a comma followed by
      those of the text after it. */
  lemma SplitTagsAppend(a: string, b: string)
    ensures SplitTags(a + "," + b) == SplitTags(a) + SplitTags(b)
  {
    var pa, pb := Split(a, ','), Split(b, ',');
    assert a + "," + b == a + [','] + b;
    SplitAppend(a, b, ',');
    TrimAllAppend(pa, pb);
    DropEmptyAppend(TrimAll(pa), TrimAll(pb));
    SplitTagsIs(a + "," + b);
    SplitTagsIs(a);
    SplitTagsIs(b);
  }

  /** A text without a comma holds one tag, its trimmed self, unless it is
      blank. */
  lemma SplitTagsPiece(t: string)
    requires ',' !in t
    ensures SplitTags(t) == if Trim(t) == "" then [] else [Trim(t)]
  {
    assert Split(t, ',') == [t];
    assert TrimAll([t]) == [Trim(t)];
    DropEmptySingle(Trim(t));
  }

  /** Comma-separated pieces give their trimmed non-blank selves, in
      order. */
  lemma SplitTagsOfPieces(pieces: seq<string>)
    requires |pieces| >= 1
    requires forall i :: 0 <= i < |pieces| ==> ',' !in pieces[i]
    ensures SplitTags(Join(pieces, ",")) == DropEmpty(TrimAll(pieces))
  {
    SplitJoin(pieces, ',');
  }

  /** A blank piece between two commas gives no tag: "a, ,b" holds the
      tags "a" and "b". */
  lemma BlankPieceDropped(x: string, y: string)
    requires x != "" && IsTrimmed(x) && ',' !in x
    requires y != "" && IsTrimmed(y) && ',' !in y
    ensures SplitTags(x + ", ," + y) == [x, y]
  {
    var rest := " " + "," + y;
    assert SplitTags(rest) == [y] by {
      CleanPiece(y);
      BlankPiece();
      SplitTagsAppend(" ", y);
    }
    CleanPiece(x);
    SplitTagsAppend(x, rest);
    Regroup(x, y);
  }

  lemma CleanPiece(x: string)
    requires x != "" && IsTrimmed(x) && ',' !in x
    ensures SplitTags(x) == [x]
  {
    SplitTagsPiece(x);
    TrimmedIsFixed(x);
  }

  lemma BlankPiece()
    ensures SplitTags(" ") == []
  {
    SplitTagsPiece(" ");
    assert AllSpace(" ");
  }

  lemma Regroup(x: string, y: string)
    ensures x + ", ," + y == x + "," + (" " + "," + y)
  {
    assert ", ," == "," + " " + ",";
  }

  /** The tags of the payload: a falsy (missing or empty) tags text gives
      null, any other text the cleaned pieces. */
  function TagsPayload(tags: Option<string>): (r: Option<seq<string>>)
    ensures r.Some? <==> tags.Some? && tags.value != ""
    ensures r.Some? ==> TagsClean(r.value) && r.value == SplitTags(tags.value)
  {
    if tags.Some? && tags.value != "" then Some(SplitTags(tags.value)) else None
  }

  /** The tags text the form starts from: the list joined with ", " when the
      item has one, otherwise "". */
  function InitialTagsText(tags: Maybe<seq<string>>): string {
    if tags.Present? then Join(tags.value, ", ") else ""
  }

  /** Every piece but the first, after a ", " join, starts with the space. */
  function Spaced(tags: seq<string>): (r: seq<string>)
    ensures |r| == |tags|
    ensures forall i :: 0 <= i < |r| ==> r[i] == " " + tags[i]
  {
    if tags == [] then [] else [" " + tags[0]] + Spaced(tags[1..])
  }

  lemma JoinPrefixFirst(a: string, x: string, more: seq<string>, sep: string)
    ensures Join([a + x] + more, sep) == a + Join([x] + more, sep)
  {
    if more != [] {
      assert ([a + x] + more)[1..] == more;
      assert ([x] + more)[1..] == more;
    }
  }

  /** Joining with ", " is joining with "," after putting the space in
      front of every piece but the first. */
  lemma {:induction false} JoinSpaced(first: string, rest: seq<string>)
    ensures Join([first] + rest, ", ") == Join([first] + Spaced(rest), ",")
    decreases |rest|
  {
    if rest != [] {
      var tail := Join([rest[0]] + Spaced(rest[1..]), ",");
      JoinSpaced(rest[0], rest[1..]);
      assert [rest[0]] + rest[1..] == rest;
      assert Join(rest, ", ") == tail;
      JoinPrefixFirst(" ", rest[0], Spaced(rest[1..]), ",");
      assert Spaced(rest) == [" " + rest[0]] + Spaced(rest[1..]);
      assert Join(Spaced(rest), ",") == " " + tail;
      assert ([first] + rest)[1..] == rest;
      assert ([first] + Spaced(rest))[1..] == Spaced(rest);
      assert Join([first] + Spaced(rest), ",") == first + "," + (" " + tail);
      assert first + "," + (" " + tail) == first + ", " + tail;
    }
  }

  /** The pieces of a ", "-joined list, split on ",": the first tag, then
      every other one behind its space. */
  lemma SplitJoined(tags: seq<string>)
    requires |tags| > 0 && TagsClean(tags)
    ensures Split(Join(tags, ", "), ',') == [tags[0]] + Spaced(tags[1..])
  {
    var padded := [tags[0]] + Spaced(tags[1..]);
    JoinSpaced(tags[0], tags[1..]);
    assert [tags[0]] + tags[1..] == tags;
    forall i | 0 <= i < |padded|
      ensures ',' !in padded[i]
    {
      if i > 0 {
        assert padded[i] == " " + tags[i];
      }
    }
    SplitJoin(padded, ',');
  }

  /** Trimming the pieces gives the tags back. */
  lemma TrimSpaced(tags: seq<string>)
    requires |tags| > 0 && TagsClean(tags)
    ensures TrimAll([tags[0]] + Spaced(tags[1..])) == tags
  {
    var padded := [tags[0]] + Spaced(tags[1..]);
    var trimmed := TrimAll(padded);
    forall i | 0 <= i < |padded|
      ensures trimmed[i] == tags[i]
    {
      if i == 0 {
        TrimmedIsFixed(tags[0]);
      } else {
        assert padded[i] == Spaced(tags[1..])[i - 1] == " " + tags[i];
        TrimSpacedTag(tags[i]);
      }
    }
    assert |trimmed| == |tags|;
  }

  /** One piece behind its space trims back to the tag. */
  lemma TrimSpacedTag(tag: string)
    requires IsTrimmed(tag)
    ensures Trim(" " + tag) == tag
  {
    assert Trim(" " + tag) == Trim(tag) by {
      assert AllSpace(" ") by {
        assert " "[0] == ' ';
      }
      TrimAfterSpace(" ", tag);
    }
    TrimmedIsFixed(tag);
  }

  /** A clean tags list survives the trip through the form's text field:
      joined with ", " when the form opens and split, trimmed and filtered
      when it is submitted. An empty list comes back as null, because its
      text "" is falsy. */
  lemma TagsRoundTrip(tags: seq<string>)
    requires TagsClean(tags)
    ensures TagsPayload(Some(Join(tags, ", "))) == if tags == [] then None else Some(tags)
  {
    if tags != [] {
      var text := Join(tags, ", ");
      SplitJoined(tags);
      TrimSpaced(tags);
      DropEmptyKeepsAll(tags);
      assert DropEmpty(TrimAll(Split(text, ','))) == tags;
      assert SplitTags(text) == tags;
      assert text != "" by {
        if |tags| > 1 {
          assert text == tags[0] + ", " + Join(tags[1..], ", ");
        }
      }
    }
  }

  /** A tags text of blanks without a comma is truthy, so it gives an empty
      list rather than null. */
  lemma BlankTagsGiveEmptyList(text: string)
    requires text != "" && AllSpace(text) && ',' !in text
    ensures TagsPayload(Some(text)) == Some([])
  {
    assert Split(text, ',') == [text];
    assert Trim(text) == "";
    assert TrimAll([text]) == [""];
  }

  // ---------------------------------------------------------------------
  // Initial values

  /** `x ?? ""` on a nullable, optional text. */
  function TextOrEmpty(m: Maybe<string>): string {
    if m.Present? then m.value else ""
  }

  /** The values the form starts from, for a new item (`None`) or for the
      item being edited. */
  function InitialValues(initial: Option<FrontItem>): (v: ItemBody)
    ensures v.title.JString? && v.description.JString? && v.category.JString?
    ensures v.price.JNumber? && v.quantity.JNumber? && v.tags.JString? && v.status.JString?
    ensures initial.None? ==> v == ItemBody(JString(""), JString(""), JString(""), JNumber(0.0),
      JNumber(0.0), JString(""), JString("active"))
    ensures initial.Some? ==>
      var item := initial.value;
      && v.title == JString(item.title)
      && v.description == JString(TextOrEmpty(item.description))
      && v.category == JString(TextOrEmpty(item.category))
      && v.price == JNumber(item.price)
      && v.quantity == JNumber(item.quantity as real)
      && (item.tags.Present? ==> v.tags == JString(Join(item.tags.value, ", ")))
      && (!item.tags.Present? ==> v.tags == JString(""))
      && v.status == JString(StatusName(item.status))
  {
    match initial
    case None =>
      ItemBody(JString(""), JString(""), JString(""), JNumber(0.0), JNumber(0.0), JString(""), JString("active"))
    case Some(item) =>
      ItemBody(
        JString(item.title),
        JString(TextOrEmpty(item.description)),
        JString(TextOrEmpty(item.category)),
        JNumber(item.price),
        JNumber(item.quantity as real),
        JString(InitialTagsText(item.tags)),
        JString(StatusName(item.status)))
  }

  // ---------------------------------------------------------------------
  // The form's schema

  const TitleRequired := "Title is required"
  const PriceNegative := "Price must be >= 0"

  /** What the form schema yields: tags stay one text. */
  datatype FormData = FormData(
    title: string,
    description: Maybe<string>,
    category: Maybe<string>,
    price: real,
    quantity: int,
    tags: Option<string>,
    status: ItemStatus)

  /** The form schema as bounds: the create schema's bounds on every field
      but the tags, which are one optional string. */
  predicate FormAcceptable(values: ItemBody, toNumber: Json -> Num) {
    && TextWithin(values.title, 1, MaxTitleLength)
    && OptionalText(values.description, MaxDescriptionLength)
    && OptionalText(values.category, MaxCategoryLength)
    && NumberAtLeast(toNumber(values.price), 0)
    && (values.quantity == Undefined || WholeNumberWithin(toNumber(values.quantity), 0, None))
    && (values.tags == Undefined || values.tags.JString?)
    && (values.status == Undefined || StatusAcceptable(values.status))
  }

  function NormalizeForm(values: ItemBody, toNumber: Json -> Num): FormData
    requires FormAcceptable(values, toNumber)
  {
    FormData(
      values.title.s,
      MaybeText(values.description),
      MaybeText(values.category),
      toNumber(values.price).value,
      if values.quantity == Undefined then 0 else toNumber(values.quantity).value.Floor,
      if values.tags == Undefined then None else Some(values.tags.s),
      if values.status == Undefined then Active else StatusOfName(values.status.s).value)
  }

  /** `formSchema.safeParse(values)`. */
  function ParseForm(values: ItemBody, toNumber: Json -> Num): (r: Result<FormData, seq<Issue>>)
    ensures r.Ok? <==> FormAcceptable(values, toNumber)
    ensures r.Err? ==> |r.error| > 0
    ensures r.Ok? ==> r.value == NormalizeForm(values, toNumber)
  {
    var title := CheckString(Title, values.title, 1, MaxTitleLength, Some(TitleRequired));
    var description := CheckOptionalText(Description, values.description, MaxDescriptionLength);
    var category := CheckOptionalText(Category, values.category, MaxCategoryLength);
    var price := CheckNumber(Price, toNumber(values.price), false, 0, None, Some(PriceNegative));
    var quantity := if values.quantity == Undefined then Ok(0.0)
      else CheckNumber(Quantity, toNumber(values.quantity), true, 0, None, None);
    var tags := Optional(values.tags, CheckText(Tags, values.tags));
    var status := if values.status == Undefined then Ok(Active) else CheckStatus(Status, values.status);
    var issues := IssuesOf(title) + IssuesOf(description) + IssuesOf(category) + IssuesOf(price)
      + IssuesOf(quantity) + IssuesOf(tags) + IssuesOf(status);
    if title.Ok? && description.Ok? && category.Ok? && price.Ok? && quantity.Ok? && tags.Ok? && status.Ok? then
      Ok(FormData(title.value, description.value, category.value, price.value,
        quantity.value.Floor, tags.value, status.value))
    else
      Err(issues)
  }

  /** A new form fails on the title alone, with the form's own message. */
  lemma EmptyFormNeedsTitle(toNumber: Json -> Num)
    requires NumberRules(toNumber)
    ensures ParseForm(InitialValues(None), toNumber) == Err([Issue(Title, Custom(TitleRequired))])
    ensures FieldErrors([Issue(Title, Custom(TitleRequired))]) == map[Title := [TitleRequired]]
  {
    var values := InitialValues(None);
    assert toNumber(JNumber(0.0)) == Finite(0.0);
    assert Utf16Length("") == 0;
    var issues := [Issue(Title, Custom(TitleRequired))];
    assert values.title == JString("");
    assert Utf16Length(values.title.s) == 0;
    assert issues + [] == issues;
    assert CheckString(Title, values.title, 1, MaxTitleLength, Some(TitleRequired)) == Err(issues);
    assert CheckOptionalText(Description, values.description, MaxDescriptionLength) == Ok(Present(""));
    assert CheckOptionalText(Category, values.category, MaxCategoryLength) == Ok(Present(""));
    assert CheckNumber(Price, toNumber(values.price), false, 0, None, Some(PriceNegative)) == Ok(0.0);
    assert CheckNumber(Quantity, toNumber(values.quantity), true, 0, None, None) == Ok(0.0);
    assert CheckStatus(Status, values.status) == Ok(Active);
    assert issues + [] + [] + [] + [] + [] + [] == issues;
    var keys := set i | 0 <= i < |issues| :: issues[i].key;
    assert issues[0].key == Title;
    assert Title in keys;
    assert keys == {Title};
    assert FieldMessages(issues, Title) == [TitleRequired] + FieldMessages([], Title);
    var fe := FieldErrors(issues);
    assert fe.Keys == {Title};
    assert fe[Title] == [TitleRequired];
    assert fe == map[Title := [TitleRequired]];
  }

  // ---------------------------------------------------------------------
  // The payload

  /** What `handleSubmit` passes to `onSubmit`. */
  datatype Payload = Payload(
    title: string,
    description: Option<string>,
    category: Option<string>,
    price: real,
    quantity: int,
    tags: Option<seq<string>>,
    status: ItemStatus)

  /** Missing or null description and category become null, any text
      (even "") is kept; the tags text becomes a list or null. */
  function MakePayload(d: FormData): (p: Payload)
    ensures p.title == d.title && p.price == d.price && p.quantity == d.quantity && p.status == d.status
    ensures p.description.None? <==> !d.description.Present?
    ensures d.description.Present? ==> p.description == Some(d.description.value)
    ensures p.category.None? <==> !d.category.Present?
    ensures d.category.Present? ==> p.category == Some(d.category.value)
    ensures p.tags == TagsPayload(d.tags)
  {
    Payload(d.title, OrNull(d.description), OrNull(d.category), d.price, d.quantity, TagsPayload(d.tags), d.status)
  }

  /** The payload as the JSON body the server parses. */
  function PayloadBody(p: Payload): ItemBody {
    ItemBody(
      JString(p.title),
      if p.description.Some? then JString(p.description.value) else JNull,
      if p.category.Some? then JString(p.category.value) else JNull,
      JNumber(p.price),
      JNumber(p.quantity as real),
      if p.tags.Some? then TagsJson(p.tags.value) else JNull,
      JString(StatusName(p.status)))
  }

  /** The server's bounds on tags, which the form does not check. */
  predicate TagsFitServer(tags: seq<string>) {
    |tags| <= MaxTags && forall i :: 0 <= i < |tags| ==> Utf16Length(tags[i]) <= MaxTagLength
  }

  /** The tags of a payload as the JSON array the server parses. */
  function TagsJson(tags: seq<string>): (v: Json)
    ensures v.JArray? && |v.elems| == |tags|
    ensures forall i :: 0 <= i < |tags| ==> v.elems[i] == JString(tags[i])
  {
    JArray(seq(|tags|, i requires 0 <= i < |tags| => JString(tags[i])))
  }

  lemma CleanTagsFitServer(tags: seq<string>)
    requires TagsClean(tags)
    ensures TagsAcceptable(TagsJson(tags)) <==> TagsFitServer(tags)
    ensures TagsFitServer(tags) ==> TagTexts(TagsJson(tags).elems) == tags
  {
    forall i | 0 <= i < |tags|
      ensures Utf16Length(tags[i]) >= 1
    {
      assert tags[i] != "";
    }
  }

  /** A payload built from values the form accepts passes the server's
      create schema exactly when its tags are within the server's bounds,
      and the server reads back every field the form sent. */
  lemma PayloadMeetsCreateSchema(values: ItemBody, toNumber: Json -> Num)
    requires NumberRules(toNumber)
    requires FormAcceptable(values, toNumber)
    ensures var p := MakePayload(NormalizeForm(values, toNumber));
      && (ParseCreate(PayloadBody(p), toNumber).Ok? <==> p.tags.None? || TagsFitServer(p.tags.value))
      && (ParseCreate(PayloadBody(p), toNumber).Ok? ==>
           var c := ParseCreate(PayloadBody(p), toNumber).value;
           && c.title == p.title && c.price == p.price && c.quantity == p.quantity && c.status == p.status
           && OrNull(c.description) == p.description && OrNull(c.category) == p.category
           && OrNull(c.tags) == p.tags)
  {
    var p := MakePayload(NormalizeForm(values, toNumber));
    var body := PayloadBody(p);
    assert p.title == values.title.s;
    assert TextWithin(body.title, 1, MaxTitleLength);
    assert OptionalText(body.description, MaxDescriptionLength);
    assert OptionalText(body.category, MaxCategoryLength);
    assert toNumber(body.price) == Finite(p.price);
    assert NumberAtLeast(toNumber(body.price), 0);
    assert toNumber(body.quantity) == Finite(p.quantity as real);
    assert WholeNumberWithin(toNumber(body.quantity), 0, None);
    StatusNameRoundTrip(p.status);
    assert StatusAcceptable(body.status);
    if p.tags.Some? {
      assert body.tags == TagsJson(p.tags.value);
      CleanTagsFitServer(p.tags.value);
    }
    assert CreateAcceptable(body, toNumber) <==> p.tags.None? || TagsFitServer(p.tags.value);
  }

  /** An item the form can hold unchanged: the bounds the form checks, and
      clean tags. */
  predicate FitsForm(item: FrontItem) {
    && 1 <= Utf16Length(item.title) <= MaxTitleLength
    && (item.description.Present? ==> Utf16Length(item.description.value) <= MaxDescriptionLength)
    && (item.category.Present? ==> Utf16Length(item.category.value) <= MaxCategoryLength)
    && item.price >= 0.0
    && item.quantity >= 0
    && (item.tags.Present? ==> TagsClean(item.tags.value))
  }

  /** Saving an edit form without touching it sends the item back, except
      that a null description or category is sent as "" and null or empty
      tags are sent as null. */
  lemma UntouchedEditSendsItem(item: FrontItem, toNumber: Json -> Num)
    requires NumberRules(toNumber)
    requires FitsForm(item)
    ensures var values := InitialValues(Some(item));
      && FormAcceptable(values, toNumber)
      && MakePayload(NormalizeForm(values, toNumber)) == Payload(
           item.title,
           Some(TextOrEmpty(item.description)),
           Some(TextOrEmpty(item.category)),
           item.price,
           item.quantity,
           if item.tags.Present? && item.tags.value != [] then Some(item.tags.value) else None,
           item.status)
  {
    var values := InitialValues(Some(item));
    assert toNumber(values.price) == Finite(item.price);
    assert toNumber(values.quantity) == Finite(item.quantity as real);
    assert Utf16Length("") == 0;
    StatusNameRoundTrip(item.status);
    if item.tags.Present? {
      TagsRoundTrip(item.tags.value);
    }
  }

  // ---------------------------------------------------------------------
  // Field errors

  /** One message per field: the first, for every field that has one. */
  function FirstMessages(fieldErrors: map<Key, seq<string>>): map<Key, string> {
    map k | k in fieldErrors && |fieldErrors[k]| > 0 :: fieldErrors[k][0]
  }

  /** The loop of `handleSubmit` over `flatten().fieldErrors`. */
  method CollectFieldErrors(fieldErrors: map<Key, seq<string>>) returns (errors: map<Key, string>)
    ensures errors.Keys == set k | k in fieldErrors && |fieldErrors[k]| > 0
    ensures forall k :: k in errors ==> errors[k] == fieldErrors[k][0]
    ensures errors == FirstMessages(fieldErrors)
  {
    errors := map[];
    var remaining := fieldErrors.Keys;
    while remaining != {}
      invariant remaining <= fieldErrors.Keys
      invariant errors.Keys == set k | k in fieldErrors && k !in remaining && |fieldErrors[k]| > 0
      invariant forall k :: k in errors ==> errors[k] == fieldErrors[k][0]
      decreases remaining
    {
      var k :| k in remaining;
      var messages := fieldErrors[k];
      if |messages| > 0 {
        errors := errors[k := messages[0]];
      }
      remaining := remaining - {k};
    }
  }

  /** The position of the first issue about `k`. */
  function FirstAbout(issues: seq<Issue>, k: Key): (i: nat)
    requires exists j :: 0 <= j < |issues| && issues[j].key == k
    ensures i < |issues| && issues[i].key == k
    ensures forall j :: 0 <= j < i ==> issues[j].key != k
  {
    if issues[0].key == k then 0
    else
      assert exists j :: 0 <= j < |issues[1..]| && issues[1..][j].key == k by {
        var j :| 0 <= j < |issues| && issues[j].key == k;
        assert issues[1..][j - 1].key == k;
      }
      1 + FirstAbout(issues[1..], k)
  }

  lemma {:induction false} FirstFieldMessage(issues: seq<Issue>, k: Key)
    requires exists j :: 0 <= j < |issues| && issues[j].key == k
    ensures FieldMessages(issues, k)[0] == Message(issues[FirstAbout(issues, k)].code)
  {
    if issues[0].key != k {
      var j :| 0 <= j < |issues| && issues[j].key == k;
      assert issues[1..][j - 1].key == k;
      FirstFieldMessage(issues[1..], k);
    }
  }

  /** After a failed submit the form shows one message for every field
      that has an issue, and it is the message of that field's first
      issue. */
  lemma ErrorsShowFirstIssue(issues: seq<Issue>)
    ensures var errors := FirstMessages(FieldErrors(issues));
      && (forall k :: k in errors <==> exists i :: 0 <= i < |issues| && issues[i].key == k)
      && (forall k :: k in errors ==> errors[k] == Message(issues[FirstAbout(issues, k)].code))
  {
    var errors := FirstMessages(FieldErrors(issues));
    forall k | exists i :: 0 <= i < |issues| && issues[i].key == k
      ensures k in errors && errors[k] == Message(issues[FirstAbout(issues, k)].code)
    {
      var i := FirstAbout(issues, k);
      assert k in FieldErrors(issues);
      FirstFieldMessage(issues, k);
    }
  }

  // ---------------------------------------------------------------------
  // The component's state

  /** The value of one field of the form. */
  function FieldValue(values: ItemBody, k: Key): Json {
    match k
    case Title => values.title
    case Description => values.description
    case Category => values.category
    case Price => values.price
    case Quantity => values.quantity
    case Tags => values.tags
    case Status => values.status
    case _ => Undefined
  }

  /** `{ ...v, [name]: value }` for a field of the form. */
  function WithField(values: ItemBody, k: Key, v: Json): (r: ItemBody)
    requires IsItemKey(k)
    ensures FieldValue(r, k) == v
    ensures forall other :: other != k ==> FieldValue(r, other) == FieldValue(values, other)
  {
    match k
    case Title => values.(title := v)
    case Description => values.(description := v)
    case Category => values.(category := v)
    case Price => values.(price := v)
    case Quantity => values.(quantity := v)
    case Tags => values.(tags := v)
    case Status => values.(status := v)
  }

  /** The state of `ItemForm`: its values, the message shown under each
      field, and whether a submit is running. */
  class FormState {
    var values: ItemBody
    var errors: map<Key, string>
    var submitting: bool

    constructor (initial: Option<FrontItem>)
      ensures values == InitialValues(initial) && errors == map[] && !submitting
    {
      values := InitialValues(initial);
      errors := map[];
      submitting := false;
    }

    /** `handleChange`: the named field takes the text of its input. */
    method Change(name: Key, text: string)
      requires IsItemKey(name)
      modifies this
      ensures values == WithField(old(values), name, JString(text))
      ensures errors == old(errors) && submitting == old(submitting)
    {
      values := WithField(values, name, JString(text));
    }

    /** `handleSubmit`: on a failed parse show the first message of each
      failing field and call nothing; otherwise hand the payload to
      `onSubmit` (the returned value) with no message shown. */
    method Submit(toNumber: Json -> Num) returns (payload: Option<Payload>)
      modifies this
      ensures values == old(values) && !submitting
      ensures ParseForm(old(values), toNumber).Err? ==>
        payload.None? && errors == FirstMessages(FieldErrors(ParseForm(old(values), toNumber).error))
      ensures ParseForm(old(values), toNumber).Ok? ==>
        payload == Some(MakePayload(ParseForm(old(values), toNumber).value)) && errors == map[]
    {
      submitting := true;
      errors := map[];
      var parsed := ParseForm(values, toNumber);
      if parsed.Err? {
        var fieldErrors := CollectFieldErrors(FieldErrors(parsed.error));
        errors := fieldErrors;
        submitting := false;
        return None;
      }
      payload := Some(MakePayload(parsed.value));
      submitting := false;
    }
  }
}

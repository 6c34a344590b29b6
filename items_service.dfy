/** The items service: the parameterised SQL statements it builds (the
    INSERT of `createItem`, the dynamic SET clause of `updateItem`, the
    dynamic WHERE clause with LIMIT/OFFSET of `listItems`) and what those
    statements do to the `items` table, modelled as a class holding a map
    from id to row.

    A statement is built as a structured value (each SET fragment or filter
    records the column and the placeholder number it uses) and rendered to
    SQL text by the `...Text` functions; the values bound to the
    placeholders are `SqlValue`s. Executing a statement binds the values,
    applies Postgres' column types and constraints, and changes the map. */
module ItemsService {
  import opened Base
  import opened Text
  import opened ItemsSchema

  /** A row of `items`. Timestamps are abstract clock readings. */
  datatype Item = Item(
    id: int,
    title: string,
    description: Option<string>,
    category: Option<string>,
    price: real,
    quantity: int,
    tags: Option<seq<string>>,
    status: string,
    createdAt: int,
    updatedAt: int)

  /** A value bound to a placeholder `$n`. */
  datatype SqlValue =
    | SqlNull
    | SqlText(text: string)
    | SqlNumber(number: real)
    | SqlInteger(n: int)
    | SqlTextArray(texts: seq<string>)

  /** A column assignment: a column and the value it receives. */
  datatype Entry = Entry(key: Key, value: SqlValue)

  /** The errors Postgres raises for the statements of this service. */
  datatype DbError =
    | IntegerOutOfRange(value: int)
    | InvalidParameter(column: Key)
    | ConstraintViolation(column: Key)
    | MalformedStatement
    | NegativeLimit
    | NegativeOffset
    | BigintOutOfRange(number: int)
    | SequenceExhausted
    | TsQuerySyntax(term: string)

  function DbMessage(e: DbError): (m: string)
    ensures |m| > 0
  {
    match e
    case IntegerOutOfRange(v) => "value \"" + IntToString(v) + "\" is out of range for type integer"
    case InvalidParameter(k) => "invalid input for column \"" + KeyName(k) + "\""
    case ConstraintViolation(k) => "new row for relation \"items\" violates a constraint on column \"" + KeyName(k) + "\""
    case MalformedStatement => "bind message does not match the statement's parameters"
    case NegativeLimit => "LIMIT must not be negative"
    case NegativeOffset => "OFFSET must not be negative"
    case BigintOutOfRange(v) => "value \"" + IntToString(v) + "\" is out of range for type bigint"
    case SequenceExhausted => "nextval: reached maximum value of sequence \"items_id_seq\" (2147483647)"
    case TsQuerySyntax(t) => "syntax error in tsquery: \"" + t + "\""
  }

  // ---------------------------------------------------------------------
  // Columns: types and constraints of the `items` table

  const MinInt32 := -0x8000_0000
  const MaxInt32 := 0x7FFF_FFFF
  const MinInt64 := -0x8000_0000_0000_0000
  const MaxInt64 := 0x7FFF_FFFF_FFFF_FFFF

  /** The value can be bound to a parameter of the column's type: the right
      kind of value (null is always accepted here), and for the INT column
      `quantity` a value in the 32-bit range. Only item keys are columns. */
  predicate Binds(k: Key, v: SqlValue) {
    match k
    case Title => v.SqlNull? || v.SqlText?
    case Description => v.SqlNull? || v.SqlText?
    case Category => v.SqlNull? || v.SqlText?
    case Price => v.SqlNull? || v.SqlNumber?
    case Quantity => v.SqlNull? || (v.SqlInteger? && MinInt32 <= v.n <= MaxInt32)
    case Tags => v.SqlNull? || v.SqlTextArray?
    case Status => v.SqlNull? || v.SqlText?
    case _ => false
  }

  /** `NUMERIC(10, 2)` rounding: to two decimals, halves away from zero. */
  function Round2(v: real): (r: real)
    ensures -0.005 <= r - v <= 0.005
    ensures v >= 0.0 ==> r >= 0.0
  {
    if v >= 0.0 then ((v * 100.0 + 0.5).Floor as real) / 100.0
    else -(((-v * 100.0 + 0.5).Floor as real) / 100.0)
  }

  /** Rounding a rounded price changes nothing: what the table returns is
      stored again unchanged. */
  lemma Round2Idempotent(v: real)
    ensures Round2(Round2(v)) == Round2(v)
  {
    var r := Round2(v);
    if v >= 0.0 {
      var k := (v * 100.0 + 0.5).Floor;
      assert r == k as real / 100.0;
      FloorOfHalf(k);
      assert r * 100.0 + 0.5 == k as real + 0.5;
    } else {
      var k := (-v * 100.0 + 0.5).Floor;
      assert r == -(k as real / 100.0);
      FloorOfHalf(k);
      if k != 0 {
        assert -r * 100.0 + 0.5 == k as real + 0.5;
      }
    }
  }

  lemma FloorOfHalf(k: int)
    ensures (k as real + 0.5).Floor == k
  {
  }

  /** The largest magnitude `NUMERIC(10, 2)` holds is below 10^8. */
  const PriceLimit: real := 100000000.0

  /** The row-level constraints: `title VARCHAR(255) NOT NULL`,
      `category VARCHAR(100)`, `price NUMERIC(10, 2) NOT NULL CHECK (price
      >= 0)` (checked on the rounded value, which must also fit the
      precision), `quantity INT NOT NULL`, `status VARCHAR(50)`. Postgres
      measures VARCHAR lengths in characters. A null status is not
      modelled: no statement of the service writes one. */
  predicate Storable(k: Key, v: SqlValue) {
    match k
    case Title => v.SqlText? && |v.text| <= 255
    case Category => v.SqlNull? || (v.SqlText? && |v.text| <= 100)
    case Price => v.SqlNumber? && 0.0 <= Round2(v.number) < PriceLimit
    case Quantity => v.SqlInteger?
    case Status => v.SqlText? && |v.text| <= 50
    case _ => true
  }

  predicate Assignable(e: Entry) {
    Binds(e.key, e.value) && Storable(e.key, e.value)
  }

  function NullOrText(v: Option<string>): SqlValue {
    if v.Some? then SqlText(v.value) else SqlNull
  }

  /** The value a column of `row` holds, as it would be selected. */
  function ColumnValue(row: Item, k: Key): SqlValue
    requires IsItemKey(k)
  {
    match k
    case Title => SqlText(row.title)
    case Description => NullOrText(row.description)
    case Category => NullOrText(row.category)
    case Price => SqlNumber(row.price)
    case Quantity => SqlInteger(row.quantity)
    case Tags => if row.tags.Some? then SqlTextArray(row.tags.value) else SqlNull
    case Status => SqlText(row.status)
  }

  /** A nullable text column read back from the value stored in it. */
  function TextOrNone(v: SqlValue): Option<string> {
    if v.SqlText? then Some(v.text) else None
  }

  function ArrayOrNone(v: SqlValue): Option<seq<string>> {
    if v.SqlTextArray? then Some(v.texts) else None
  }

  /** Postgres storing `v` into column `k` of `row`: the column then holds
      `v`, and no other column changes. */
  function SetColumn(row: Item, k: Key, v: SqlValue): (r: Item)
    requires Assignable(Entry(k, v))
    ensures r.id == row.id && r.createdAt == row.createdAt && r.updatedAt == row.updatedAt
  {
    match k
    case Title => row.(title := v.text)
    case Description => row.(description := TextOrNone(v))
    case Category => row.(category := TextOrNone(v))
    case Price => row.(price := Round2(v.number))
    case Quantity => row.(quantity := v.n)
    case Tags => row.(tags := ArrayOrNone(v))
    case Status => row.(status := v.text)
  }

  /** The value a column holds after `v` is stored into it. */
  function Stored(k: Key, v: SqlValue): SqlValue {
    if k == Price && v.SqlNumber? then SqlNumber(Round2(v.number)) else v
  }

  /** After storing `v` into column `k`, selecting `k` gives `v` back
      (rounded, for the price) and every other column reads as before. */
  lemma SetColumnReadsBack(row: Item, k: Key, v: SqlValue)
    requires Assignable(Entry(k, v))
    ensures IsItemKey(k) && ColumnValue(SetColumn(row, k, v), k) == Stored(k, v)
    ensures forall k' :: IsItemKey(k') && k' != k ==> ColumnValue(SetColumn(row, k, v), k') == ColumnValue(row, k')
  {
  }

  /** The assignments of one statement, applied left to right. */
  function ApplyEntries(row: Item, es: seq<Entry>): (r: Item)
    requires forall i :: 0 <= i < |es| ==> Assignable(es[i])
    ensures r.id == row.id && r.createdAt == row.createdAt && r.updatedAt == row.updatedAt
    decreases |es|
  {
    if es == [] then row else ApplyEntries(SetColumn(row, es[0].key, es[0].value), es[1..])
  }

  lemma {:induction false} ApplyEntriesAppend(row: Item, a: seq<Entry>, b: seq<Entry>)
    requires forall i :: 0 <= i < |a| ==> Assignable(a[i])
    requires forall i :: 0 <= i < |b| ==> Assignable(b[i])
    ensures forall i :: 0 <= i < |a + b| ==> Assignable((a + b)[i])
    ensures ApplyEntries(row, a + b) == ApplyEntries(ApplyEntries(row, a), b)
    decreases |a|
  {
    assert forall i :: 0 <= i < |a + b| ==> (a + b)[i] == if i < |a| then a[i] else b[i - |a|];
    if a != [] {
      assert (a + b)[1..] == a[1..] + b;
      ApplyEntriesAppend(SetColumn(row, a[0].key, a[0].value), a[1..], b);
    } else {
      assert a + b == b;
    }
  }

  /** The first assignment that cannot be bound, as the error it raises. */
  function BindFailure(es: seq<Entry>): (r: Option<DbError>)
    ensures r.None? <==> forall i :: 0 <= i < |es| ==> Binds(es[i].key, es[i].value)
  {
    if es == [] then None
    else if !Binds(es[0].key, es[0].value) then
      Some(if es[0].key == Quantity && es[0].value.SqlInteger? then IntegerOutOfRange(es[0].value.n) else InvalidParameter(es[0].key))
    else BindFailure(es[1..])
  }

  /** The error of the first assignment that cannot be bound. */
  lemma {:induction false} BindFailureAt(es: seq<Entry>, i: nat)
    requires i < |es| && !Binds(es[i].key, es[i].value)
    requires forall j :: 0 <= j < i ==> Binds(es[j].key, es[j].value)
    ensures BindFailure(es) == Some(if es[i].key == Quantity && es[i].value.SqlInteger?
      then IntegerOutOfRange(es[i].value.n) else InvalidParameter(es[i].key))
  {
    if i > 0 {
      assert Binds(es[0].key, es[0].value);
      BindFailureAt(es[1..], i - 1);
    }
  }

  /** The first assignment that breaks a row constraint. */
  function StoreFailure(es: seq<Entry>): (r: Option<DbError>)
    ensures r.None? <==> forall i :: 0 <= i < |es| ==> Storable(es[i].key, es[i].value)
  {
    if es == [] then None
    else if !Storable(es[0].key, es[0].value) then Some(ConstraintViolation(es[0].key))
    else StoreFailure(es[1..])
  }

  /** A value that binds to the `id` column, a 32-bit SERIAL. */
  predicate IdFits(id: int) {
    MinInt32 <= id <= MaxInt32
  }

  predicate AllBind(es: seq<Entry>) {
    forall i :: 0 <= i < |es| ==> Binds(es[i].key, es[i].value)
  }

  predicate AllStorable(es: seq<Entry>) {
    forall i :: 0 <= i < |es| ==> Storable(es[i].key, es[i].value)
  }

  /** Placeholder numbers `ps` are bound by `n` values: each is one of
      `$1`..`$n` and each of those is used. */
  predicate ParamsMatch(ps: seq<nat>, n: nat) {
    && (forall j :: 0 <= j < |ps| ==> 1 <= ps[j] <= n)
    && (forall p :: 1 <= p <= n ==> p in ps)
  }

  // ---------------------------------------------------------------------
  // createItem

  /** The columns of the INSERT, in the order of its placeholders. */
  const InsertColumns: seq<Key> := [Title, Description, Category, Price, Quantity, Tags, Status]

  const InsertText := "INSERT INTO items (title, description, category, price, quantity, tags, status) VALUES ($1,$2,$3,$4,$5,$6,$7) RETURNING *"

  function MaybeToSql(m: Maybe<string>): SqlValue {
    if m.Present? then SqlText(m.value) else SqlNull
  }

  function TagsToSql(m: Maybe<seq<string>>): SqlValue {
    if m.Present? then SqlTextArray(m.value) else SqlNull
  }

  /** The seven values `createItem` binds, in column order. */
  function CreateParams(data: CreateInput): seq<SqlValue> {
    [ SqlText(data.title),
      MaybeToSql(data.description),
      MaybeToSql(data.category),
      SqlNumber(data.price),
      SqlInteger(data.quantity),
      TagsToSql(data.tags),
      SqlText(StatusName(data.status)) ]
  }

  /** The row a successful create stores: the store assigns the id and both
      timestamps; absent or null description, category and tags are null. */
  function NewRow(data: CreateInput, id: int, now: int): Item {
    Item(id, data.title, OrNull(data.description), OrNull(data.category), Round2(data.price),
      data.quantity, OrNull(data.tags), StatusName(data.status), now, now)
  }

  /** The assignments of the INSERT: value i goes to column i. */
  function InsertEntries(values: seq<SqlValue>): (es: seq<Entry>)
    requires |values| == |InsertColumns|
    ensures |es| == |InsertColumns|
    ensures forall i :: 0 <= i < |es| ==> es[i] == Entry(InsertColumns[i], values[i])
  {
    seq(|InsertColumns|, i requires 0 <= i < |InsertColumns| => Entry(InsertColumns[i], values[i]))
  }

  /** The row the INSERT stores: the id and timestamps from the column
      defaults, every other column from its value. */
  function InsertedRow(values: seq<SqlValue>, id: int, now: int): (r: Item)
    requires |values| == |InsertColumns|
    requires forall i :: 0 <= i < |InsertColumns| ==> Assignable(InsertEntries(values)[i])
    ensures forall i :: 0 <= i < |InsertColumns| ==> ColumnValue(r, InsertColumns[i]) == Stored(InsertColumns[i], values[i])
  {
    var es := InsertEntries(values);
    assert Assignable(es[0]) && Assignable(es[1]) && Assignable(es[2]) && Assignable(es[3]);
    assert Assignable(es[4]) && Assignable(es[5]) && Assignable(es[6]);
    Item(id, values[0].text, TextOrNone(values[1]), TextOrNone(values[2]), Round2(values[3].number),
      values[4].n, ArrayOrNone(values[5]), values[6].text, now, now)
  }

  /** Postgres running the INSERT with `values` bound to `$1`..`$7`: every
      value must bind to its column's type and meet its constraints. */
  function RunInsert(values: seq<SqlValue>, id: int, now: int): Result<Item, DbError> {
    if |values| != |InsertColumns| then Err(MalformedStatement)
    else
      var es := InsertEntries(values);
      match BindFailure(es)
      case Some(e) => Err(e)
      case None =>
        match StoreFailure(es)
        case Some(e) => Err(e)
        case None => Ok(InsertedRow(values, id, now))
  }

  /** The INSERT binds seven values in the order of its column list, each
      the value of that column in the row the input describes; it stores
      exactly that row, and fails exactly when a value does not fit its
      column. */
  lemma CreateStoresNewRow(data: CreateInput, id: int, now: int)
    ensures |CreateParams(data)| == |InsertColumns| == 7
    ensures forall i :: 0 <= i < 7 ==>
      Stored(InsertColumns[i], CreateParams(data)[i]) == ColumnValue(NewRow(data, id, now), InsertColumns[i])
    ensures RunInsert(CreateParams(data), id, now).Ok? <==> FitsTable(data)
    ensures FitsTable(data) ==> RunInsert(CreateParams(data), id, now) == Ok(NewRow(data, id, now))
  {
    var values := CreateParams(data);
    CreateEntriesFit(data);
    if FitsTable(data) {
      var row := InsertedRow(values, id, now);
      assert row.title == data.title && row.status == StatusName(data.status);
      assert row.description == OrNull(data.description) && row.category == OrNull(data.category);
      assert row.tags == OrNull(data.tags);
    }
  }

  /** The quantity can be bound to the INT column; every other value of the
      INSERT always binds. */
  predicate QuantityBinds(data: CreateInput) {
    MinInt32 <= data.quantity <= MaxInt32
  }

  /** The values of the INSERT bind exactly when the quantity does, and
      then also meet the row constraints exactly when the input fits the
      table. */
  lemma CreateEntriesFit(data: CreateInput)
    ensures var es := InsertEntries(CreateParams(data));
      && (AllBind(es) <==> QuantityBinds(data))
      && (!AllBind(es) ==> BindFailure(es) == Some(IntegerOutOfRange(data.quantity)))
      && (AllBind(es) && AllStorable(es) <==> FitsTable(data))
  {
    var values := CreateParams(data);
    var es := InsertEntries(values);
    assert es[0] == Entry(Title, SqlText(data.title));
    assert es[1] == Entry(Description, MaybeToSql(data.description));
    assert es[2] == Entry(Category, MaybeToSql(data.category));
    assert es[3] == Entry(Price, SqlNumber(data.price));
    assert es[4] == Entry(Quantity, SqlInteger(data.quantity));
    if !QuantityBinds(data) {
      BindFailureAt(es, 4);
    } else {
      assert es[5] == Entry(Tags, TagsToSql(data.tags));
      assert es[6] == Entry(Status, SqlText(StatusName(data.status)));
      assert forall i :: 0 <= i < |es| ==> Binds(es[i].key, es[i].value);
    }
    if FitsTable(data) {
      assert es[1] == Entry(Description, MaybeToSql(data.description));
      assert es[5] == Entry(Tags, TagsToSql(data.tags));
      assert es[6] == Entry(Status, SqlText(StatusName(data.status)));
      assert forall i :: 0 <= i < |es| ==> Binds(es[i].key, es[i].value) && Storable(es[i].key, es[i].value);
    }
  }

  /** The input fits the table's columns: what the INSERT and the UPDATE
      need beyond the schema's own bounds. */
  predicate FitsTable(data: CreateInput) {
    && |data.title| <= 255
    && (data.category.Present? ==> |data.category.value| <= 100)
    && 0.0 <= Round2(data.price) < PriceLimit
    && MinInt32 <= data.quantity <= MaxInt32
  }

  /** Everything the create schema accepts fits the table, except a
      quantity beyond the 32-bit range of the INT column and a price that
      rounds to 10^8 or more, neither of which the schema bounds. */
  lemma AcceptedCreateFits(body: ItemBody, toNumber: Json -> Num)
    requires ParseCreate(body, toNumber).Ok?
    ensures var data := ParseCreate(body, toNumber).value;
      FitsTable(data) <==> data.quantity <= MaxInt32 && Round2(data.price) < PriceLimit
  {
    var data := ParseCreate(body, toNumber).value;
    assert data == NormalizeCreate(body, toNumber);
    if data.category.Present? {
      assert Utf16Length(data.category.value) <= MaxCategoryLength;
    }
  }

  // ---------------------------------------------------------------------
  // updateItem

  function TitleEntries(u: UpdateInput): seq<Entry> {
    if u.title.Some? then [Entry(Title, SqlText(u.title.value))] else []
  }
  function DescriptionEntries(u: UpdateInput): seq<Entry> {
    if u.description.Absent? then [] else [Entry(Description, MaybeToSql(u.description))]
  }
  function CategoryEntries(u: UpdateInput): seq<Entry> {
    if u.category.Absent? then [] else [Entry(Category, MaybeToSql(u.category))]
  }
  function PriceEntries(u: UpdateInput): seq<Entry> {
    if u.price.Some? then [Entry(Price, SqlNumber(u.price.value))] else []
  }
  function QuantityEntries(u: UpdateInput): seq<Entry> {
    if u.quantity.Some? then [Entry(Quantity, SqlInteger(u.quantity.value))] else []
  }
  function TagsEntries(u: UpdateInput): seq<Entry> {
    if u.tags.Absent? then [] else [Entry(Tags, TagsToSql(u.tags))]
  }
  function StatusEntries(u: UpdateInput): seq<Entry> {
    if u.status.Some? then [Entry(Status, SqlText(StatusName(u.status.value)))] else []
  }

  /** `Object.entries(data)` of a parsed update: the keys the client sent,
      in schema order, each with its value (null included). */
  function Entries(u: UpdateInput): (es: seq<Entry>)
    ensures forall i :: 0 <= i < |es| ==> IsItemKey(es[i].key)
    ensures |es| <= 7
  {
    var t, d, c, p, q, g, s := TitleEntries(u), DescriptionEntries(u), CategoryEntries(u),
      PriceEntries(u), QuantityEntries(u), TagsEntries(u), StatusEntries(u);
    KeysOfTwo(t, d);
    KeysOfTwo(t + d, c);
    KeysOfTwo(p, q);
    KeysOfTwo(p + q, g);
    KeysOfTwo(p + q + g, s);
    KeysOfTwo(TextEntries(u), OtherEntries(u));
    TextEntries(u) + OtherEntries(u)
  }

  predicate KeysOk(es: seq<Entry>) {
    forall i :: 0 <= i < |es| ==> IsItemKey(es[i].key)
  }

  lemma KeysOfTwo(a: seq<Entry>, b: seq<Entry>)
    requires KeysOk(a) && KeysOk(b)
    ensures KeysOk(a + b)
  {
    assert forall i :: 0 <= i < |a + b| ==> (a + b)[i] == if i < |a| then a[i] else b[i - |a|];
  }

  function TextEntries(u: UpdateInput): seq<Entry> {
    TitleEntries(u) + DescriptionEntries(u) + CategoryEntries(u)
  }

  function OtherEntries(u: UpdateInput): seq<Entry> {
    PriceEntries(u) + QuantityEntries(u) + TagsEntries(u) + StatusEntries(u)
  }

  /** One `key = $i` fragment of the SET clause. */
  datatype SetFragment = SetFragment(key: Key, param: nat)

  /** `UPDATE items SET <sets> WHERE id = $<idParam> RETURNING *`. */
  datatype UpdateSql = UpdateSql(sets: seq<SetFragment>, idParam: nat)

  function FragmentText(f: SetFragment): string {
    KeyName(f.key) + " = $" + NatToString(f.param)
  }

  function UpdateText(stmt: UpdateSql): string {
    var fields := seq(|stmt.sets|, j requires 0 <= j < |stmt.sets| => FragmentText(stmt.sets[j]));
    "UPDATE items SET " + Join(fields, ", ") + " WHERE id = $" + NatToString(stmt.idParam) + " RETURNING *"
  }

  /** The SET clause for `entries`, numbered from `$1`. */
  function SetClause(es: seq<Entry>): seq<SetFragment> {
    seq(|es|, j requires 0 <= j < |es| => SetFragment(es[j].key, j + 1))
  }

  function EntryValues(es: seq<Entry>): seq<SqlValue> {
    seq(|es|, j requires 0 <= j < |es| => es[j].value)
  }

  /** Every placeholder a statement uses, in order of appearance. */
  function Placeholders(stmt: UpdateSql): seq<nat> {
    seq(|stmt.sets|, j requires 0 <= j < |stmt.sets| => stmt.sets[j].param) + [stmt.idParam]
  }

  /** The body of `updateItem` up to the query, over `Object.entries(data)`:
      one fragment `key = $i` and one bound value per entry, numbered consecutively from 1, then the id
      as the last value. With no entries no statement is built. */
  method BuildUpdate(id: int, entries: seq<Entry>) returns (stmt: Option<UpdateSql>, values: seq<SqlValue>)
    ensures entries == [] ==> stmt == None && values == []
    ensures entries != [] ==>
      && stmt == Some(UpdateSql(SetClause(entries), |entries| + 1))
      && values == EntryValues(entries) + [SqlInteger(id)]
  {
    var fields: seq<SetFragment> := [];
    values := [];
    var idx := 1;
    for i := 0 to |entries|
      invariant idx == i + 1
      invariant fields == SetClause(entries[..i])
      invariant values == EntryValues(entries[..i])
    {
      assert entries[..i + 1] == entries[..i] + [entries[i]];
      fields := fields + [SetFragment(entries[i].key, idx)];
      idx := idx + 1;
      values := values + [entries[i].value];
    }
    assert entries[..|entries|] == entries;
    if |fields| == 0 {
      stmt := None;
      return;
    }
    values := values + [SqlInteger(id)];
    stmt := Some(UpdateSql(fields, idx));
  }

  /** The statement `updateItem` builds uses `$1`..`$(n+1)`, each once and
      in order, so it takes exactly the n+1 values bound with it; and only
      columns of the update schema appear in its SET clause. */
  lemma UpdatePlaceholdersContiguous(es: seq<Entry>, id: int)
    ensures var stmt := UpdateSql(SetClause(es), |es| + 1);
      && Placeholders(stmt) == seq(|es| + 1, j requires 0 <= j <= |es| => j + 1)
      && ParamsMatch(Placeholders(stmt), |EntryValues(es) + [SqlInteger(id)]|)
  {
    var stmt := UpdateSql(SetClause(es), |es| + 1);
    var ps := Placeholders(stmt);
    assert forall j :: 0 <= j <= |es| ==> ps[j] == j + 1;
    forall p | 1 <= p <= |es| + 1 ensures p in ps {
      assert ps[p - 1] == p;
    }
  }

  /** Binding the values to the fragments' placeholders. */
  function Resolve(sets: seq<SetFragment>, values: seq<SqlValue>): seq<Entry>
    requires forall j :: 0 <= j < |sets| ==> 1 <= sets[j].param <= |values|
  {
    seq(|sets|, j requires 0 <= j < |sets| => Entry(sets[j].key, values[sets[j].param - 1]))
  }

  /** What an UPDATE reports: the updated row, or none when no row has the id. */
  datatype UpdateOutcome = UpdateOutcome(rows: map<int, Item>, returned: Option<Item>)

  /** Postgres running an UPDATE ... WHERE id = $k RETURNING * over `rows`:
      the parameters are bound (a value that does not fit its column's type
      fails even when no row matches), then the matching row, if any, is
      changed and checked against the row constraints. */
  function RunUpdate(rows: map<int, Item>, stmt: UpdateSql, values: seq<SqlValue>): Result<UpdateOutcome, DbError> {
    if !ParamsMatch(Placeholders(stmt), |values|) then Err(MalformedStatement)
    else
      assert stmt.idParam == Placeholders(stmt)[|stmt.sets|];
      assert forall j :: 0 <= j < |stmt.sets| ==> stmt.sets[j].param == Placeholders(stmt)[j];
      var target := values[stmt.idParam - 1];
      var es := Resolve(stmt.sets, values);
      if !target.SqlInteger? then Err(MalformedStatement)
      else if BindFailure(es).Some? then Err(BindFailure(es).value)
      else if !IdFits(target.n) then Err(IntegerOutOfRange(target.n))
      else if target.n !in rows then Ok(UpdateOutcome(rows, None))
      else if StoreFailure(es).Some? then Err(StoreFailure(es).value)
      else
        var row := ApplyEntries(rows[target.n], es);
        Ok(UpdateOutcome(rows[target.n := row], Some(row)))
  }

  /** A partial update as the service promises it: the fields present in
      the input take the input's value (null included), every other column
      keeps its value, and id and both timestamps never change. */
  function Patch(row: Item, u: UpdateInput): Item {
    Item(
      row.id,
      if u.title.Some? then u.title.value else row.title,
      if u.description.Absent? then row.description else OrNull(u.description),
      if u.category.Absent? then row.category else OrNull(u.category),
      if u.price.Some? then Round2(u.price.value) else row.price,
      if u.quantity.Some? then u.quantity.value else row.quantity,
      if u.tags.Absent? then row.tags else OrNull(u.tags),
      if u.status.Some? then StatusName(u.status.value) else row.status,
      row.createdAt,
      row.updatedAt)
  }

  const NoChanges := UpdateInput(None, Absent, Absent, None, None, Absent, None)

  /** An update input has no entries exactly when it supplies no field,
      and the empty update leaves a row as it is. */
  lemma EmptyUpdateIsIdentity(u: UpdateInput, row: Item)
    ensures Entries(u) == [] <==> u == NoChanges
    ensures Patch(row, NoChanges) == row
  {
    if Entries(u) == [] {
      assert TitleEntries(u) == [] && DescriptionEntries(u) == [] && CategoryEntries(u) == [];
      assert PriceEntries(u) == [] && QuantityEntries(u) == [] && TagsEntries(u) == [];
    }
  }

  lemma ResolveBuilt(es: seq<Entry>, id: int)
    ensures forall j :: 0 <= j < |SetClause(es)| ==> 1 <= SetClause(es)[j].param <= |EntryValues(es) + [SqlInteger(id)]|
    ensures Resolve(SetClause(es), EntryValues(es) + [SqlInteger(id)]) == es
  {
  }

  lemma PartsOfTwo(a: seq<Entry>, b: seq<Entry>)
    requires forall i :: 0 <= i < |a + b| ==> Assignable((a + b)[i])
    ensures forall i :: 0 <= i < |a| ==> Assignable(a[i])
    ensures forall i :: 0 <= i < |b| ==> Assignable(b[i])
  {
    assert forall i :: 0 <= i < |a| ==> (a + b)[i] == a[i];
    assert forall i :: 0 <= i < |b| ==> (a + b)[|a| + i] == b[i];
  }

  lemma AssignableParts(u: UpdateInput)
    requires forall i :: 0 <= i < |Entries(u)| ==> Assignable(Entries(u)[i])
    ensures forall i :: 0 <= i < |TextEntries(u)| ==> Assignable(TextEntries(u)[i])
    ensures forall i :: 0 <= i < |OtherEntries(u)| ==> Assignable(OtherEntries(u)[i])
    ensures forall i :: 0 <= i < |TitleEntries(u)| ==> Assignable(TitleEntries(u)[i])
    ensures forall i :: 0 <= i < |DescriptionEntries(u)| ==> Assignable(DescriptionEntries(u)[i])
    ensures forall i :: 0 <= i < |CategoryEntries(u)| ==> Assignable(CategoryEntries(u)[i])
    ensures forall i :: 0 <= i < |PriceEntries(u)| ==> Assignable(PriceEntries(u)[i])
    ensures forall i :: 0 <= i < |QuantityEntries(u)| ==> Assignable(QuantityEntries(u)[i])
    ensures forall i :: 0 <= i < |TagsEntries(u)| ==> Assignable(TagsEntries(u)[i])
    ensures forall i :: 0 <= i < |StatusEntries(u)| ==> Assignable(StatusEntries(u)[i])
  {
    var t, d, c, p, q, g, s := TitleEntries(u), DescriptionEntries(u), CategoryEntries(u),
      PriceEntries(u), QuantityEntries(u), TagsEntries(u), StatusEntries(u);
    assert Entries(u) == TextEntries(u) + OtherEntries(u);
    PartsOfTwo(TextEntries(u), OtherEntries(u));
    PartsOfTwo(t + d, c);
    PartsOfTwo(t, d);
    PartsOfTwo(p + q + g, s);
    PartsOfTwo(p + q, g);
    PartsOfTwo(p, q);
  }

  /** Applying a part of at most one entry. */
  lemma ApplyOne(row: Item, part: seq<Entry>)
    requires |part| <= 1
    requires forall i :: 0 <= i < |part| ==> Assignable(part[i])
    ensures ApplyEntries(row, part) == if part == [] then row else SetColumn(row, part[0].key, part[0].value)
  {
    if part != [] {
      assert part[1..] == [];
    }
  }

  // One lemma per column: the entry for that column, if present, sets it
  // to the value `Patch` gives it.

  lemma ApplyTitle(r: Item, u: UpdateInput)
    requires forall i :: 0 <= i < |TitleEntries(u)| ==> Assignable(TitleEntries(u)[i])
    ensures ApplyEntries(r, TitleEntries(u)) == r.(title := if u.title.Some? then u.title.value else r.title)
  {
    ApplyOne(r, TitleEntries(u));
  }

  lemma ApplyDescription(r: Item, u: UpdateInput)
    requires forall i :: 0 <= i < |DescriptionEntries(u)| ==> Assignable(DescriptionEntries(u)[i])
    ensures ApplyEntries(r, DescriptionEntries(u)) == r.(description := if u.description.Absent? then r.description else OrNull(u.description))
  {
    ApplyOne(r, DescriptionEntries(u));
  }

  lemma ApplyCategory(r: Item, u: UpdateInput)
    requires forall i :: 0 <= i < |CategoryEntries(u)| ==> Assignable(CategoryEntries(u)[i])
    ensures ApplyEntries(r, CategoryEntries(u)) == r.(category := if u.category.Absent? then r.category else OrNull(u.category))
  {
    ApplyOne(r, CategoryEntries(u));
  }

  lemma ApplyPrice(r: Item, u: UpdateInput)
    requires forall i :: 0 <= i < |PriceEntries(u)| ==> Assignable(PriceEntries(u)[i])
    ensures ApplyEntries(r, PriceEntries(u)) == r.(price := if u.price.Some? then Round2(u.price.value) else r.price)
  {
    ApplyOne(r, PriceEntries(u));
  }

  lemma ApplyQuantity(r: Item, u: UpdateInput)
    requires forall i :: 0 <= i < |QuantityEntries(u)| ==> Assignable(QuantityEntries(u)[i])
    ensures ApplyEntries(r, QuantityEntries(u)) == r.(quantity := if u.quantity.Some? then u.quantity.value else r.quantity)
  {
    ApplyOne(r, QuantityEntries(u));
  }

  lemma ApplyTags(r: Item, u: UpdateInput)
    requires forall i :: 0 <= i < |TagsEntries(u)| ==> Assignable(TagsEntries(u)[i])
    ensures ApplyEntries(r, TagsEntries(u)) == r.(tags := if u.tags.Absent? then r.tags else OrNull(u.tags))
  {
    ApplyOne(r, TagsEntries(u));
  }

  lemma ApplyStatus(r: Item, u: UpdateInput)
    requires forall i :: 0 <= i < |StatusEntries(u)| ==> Assignable(StatusEntries(u)[i])
    ensures ApplyEntries(r, StatusEntries(u)) == r.(status := if u.status.Some? then StatusName(u.status.value) else r.status)
  {
    ApplyOne(r, StatusEntries(u));
  }

  /** The text columns of an update: title, description and category. */
  lemma ApplyTextEntries(row: Item, u: UpdateInput)
    requires forall i :: 0 <= i < |TitleEntries(u)| ==> Assignable(TitleEntries(u)[i])
    requires forall i :: 0 <= i < |DescriptionEntries(u)| ==> Assignable(DescriptionEntries(u)[i])
    requires forall i :: 0 <= i < |CategoryEntries(u)| ==> Assignable(CategoryEntries(u)[i])
    ensures forall i :: 0 <= i < |TextEntries(u)| ==> Assignable(TextEntries(u)[i])
    ensures ApplyEntries(row, TextEntries(u)) == row.(title := Patch(row, u).title, description := Patch(row, u).description,
           category := Patch(row, u).category)
  {
    var t, d, c := TitleEntries(u), DescriptionEntries(u), CategoryEntries(u);
    ApplyTitle(row, u);
    var r1 := ApplyEntries(row, t);
    ApplyDescription(r1, u);
    var r2 := ApplyEntries(r1, d);
    ApplyCategory(r2, u);
    ApplyEntriesAppend(row, t, d);
    ApplyEntriesAppend(row, t + d, c);
  }

  /** The other columns of an update: price, quantity, tags and status. */
  lemma ApplyOtherEntries(row: Item, u: UpdateInput)
    requires forall i :: 0 <= i < |PriceEntries(u)| ==> Assignable(PriceEntries(u)[i])
    requires forall i :: 0 <= i < |QuantityEntries(u)| ==> Assignable(QuantityEntries(u)[i])
    requires forall i :: 0 <= i < |TagsEntries(u)| ==> Assignable(TagsEntries(u)[i])
    requires forall i :: 0 <= i < |StatusEntries(u)| ==> Assignable(StatusEntries(u)[i])
    ensures forall i :: 0 <= i < |OtherEntries(u)| ==> Assignable(OtherEntries(u)[i])
    ensures ApplyEntries(row, OtherEntries(u)) == row.(price := Patch(row, u).price, quantity := Patch(row, u).quantity,
           tags := Patch(row, u).tags, status := Patch(row, u).status)
  {
    var p, q, g, s := PriceEntries(u), QuantityEntries(u), TagsEntries(u), StatusEntries(u);
    ApplyPrice(row, u);
    var r1 := ApplyEntries(row, p);
    ApplyQuantity(r1, u);
    var r2 := ApplyEntries(r1, q);
    ApplyTags(r2, u);
    var r3 := ApplyEntries(r2, g);
    ApplyStatus(r3, u);
    ApplyEntriesAppend(row, p, q);
    ApplyEntriesAppend(row, p + q, g);
    ApplyEntriesAppend(row, p + q + g, s);
  }

  /** Applying the entries of an update, in entry order, is the patch. */
  lemma ApplyEntriesIsPatch(row: Item, u: UpdateInput)
    requires forall i :: 0 <= i < |Entries(u)| ==> Assignable(Entries(u)[i])
    ensures ApplyEntries(row, Entries(u)) == Patch(row, u)
  {
    AssignableParts(u);
    ApplyTextEntries(row, u);
    ApplyOtherEntries(ApplyEntries(row, TextEntries(u)), u);
    ApplyEntriesAppend(row, TextEntries(u), OtherEntries(u));
  }

  /** The statement and values `updateItem` builds do what a partial update
      promises: binding fails only on a value that does not fit its column;
      otherwise a missing id changes nothing and returns no row, and an
      existing row becomes its patch. */
  lemma UpdateRunsAsPatch(rows: map<int, Item>, id: int, u: UpdateInput)
    requires Entries(u) != []
    ensures var es := Entries(u);
      var r := RunUpdate(rows, UpdateSql(SetClause(es), |es| + 1), EntryValues(es) + [SqlInteger(id)]);
      && (r.Ok? <==> AllBind(es) && IdFits(id) && (id in rows ==> AllStorable(es)))
      && (r.Ok? && id !in rows ==> r.value == UpdateOutcome(rows, None))
      && (r.Ok? && id in rows ==> r.value == UpdateOutcome(rows[id := Patch(rows[id], u)], Some(Patch(rows[id], u))))
  {
    var es := Entries(u);
    RunBuiltUpdate(rows, id, es);
    if AllBind(es) && AllStorable(es) && id in rows {
      ApplyEntriesIsPatch(rows[id], u);
    }
  }

  /** `RunUpdate` on the statement and values built from `es`: the
      placeholders line up, so the outcome depends on the entries alone. */
  lemma RunBuiltUpdate(rows: map<int, Item>, id: int, es: seq<Entry>)
    ensures var r := RunUpdate(rows, UpdateSql(SetClause(es), |es| + 1), EntryValues(es) + [SqlInteger(id)]);
      && (!AllBind(es) ==> r.Err?)
      && (AllBind(es) && !IdFits(id) ==> r.Err?)
      && (AllBind(es) && IdFits(id) && id !in rows ==> r == Ok(UpdateOutcome(rows, None)))
      && (AllBind(es) && IdFits(id) && id in rows && !AllStorable(es) ==> r.Err?)
      && (AllBind(es) && IdFits(id) && id in rows && AllStorable(es) ==>
           r == Ok(UpdateOutcome(rows[id := ApplyEntries(rows[id], es)], Some(ApplyEntries(rows[id], es)))))
  {
    UpdatePlaceholdersContiguous(es, id);
    ResolveBuilt(es, id);
    var stmt := UpdateSql(SetClause(es), |es| + 1);
    var values := EntryValues(es) + [SqlInteger(id)];
    assert values[stmt.idParam - 1] == SqlInteger(id);
  }

  /** The output-side bounds of an accepted update input. */
  predicate UpdateFitsTable(u: UpdateInput) {
    && (u.title.Some? ==> |u.title.value| <= 255)
    && (u.category.Present? ==> |u.category.value| <= 100)
    && (u.price.Some? ==> 0.0 <= Round2(u.price.value) < PriceLimit)
    && (u.quantity.Some? ==> MinInt32 <= u.quantity.value <= MaxInt32)
  }

  lemma UpdateFitsAssignable(u: UpdateInput)
    requires UpdateFitsTable(u)
    ensures AllBind(Entries(u)) && AllStorable(Entries(u))
  {
    var t, d, c, p, q, g, s := TitleEntries(u), DescriptionEntries(u), CategoryEntries(u),
      PriceEntries(u), QuantityEntries(u), TagsEntries(u), StatusEntries(u);
    AllOfTwo(t, d);
    AllOfTwo(t + d, c);
    AllOfTwo(p, q);
    AllOfTwo(p + q, g);
    AllOfTwo(p + q + g, s);
    AllOfTwo(TextEntries(u), OtherEntries(u));
    assert Entries(u) == TextEntries(u) + OtherEntries(u);
  }

  lemma AllOfTwo(a: seq<Entry>, b: seq<Entry>)
    requires forall i :: 0 <= i < |a| ==> Assignable(a[i])
    requires forall i :: 0 <= i < |b| ==> Assignable(b[i])
    ensures forall i :: 0 <= i < |a + b| ==> Assignable((a + b)[i])
  {
    assert forall i :: 0 <= i < |a + b| ==> (a + b)[i] == if i < |a| then a[i] else b[i - |a|];
  }

  /** Everything the update schema accepts fits the table, except a
      quantity beyond the 32-bit range of the INT column and a price that
      rounds to 10^8 or more. */
  lemma AcceptedUpdateFits(body: ItemBody, toNumber: Json -> Num)
    requires ParseUpdate(body, toNumber).Ok?
    ensures var u := ParseUpdate(body, toNumber).value;
      UpdateFitsTable(u) <==>
        (u.quantity.Some? ==> u.quantity.value <= MaxInt32) && (u.price.Some? ==> Round2(u.price.value) < PriceLimit)
  {
    var u := ParseUpdate(body, toNumber).value;
    assert u == NormalizeUpdate(body, toNumber);
    if u.title.Some? {
      assert Utf16Length(u.title.value) <= MaxTitleLength;
    }
    if u.category.Present? {
      assert Utf16Length(u.category.value) <= MaxCategoryLength;
    }
  }

  // ---------------------------------------------------------------------
  // listItems

  /** One condition of the conjunctive filter `listItems` may add. */
  datatype Condition =
    | Matches(tsquery: string)
    | StatusEquals(status: string)
    | CategoryEquals(category: string)

  /** A WHERE fragment and the placeholder it uses. */
  datatype Filter = TextSearch(param: nat) | StatusIs(param: nat) | CategoryIs(param: nat)

  /** `q.replace(/[':]/g, " ")`: quotes and colons become spaces. */
  function SanitizeQuery(q: string): (r: string)
    ensures |r| == |q|
    ensures forall i :: 0 <= i < |r| ==> r[i] != '\'' && r[i] != ':'
    ensures forall i :: 0 <= i < |r| ==> q[i] != '\'' && q[i] != ':' ==> r[i] == q[i]
  {
    seq(|q|, i requires 0 <= i < |q| => if q[i] == '\'' || q[i] == ':' then ' ' else q[i])
  }

  /** The prefix-match search term bound for the text filter. */
  function SearchTerm(q: string): string {
    SanitizeQuery(q) + ":*"
  }

  /** Whether `to_tsquery('english', t)` accepts the term `t`. The tsquery
      grammar is not modelled; the caller supplies the relation. */
  type TsParses = string -> bool

  /** An ASCII letter or digit: a character the English parser keeps in a
      word. Letters outside ASCII are not counted, so the intended term
      cuts "café" to "caf". */
  predicate WordChar(c: char) {
    'a' <= c <= 'z' || 'A' <= c <= 'Z' || '0' <= c <= '9'
  }

  /** Two operands with nothing but spaces between them, as in
      `red widget:*`: the tsquery grammar needs an operator there. */
  predicate OperandsWithoutOperator(t: string) {
    exists i, j :: 0 <= i && i + 1 < j < |t| && WordChar(t[i]) && WordChar(t[j]) && SpacesBetween(t, i, j)
  }

  /** Every character strictly between positions `i` and `j` is a space. */
  predicate SpacesBetween(t: string, i: int, j: int) {
    forall k :: i < k < j && 0 <= k < |t| ==> t[k] == ' '
  }

  /** What is known of `to_tsquery`: outside a quoted phrase such as
      `'supernovae stars'`, it rejects two operands without an operator
      between them ("syntax error in tsquery"). Only terms without a quote
      are constrained. */
  ghost predicate TsQueryRules(tsParses: TsParses) {
    forall t :: '\'' !in t && OperandsWithoutOperator(t) ==> !tsParses(t)
  }

  /** The sanitised search term never holds a quote, so it never forms a
      quoted phrase. */
  lemma SearchTermUnquoted(q: string)
    ensures '\'' !in SearchTerm(q)
  {
    var t := SearchTerm(q);
    forall i | 0 <= i < |t|
      ensures t[i] != '\''
    {
      if i < |q| {
        assert t[i] == SanitizeQuery(q)[i];
      }
    }
  }

  /** The rule leaves quoted phrases alone: `'a b'` sets two words side by
      side, and a grammar that accepts every quoted term meets the rule. */
  lemma QuotedPhraseAllowed()
    ensures OperandsWithoutOperator("'a b'")
    ensures TsQueryRules(t => '\'' in t) && (t => '\'' in t)("'a b'")
  {
    var t := "'a b'";
    assert WordChar(t[1]) && WordChar(t[3]) && SpacesBetween(t, 1, 3);
    assert t[0] == '\'';
  }

  /** Any search text whose term sets two words side by side fails. */
  lemma SpacedWordsFail(q: string, tsParses: TsParses)
    requires TsQueryRules(tsParses)
    requires OperandsWithoutOperator(SearchTerm(q))
    ensures !tsParses(SearchTerm(q))
  {
    SearchTermUnquoted(q);
  }

  /** The search term as written fails on a search for two words, and on
      a word with an apostrophe, which the replacement turns into two:
      both bind a term that `to_tsquery` rejects. */
  lemma SearchTermCanFail()
    ensures SearchTerm("red widget") == "red widget:*" && OperandsWithoutOperator("red widget:*")
    ensures SearchTerm("it's") == "it s:*" && OperandsWithoutOperator("it s:*")
  {
    var t := "red widget:*";
    assert SearchTerm("red widget") == t;
    assert WordChar(t[2]) && t[3] == ' ' && WordChar(t[4]) && SpacesBetween(t, 2, 4);
    var u := "it s:*";
    assert SanitizeQuery("it's") == "it s";
    assert WordChar(u[1]) && u[2] == ' ' && WordChar(u[3]) && SpacesBetween(u, 1, 3);
  }

  /** A non-empty run of letters and digits. */
  predicate IsWord(w: string) {
    w != "" && forall i :: 0 <= i < |w| ==> WordChar(w[i])
  }

  /** The length of the run of word characters at the start of `s`. */
  function LeadingWord(s: string): (k: nat)
    ensures k <= |s|
    ensures forall i :: 0 <= i < k ==> WordChar(s[i])
    ensures k < |s| ==> !WordChar(s[k])
  {
    if |s| > 0 && WordChar(s[0]) then 1 + LeadingWord(s[1..]) else 0
  }

  /** The words of a search text: its maximal runs of letters and digits,
      in order. */
  function Words(q: string): (ws: seq<string>)
    ensures forall i :: 0 <= i < |ws| ==> IsWord(ws[i])
    decreases |q|
  {
    if q == [] then []
    else if !WordChar(q[0]) then Words(q[1..])
    else
      var k := LeadingWord(q);
      [q[..k]] + Words(q[k..])
  }

  /** Every word as a prefix operand. */
  function PrefixOperands(ws: seq<string>): (ps: seq<string>)
    ensures |ps| == |ws|
  {
    seq(|ws|, i requires 0 <= i < |ws| => ws[i] + ":*")
  }

  /** The search term the comment above `safeQ` intends: every word of the
      text as a prefix operand, the operands joined by `&`, so that every
      word must match. */
  function IntendedSearchTerm(q: string): string {
    Join(PrefixOperands(Words(q)), "&")
  }

  /** The intended term never has two operands without an operator: it is
      the `&`-conjunction of one prefix operand per word. */
  lemma IntendedSearchTermIsConjunction(q: string)
    ensures !OperandsWithoutOperator(IntendedSearchTerm(q))
    ensures Words(q) != [] ==> Split(IntendedSearchTerm(q), '&') == PrefixOperands(Words(q))
  {
    var ws := Words(q);
    var ps := PrefixOperands(ws);
    forall i | 0 <= i < |ps|
      ensures ' ' !in ps[i] && '&' !in ps[i]
    {
      assert ps[i] == ws[i] + ":*";
      assert IsWord(ws[i]);
    }
    JoinAvoids(ps, "&", ' ');
    var t := IntendedSearchTerm(q);
    forall i, j | 0 <= i && i + 1 < j < |t|
      ensures !SpacesBetween(t, i, j)
    {
      assert t[i + 1] != ' ';
    }
    if ws != [] {
      SplitJoin(ps, '&');
    }
  }

  /** On a single word the intended term is the term as written. */
  lemma IntendedAgreesOnOneWord(q: string)
    requires IsWord(q)
    ensures IntendedSearchTerm(q) == SearchTerm(q)
  {
    assert LeadingWord(q) == |q| by {
      LeadingWordOfWord(q);
    }
    assert q[..|q|] == q && q[|q|..] == [];
    assert Words(q) == [q];
    assert PrefixOperands([q]) == [q + ":*"];
    assert SanitizeQuery(q) == q;
  }

  lemma {:induction false} LeadingWordOfWord(w: string)
    requires forall i :: 0 <= i < |w| ==> WordChar(w[i])
    ensures LeadingWord(w) == |w|
  {
    if w != [] {
      LeadingWordOfWord(w[1..]);
    }
  }

  /** `q && q.trim()`: a text filter needs a query with a non-blank character. */
  predicate HasTextFilter(query: ItemQuery) {
    query.q.Some? && Trim(query.q.value) != ""
  }

  /** `if (category)`: an empty category adds no filter. */
  predicate HasCategoryFilter(query: ItemQuery) {
    query.category.Some? && query.category.value != ""
  }

  /** The conditions of the filter, in the order q, status, category. */
  function Conditions(query: ItemQuery): seq<Condition> {
    TextCondition(query) + StatusCondition(query) + CategoryCondition(query)
  }

  function TextCondition(query: ItemQuery): seq<Condition> {
    if HasTextFilter(query) then [Matches(SearchTerm(query.q.value))] else []
  }

  function StatusCondition(query: ItemQuery): seq<Condition> {
    if query.status.Some? then [StatusEquals(StatusName(query.status.value))] else []
  }

  function CategoryCondition(query: ItemQuery): seq<Condition> {
    if HasCategoryFilter(query) then [CategoryEquals(query.category.value)] else []
  }

  function FilterFor(c: Condition, param: nat): Filter {
    match c
    case Matches(_) => TextSearch(param)
    case StatusEquals(_) => StatusIs(param)
    case CategoryEquals(_) => CategoryIs(param)
  }

  function ConditionValue(c: Condition): SqlValue {
    match c
    case Matches(t) => SqlText(t)
    case StatusEquals(s) => SqlText(s)
    case CategoryEquals(s) => SqlText(s)
  }

  function FilterText(f: Filter): string {
    match f
    case TextSearch(p) => "to_tsvector('english', coalesce(title,'') || ' ' || coalesce(description,'')) @@ to_tsquery('english', $" + NatToString(p) + ")"
    case StatusIs(p) => "status = $" + NatToString(p)
    case CategoryIs(p) => "category = $" + NatToString(p)
  }

  /** The WHERE clause: empty without filters, otherwise the filters joined
      by " AND ". */
  function WhereText(filters: seq<Filter>): (w: string)
    ensures filters == [] <==> w == ""
  {
    if filters == [] then ""
    else "WHERE " + Join(seq(|filters|, j requires 0 <= j < |filters| => FilterText(filters[j])), " AND ")
  }

  function CountText(filters: seq<Filter>): string {
    "SELECT COUNT(*)::text as count FROM items " + WhereText(filters)
  }

  function PageText(filters: seq<Filter>, limitParam: nat, offsetParam: nat): string {
    "SELECT * FROM items " + WhereText(filters) + " ORDER BY created_at DESC LIMIT $" + NatToString(limitParam)
      + " OFFSET $" + NatToString(offsetParam)
  }

  /** The filters for `cs`, numbered from `$1`. */
  function NumberedFilters(cs: seq<Condition>): seq<Filter> {
    seq(|cs|, j requires 0 <= j < |cs| => FilterFor(cs[j], j + 1))
  }

  function ConditionValues(cs: seq<Condition>): seq<SqlValue> {
    seq(|cs|, j requires 0 <= j < |cs| => ConditionValue(cs[j]))
  }

  /** The statements of `listItems`: the filters with their values (shared
      by the count query and the page query), the page query's LIMIT and
      OFFSET placeholders and the values bound to the page query. */
  datatype ListPlan = ListPlan(
    filters: seq<Filter>,
    values: seq<SqlValue>,
    limitParam: nat,
    offsetParam: nat,
    pageValues: seq<SqlValue>)

  /** The body of `listItems` up to the queries: each filter present adds a
      fragment and a value under the next placeholder; LIMIT and OFFSET take
      the two placeholders after them, bound to `pageSize` and
      `(page - 1) * pageSize`. */
  method BuildList(query: ItemQuery) returns (plan: ListPlan)
    ensures plan.filters == NumberedFilters(Conditions(query))
    ensures plan.values == ConditionValues(Conditions(query))
    ensures plan.limitParam == |Conditions(query)| + 1 && plan.offsetParam == |Conditions(query)| + 2
    ensures plan.pageValues == plan.values + [SqlInteger(query.pageSize), SqlInteger((query.page - 1) * query.pageSize)]
  {
    var filters: seq<Filter> := [];
    var values: seq<SqlValue> := [];
    var idx := 1;
    ghost var cs: seq<Condition> := [];
    if HasTextFilter(query) {
      var safeQ := SanitizeQuery(query.q.value);
      NumberedAppend(cs, Matches(SearchTerm(query.q.value)));
      filters := filters + [TextSearch(idx)];
      values := values + [SqlText(safeQ + ":*")];
      idx := idx + 1;
      cs := cs + [Matches(SearchTerm(query.q.value))];
    }
    assert cs == TextCondition(query);
    assert filters == NumberedFilters(cs) && values == ConditionValues(cs) && idx == |cs| + 1;
    if query.status.Some? {
      NumberedAppend(cs, StatusEquals(StatusName(query.status.value)));
      filters := filters + [StatusIs(idx)];
      values := values + [SqlText(StatusName(query.status.value))];
      idx := idx + 1;
      cs := cs + [StatusEquals(StatusName(query.status.value))];
    }
    assert cs == TextCondition(query) + StatusCondition(query);
    assert filters == NumberedFilters(cs) && values == ConditionValues(cs) && idx == |cs| + 1;
    if HasCategoryFilter(query) {
      NumberedAppend(cs, CategoryEquals(query.category.value));
      filters := filters + [CategoryIs(idx)];
      values := values + [SqlText(query.category.value)];
      idx := idx + 1;
      cs := cs + [CategoryEquals(query.category.value)];
    }
    assert cs == TextCondition(query) + StatusCondition(query) + CategoryCondition(query);
    assert filters == NumberedFilters(cs) && values == ConditionValues(cs) && idx == |cs| + 1;
    var offset := (query.page - 1) * query.pageSize;
    plan := ListPlan(filters, values, idx, idx + 1, values + [SqlInteger(query.pageSize), SqlInteger(offset)]);
  }

  lemma NumberedAppend(cs: seq<Condition>, c: Condition)
    ensures NumberedFilters(cs + [c]) == NumberedFilters(cs) + [FilterFor(c, |cs| + 1)]
    ensures ConditionValues(cs + [c]) == ConditionValues(cs) + [ConditionValue(c)]
  {
  }

  /** The search predicate: whether a row matches a `to_tsquery` term. The
      English stemming and prefix matching of Postgres full-text search are
      not modelled; the caller supplies the relation. */
  type TextMatch = (Item, string) -> bool

  /** A row passes the WHERE clause with `values` bound. A comparison with
      null is not true, so a row without category never equals one. */
  predicate RowPasses(row: Item, filters: seq<Filter>, values: seq<SqlValue>, matches: TextMatch) {
    forall j :: 0 <= j < |filters| ==> FilterPasses(row, filters[j], values, matches)
  }

  predicate FilterPasses(row: Item, f: Filter, values: seq<SqlValue>, matches: TextMatch) {
    && 1 <= f.param <= |values|
    && values[f.param - 1].SqlText?
    && var t := values[f.param - 1].text;
      match f
      case TextSearch(_) => matches(row, t)
      case StatusIs(_) => row.status == t
      case CategoryIs(_) => row.category == Some(t)
  }

  /** What a condition asks of a row. */
  predicate Holds(c: Condition, row: Item, matches: TextMatch) {
    match c
    case Matches(t) => matches(row, t)
    case StatusEquals(s) => row.status == s
    case CategoryEquals(s) => row.category == Some(s)
  }

  /** The filter as the listing promises it: every condition present holds. */
  predicate Satisfies(query: ItemQuery, row: Item, matches: TextMatch) {
    && (HasTextFilter(query) ==> matches(row, SearchTerm(query.q.value)))
    && (query.status.Some? ==> row.status == StatusName(query.status.value))
    && (HasCategoryFilter(query) ==> row.category == Some(query.category.value))
  }

  /** The numbered filters with their values pass exactly when every
      condition holds. */
  lemma PassesIffHolds(cs: seq<Condition>, row: Item, matches: TextMatch)
    ensures RowPasses(row, NumberedFilters(cs), ConditionValues(cs), matches)
      <==> forall j :: 0 <= j < |cs| ==> Holds(cs[j], row, matches)
  {
    var fs, vs := NumberedFilters(cs), ConditionValues(cs);
    forall j | 0 <= j < |cs|
      ensures FilterPasses(row, fs[j], vs, matches) <==> Holds(cs[j], row, matches)
    {
      assert fs[j].param == j + 1;
    }
  }

  predicate AllHold(cs: seq<Condition>, row: Item, matches: TextMatch) {
    forall j :: 0 <= j < |cs| ==> Holds(cs[j], row, matches)
  }

  lemma AllHoldAppend(a: seq<Condition>, b: seq<Condition>, row: Item, matches: TextMatch)
    ensures AllHold(a + b, row, matches) <==> AllHold(a, row, matches) && AllHold(b, row, matches)
  {
    assert forall j :: 0 <= j < |a| ==> (a + b)[j] == a[j];
    assert forall j :: 0 <= j < |b| ==> (a + b)[|a| + j] == b[j];
  }

  lemma AllHoldSingle(c: Condition, row: Item, matches: TextMatch)
    ensures AllHold([c], row, matches) <==> Holds(c, row, matches)
  {
    assert [c][0] == c;
  }

  /** The conditions of a query all hold exactly when the row satisfies it. */
  lemma ConditionsIffSatisfies(query: ItemQuery, row: Item, matches: TextMatch)
    ensures (forall j :: 0 <= j < |Conditions(query)| ==> Holds(Conditions(query)[j], row, matches))
      <==> Satisfies(query, row, matches)
  {
    var t, s, c := TextCondition(query), StatusCondition(query), CategoryCondition(query);
    AllHoldAppend(t, s, row, matches);
    AllHoldAppend(t + s, c, row, matches);
    if HasTextFilter(query) {
      AllHoldSingle(Matches(SearchTerm(query.q.value)), row, matches);
    }
    if query.status.Some? {
      AllHoldSingle(StatusEquals(StatusName(query.status.value)), row, matches);
    }
    if HasCategoryFilter(query) {
      AllHoldSingle(CategoryEquals(query.category.value), row, matches);
    }
    assert AllHold(Conditions(query), row, matches) <==> Satisfies(query, row, matches);
  }

  /** The WHERE clause `listItems` builds selects exactly the rows that
      satisfy the query's filter. */
  lemma FiltersMeanSatisfies(query: ItemQuery, row: Item, matches: TextMatch)
    ensures RowPasses(row, NumberedFilters(Conditions(query)), ConditionValues(Conditions(query)), matches)
      <==> Satisfies(query, row, matches)
  {
    PassesIffHolds(Conditions(query), row, matches);
    ConditionsIffSatisfies(query, row, matches);
  }

  /** Rows ordered by `created_at DESC`. Ties may come in any order. */
  predicate NewestFirst(s: seq<Item>) {
    forall i, j :: 0 <= i < j < |s| ==> s[i].createdAt >= s[j].createdAt
  }

  /** `ordered` is an ordering of exactly the rows `m`, newest first. */
  predicate IsListing(ordered: seq<Item>, m: set<Item>) {
    NewestFirst(ordered) && multiset(ordered) == multiset(m)
  }

  /** A listing holds only rows of its set, and as many as the set has. */
  lemma ListingMembers(ordered: seq<Item>, m: set<Item>)
    requires IsListing(ordered, m)
    ensures forall k :: 0 <= k < |ordered| ==> ordered[k] in m
    ensures |ordered| == |m|
  {
    forall k | 0 <= k < |ordered| ensures ordered[k] in m {
      assert ordered[k] in multiset(ordered);
    }
    assert |ordered| == |multiset(ordered)| == |multiset(m)| == |m|;
  }

  /** Inserts a row into a newest-first sequence before the first row that
      is not newer. */
  function InsertNewestFirst(s: seq<Item>, x: Item): (r: seq<Item>)
    ensures |r| == |s| + 1
    ensures r[0] == x || (|s| > 0 && r[0] == s[0])
  {
    if s == [] || x.createdAt >= s[0].createdAt then [x] + s
    else [s[0]] + InsertNewestFirst(s[1..], x)
  }

  /** Inserting keeps a sequence newest first. */
  lemma {:induction false} InsertKeepsNewestFirst(s: seq<Item>, x: Item)
    requires NewestFirst(s)
    ensures NewestFirst(InsertNewestFirst(s, x))
  {
    if s == [] || x.createdAt >= s[0].createdAt {
      ConsNewestFirst(x, s);
    } else {
      var rest := InsertNewestFirst(s[1..], x);
      InsertKeepsNewestFirst(s[1..], x);
      assert |s| > 1 ==> s[0].createdAt >= s[1].createdAt;
      ConsNewestFirst(s[0], rest);
    }
  }

  /** Inserting adds the row and nothing else. */
  lemma {:induction false} InsertAddsRow(s: seq<Item>, x: Item)
    ensures multiset(InsertNewestFirst(s, x)) == multiset(s) + multiset{x}
  {
    if s != [] && x.createdAt < s[0].createdAt {
      var rest := InsertNewestFirst(s[1..], x);
      InsertAddsRow(s[1..], x);
      assert s == [s[0]] + s[1..];
      assert multiset(s) == multiset{s[0]} + multiset(s[1..]);
      assert multiset([s[0]] + rest) == multiset{s[0]} + multiset(rest);
    }
  }

  /** A row no older than the head of a newest-first sequence can go in
      front of it. */
  lemma ConsNewestFirst(a: Item, t: seq<Item>)
    requires NewestFirst(t)
    requires t == [] || a.createdAt >= t[0].createdAt
    ensures NewestFirst([a] + t)
  {
    var r := [a] + t;
    forall i, j | 0 <= i < j < |r|
      ensures r[i].createdAt >= r[j].createdAt
    {
      if i == 0 {
        assert r[j] == t[j - 1];
        assert t[0].createdAt >= t[j - 1].createdAt || j == 1;
      } else {
        assert r[i] == t[i - 1] && r[j] == t[j - 1];
      }
    }
  }

  /** `LIMIT limit OFFSET offset` over `s`. */
  function Window(s: seq<Item>, offset: nat, limit: nat): (w: seq<Item>)
    ensures |w| <= limit
    ensures |w| == if offset >= |s| then 0 else if offset + limit <= |s| then limit else |s| - offset
    ensures forall k :: 0 <= k < |w| ==> offset + k < |s| && w[k] == s[offset + k]
    ensures offset + limit <= |s| ==> w == s[offset..offset + limit]
  {
    var lo := if offset <= |s| then offset else |s|;
    var hi := if offset + limit <= |s| then offset + limit else |s|;
    s[lo..hi]
  }

  /** The second page of five, once ten rows exist, is the sixth to the
      tenth row of the ordering. */
  lemma SecondPageOfFive(s: seq<Item>)
    requires |s| >= 10
    ensures |Window(s, (2 - 1) * 5, 5)| == 5
    ensures Window(s, (2 - 1) * 5, 5) == s[5..10]
  {
  }

  /** The rows that satisfy the filter. */
  function MatchingRows(rows: map<int, Item>, query: ItemQuery, matches: TextMatch): set<Item> {
    set row | row in rows.Values && Satisfies(query, row, matches)
  }

  /** The rows that pass a WHERE clause. */
  function Passing(rows: map<int, Item>, filters: seq<Filter>, values: seq<SqlValue>, matches: TextMatch): set<Item> {
    set row | row in rows.Values && RowPasses(row, filters, values, matches)
  }

  /** The rows the built WHERE clause selects are the rows that satisfy the
      query. */
  lemma PassingIsMatching(rows: map<int, Item>, query: ItemQuery, matches: TextMatch)
    ensures Passing(rows, NumberedFilters(Conditions(query)), ConditionValues(Conditions(query)), matches)
      == MatchingRows(rows, query, matches)
  {
    forall row | row in rows.Values {
      FiltersMeanSatisfies(query, row, matches);
    }
  }

  /** `SELECT COUNT(*) FROM items WHERE ...`: a scan of the table that
      counts the rows passing the WHERE clause. */
  method Count(rows: map<int, Item>, filters: seq<Filter>, values: seq<SqlValue>, matches: TextMatch) returns (n: nat)
    ensures n == |Passing(rows, filters, values, matches)|
  {
    n := 0;
    var remaining := rows.Values;
    ghost var seen: set<Item> := {};
    while remaining != {}
      invariant seen + remaining == rows.Values && seen !! remaining
      invariant n == |PassingAmong(seen, filters, values, matches)|
      decreases |remaining|
    {
      var row :| row in remaining;
      CountStep(rows.Values, filters, values, matches, seen, remaining, row);
      if RowPasses(row, filters, values, matches) {
        n := n + 1;
      }
      remaining := remaining - {row};
      seen := seen + {row};
    }
    PassingAmongAll(seen, rows, filters, values, matches);
  }

  /** The rows among `seen` that pass a WHERE clause. */
  function PassingAmong(seen: set<Item>, filters: seq<Filter>, values: seq<SqlValue>, matches: TextMatch): (r: set<Item>)
    ensures r <= seen
  {
    set row | row in seen && RowPasses(row, filters, values, matches)
  }

  /** Taking one more row in counts it exactly when it passes. */
  lemma PassingAmongAdd(seen: set<Item>, row: Item, filters: seq<Filter>, values: seq<SqlValue>, matches: TextMatch)
    requires row !in seen
    ensures RowPasses(row, filters, values, matches) ==>
      && PassingAmong(seen + {row}, filters, values, matches) == PassingAmong(seen, filters, values, matches) + {row}
      && |PassingAmong(seen + {row}, filters, values, matches)| == |PassingAmong(seen, filters, values, matches)| + 1
    ensures !RowPasses(row, filters, values, matches) ==>
      PassingAmong(seen + {row}, filters, values, matches) == PassingAmong(seen, filters, values, matches)
  {
    assert row !in PassingAmong(seen, filters, values, matches);
  }

  /** One step of the count: `row` moves from the remaining rows to the
      seen ones, and adds one to the count when it passes. */
  lemma CountStep(all: set<Item>, filters: seq<Filter>, values: seq<SqlValue>, matches: TextMatch,
                  seen: set<Item>, remaining: set<Item>, row: Item)
    requires seen + remaining == all && seen !! remaining && row in remaining
    ensures (seen + {row}) + (remaining - {row}) == all && (seen + {row}) !! (remaining - {row})
    ensures |remaining - {row}| < |remaining|
    ensures |PassingAmong(seen + {row}, filters, values, matches)|
      == |PassingAmong(seen, filters, values, matches)| + if RowPasses(row, filters, values, matches) then 1 else 0
  {
    PassingAmongAdd(seen, row, filters, values, matches);
  }

  lemma PassingAmongAll(seen: set<Item>, rows: map<int, Item>, filters: seq<Filter>, values: seq<SqlValue>, matches: TextMatch)
    requires seen == rows.Values
    ensures PassingAmong(seen, filters, values, matches) == Passing(rows, filters, values, matches)
  {
  }

  /** `SELECT * FROM items WHERE ... ORDER BY created_at DESC`: the passing
      rows, each once, newest first. */
  method SelectNewestFirst(rows: map<int, Item>, filters: seq<Filter>, values: seq<SqlValue>, matches: TextMatch)
    returns (ordered: seq<Item>)
    ensures IsListing(ordered, Passing(rows, filters, values, matches))
  {
    ordered := [];
    var remaining := rows.Values;
    ghost var seen: set<Item> := {};
    ghost var chosen: set<Item> := {};
    while remaining != {}
      invariant seen + remaining == rows.Values && seen !! remaining
      invariant chosen == PassingAmong(seen, filters, values, matches)
      invariant IsListing(ordered, chosen)
      decreases |remaining|
    {
      var row :| row in remaining;
      SelectStep(rows.Values, filters, values, matches, seen, remaining, chosen, ordered, row);
      if RowPasses(row, filters, values, matches) {
        ordered := InsertNewestFirst(ordered, row);
        chosen := chosen + {row};
      }
      remaining := remaining - {row};
      seen := seen + {row};
    }
    assert seen == rows.Values;
  }

  /** One step of the scan: `row` moves from the remaining rows to the
      seen ones, and joins the listing when it passes. */
  lemma SelectStep(all: set<Item>, filters: seq<Filter>, values: seq<SqlValue>, matches: TextMatch,
                   seen: set<Item>, remaining: set<Item>, chosen: set<Item>, ordered: seq<Item>, row: Item)
    requires seen + remaining == all && seen !! remaining && row in remaining
    requires chosen == PassingAmong(seen, filters, values, matches) && IsListing(ordered, chosen)
    ensures (seen + {row}) + (remaining - {row}) == all && (seen + {row}) !! (remaining - {row})
    ensures |remaining - {row}| < |remaining|
    ensures RowPasses(row, filters, values, matches) ==>
      && chosen + {row} == PassingAmong(seen + {row}, filters, values, matches)
      && IsListing(InsertNewestFirst(ordered, row), chosen + {row})
    ensures !RowPasses(row, filters, values, matches) ==> chosen == PassingAmong(seen + {row}, filters, values, matches)
  {
    PassingAmongAdd(seen, row, filters, values, matches);
    if RowPasses(row, filters, values, matches) {
      InsertListing(ordered, chosen, row);
    }
  }

  /** Inserting a new row into a listing of `chosen` lists `chosen` and the row. */
  lemma InsertListing(ordered: seq<Item>, chosen: set<Item>, x: Item)
    requires IsListing(ordered, chosen) && x !in chosen
    ensures IsListing(InsertNewestFirst(ordered, x), chosen + {x})
  {
    InsertKeepsNewestFirst(ordered, x);
    InsertAddsRow(ordered, x);
    assert multiset(chosen + {x}) == multiset(chosen) + multiset{x};
  }

  /** A LIMIT or OFFSET value is bound as a bigint. */
  predicate Int64Fits(n: int) {
    MinInt64 <= n <= MaxInt64
  }

  /** The first error the two statements of `listItems` raise. The count
      query runs first; planning it evaluates `to_tsquery` on the bound
      search term. The page query then binds LIMIT and OFFSET as bigints
      and only then refuses negative values. */
  function ListFailure(query: ItemQuery, tsParses: TsParses): (r: Option<DbError>)
    ensures r.None? <==>
      && (HasTextFilter(query) ==> tsParses(SearchTerm(query.q.value)))
      && 0 <= query.pageSize <= MaxInt64
      && 0 <= (query.page - 1) * query.pageSize <= MaxInt64
  {
    var offset := (query.page - 1) * query.pageSize;
    if HasTextFilter(query) && !tsParses(SearchTerm(query.q.value)) then Some(TsQuerySyntax(SearchTerm(query.q.value)))
    else if !Int64Fits(query.pageSize) then Some(BigintOutOfRange(query.pageSize))
    else if !Int64Fits(offset) then Some(BigintOutOfRange(offset))
    else if query.pageSize < 0 then Some(NegativeLimit)
    else if offset < 0 then Some(NegativeOffset)
    else None
  }

  /** A two-word search fails the listing with the tsquery syntax error. */
  lemma TwoWordSearchFails(tsParses: TsParses)
    requires TsQueryRules(tsParses)
    ensures var query := ItemQuery(Some("red widget"), 1, 10, None, None);
      && HasTextFilter(query)
      && ListFailure(query, tsParses) == Some(TsQuerySyntax("red widget:*"))
  {
    SearchTermCanFail();
    SpacedWordsFail("red widget", tsParses);
    assert !IsJsSpace("red widget"[0]);
  }

  /** The result envelope of `listItems`. */
  datatype ListResult = ListResult(items: seq<Item>, total: int, page: int, pageSize: int)

  // ---------------------------------------------------------------------
  // The table

  /** The `items` table, with its SERIAL id sequence. */
  class ItemTable {
    var rows: map<int, Item>
    var nextId: int

    /** Every row is stored under its own id, and ids come from the
        sequence, which only moves forward and stops after the largest
        INT. */
    ghost predicate Valid()
      reads this
    {
      && 1 <= nextId <= MaxInt32 + 1
      && forall id :: id in rows ==> rows[id].id == id && 1 <= id < nextId
    }

    constructor ()
      ensures Valid() && rows == map[] && nextId == 1
    {
      rows := map[];
      nextId := 1;
    }

    /** `createItem`: the values are bound first, so a quantity outside
        INT fails before the id column's default runs; then the INSERT
        takes the next id of the sequence (used up even when a constraint
        fails afterwards, and refused once the sequence is past the largest
        INT) and the current time for both timestamps, and returns the
        stored row. */
    method Create(data: CreateInput, now: int) returns (r: Result<Item, DbError>)
      requires Valid()
      modifies this
      ensures Valid()
      ensures nextId == if QuantityBinds(data) && old(nextId) <= MaxInt32 then old(nextId) + 1 else old(nextId)
      ensures !QuantityBinds(data) ==> r == Err(IntegerOutOfRange(data.quantity))
      ensures QuantityBinds(data) && old(nextId) > MaxInt32 ==> r == Err(SequenceExhausted)
      ensures r.Ok? <==> FitsTable(data) && old(nextId) <= MaxInt32
      ensures r.Ok? ==> r.value == NewRow(data, old(nextId), now)
      ensures r.Ok? ==> r.value.id !in old(rows) && rows == old(rows)[r.value.id := r.value]
      ensures r.Err? ==> rows == old(rows)
    {
      var values := CreateParams(data);
      CreateEntriesFit(data);
      var bindError := BindFailure(InsertEntries(values));
      if bindError.Some? {
        return Err(bindError.value);
      }
      // nextval('items_id_seq'), the default of the id column
      if nextId > MaxInt32 {
        return Err(SequenceExhausted);
      }
      var id := nextId;
      nextId := nextId + 1;
      CreateStoresNewRow(data, id, now);
      r := RunInsert(values, id, now);
      if r.Ok? {
        rows := rows[id := r.value];
      }
    }

    /** `getItemById`: the row with that id, or none; an id outside the
        range of the `id` column cannot be bound. */
    method GetById(id: int) returns (r: Result<Option<Item>, DbError>)
      requires Valid()
      ensures r.Err? <==> !IdFits(id)
      ensures r.Err? ==> r.error == IntegerOutOfRange(id)
      ensures r.Ok? ==> (r.value.Some? <==> id in rows)
      ensures r.Ok? && r.value.Some? ==> r.value.value == rows[id] && r.value.value.id == id
    {
      if !IdFits(id) {
        return Err(IntegerOutOfRange(id));
      }
      if id in rows {
        r := Ok(Some(rows[id]));
      } else {
        r := Ok(None);
      }
    }

    /** `updateItem`: an input with no fields issues no UPDATE and returns
        what `getItemById` returns; otherwise the built UPDATE runs. On
        success a missing id yields no row and changes nothing, and an
        existing row is replaced by its patch, which is returned. */
    method Update(id: int, data: UpdateInput) returns (r: Result<Option<Item>, DbError>)
      requires Valid()
      modifies this
      ensures Valid() && nextId == old(nextId)
      ensures r.Ok? <==> AllBind(Entries(data)) && IdFits(id) && (id in old(rows) ==> AllStorable(Entries(data)))
      ensures r.Ok? ==> (r.value.Some? <==> id in old(rows))
      ensures r.Ok? && id in old(rows) ==>
        r.value.value == Patch(old(rows)[id], data) && rows == old(rows)[id := r.value.value]
      ensures r.Ok? && id !in old(rows) ==> rows == old(rows)
      ensures r.Err? ==> rows == old(rows)
    {
      var stmt, values := BuildUpdate(id, Entries(data));
      if stmt.None? {
        if id in rows {
          EmptyUpdateIsIdentity(data, rows[id]);
        }
        r := GetById(id);
        return;
      }
      UpdateRunsAsPatch(rows, id, data);
      var outcome := RunUpdate(rows, stmt.value, values);
      match outcome
      case Err(e) =>
        r := Err(e);
      case Ok(o) =>
        rows := o.rows;
        r := Ok(o.returned);
    }

    /** `deleteItem`: whether a row was removed; the row is gone after. */
    method Delete(id: int) returns (r: Result<bool, DbError>)
      requires Valid()
      modifies this
      ensures Valid() && nextId == old(nextId)
      ensures r.Err? <==> !IdFits(id)
      ensures r.Err? ==> r.error == IntegerOutOfRange(id) && rows == old(rows)
      ensures r.Ok? ==> (r.value <==> id in old(rows)) && rows == old(rows) - {id}
    {
      if !IdFits(id) {
        return Err(IntegerOutOfRange(id));
      }
      r := Ok(id in rows);
      rows := rows - {id};
    }

    /** `listItems`: counts the rows that satisfy the filter and returns one
        page of them, newest first, with `page` and `pageSize` echoed. A
        search term `to_tsquery` rejects, and a LIMIT or OFFSET that is
        negative or beyond bigint, are errors of the database. */
    method List(query: ItemQuery, matches: TextMatch, tsParses: TsParses) returns (r: Result<ListResult, DbError>)
      requires Valid()
      ensures r.Err? <==> ListFailure(query, tsParses).Some?
      ensures r.Err? ==> r.error == ListFailure(query, tsParses).value
      ensures r.Ok? ==>
        && r.value.total == |MatchingRows(rows, query, matches)|
        && r.value.page == query.page && r.value.pageSize == query.pageSize
        && exists ordered :: IsListing(ordered, MatchingRows(rows, query, matches))
             && r.value.items == Window(ordered, (query.page - 1) * query.pageSize, query.pageSize)
      ensures r.Ok? ==> forall k :: 0 <= k < |r.value.items| ==>
        r.value.items[k] in rows.Values && Satisfies(query, r.value.items[k], matches)
    {
      var plan := BuildList(query);
      // planning the count query evaluates to_tsquery on the bound term
      if HasTextFilter(query) {
        assert Conditions(query)[0] == Matches(SearchTerm(query.q.value));
        var term := plan.values[0].text;
        if !tsParses(term) {
          return Err(TsQuerySyntax(term));
        }
      }
      var limit := plan.pageValues[|plan.pageValues| - 2].n;
      var offset := plan.pageValues[|plan.pageValues| - 1].n;
      if !Int64Fits(limit) {
        return Err(BigintOutOfRange(limit));
      }
      if !Int64Fits(offset) {
        return Err(BigintOutOfRange(offset));
      }
      if limit < 0 {
        return Err(NegativeLimit);
      }
      if offset < 0 {
        return Err(NegativeOffset);
      }
      PassingIsMatching(rows, query, matches);
      ghost var target := MatchingRows(rows, query, matches);
      // the count query: COUNT(*) comes back as text and is read with parseInt
      var count := Count(rows, plan.filters, plan.values, matches);
      var countText := NatToString(count);
      ParseNatText(count);
      var parsed := ParseInt(countText);
      var total := if parsed.Some? then parsed.value else 0;
      // the page query
      var ordered := SelectNewestFirst(rows, plan.filters, plan.values, matches);
      var items := Window(ordered, offset, limit);
      assert IsListing(ordered, target);
      ListingMembers(ordered, target);
      assert forall k :: 0 <= k < |items| ==> items[k] in target;
      r := Ok(ListResult(items, total, query.page, query.pageSize));
    }
  }

  /** A validated query fails the listing in exactly two ways: a search
      term `to_tsquery` rejects, or a page so large that the offset is
      beyond bigint, since page has no upper bound. Its LIMIT is between 1
      and 100 and its offset is never negative. */
  lemma ValidQueryFailures(body: QueryBody, toNumber: Json -> Num, tsParses: TsParses)
    requires ParseQuery(body, toNumber).Ok?
    ensures var q := ParseQuery(body, toNumber).value;
      ListFailure(q, tsParses).Some? <==>
        || (HasTextFilter(q) && !tsParses(SearchTerm(q.q.value)))
        || (q.page - 1) * q.pageSize > MaxInt64
  {
    QueryCarriesSentValues(body, toNumber);
    var q := ParseQuery(body, toNumber).value;
    assert q.page - 1 >= 0;
  }

  /** A page the schema accepts can still overflow: page 10^18 with the
      default page size of 10 puts the offset beyond bigint. */
  lemma HugePageOverflows(toNumber: Json -> Num, tsParses: TsParses)
    requires toNumber(JString("1000000000000000000")) == Finite(1000000000000000000.0)
    ensures var body := QueryBody(Undefined, JString("1000000000000000000"), Undefined, Undefined, Undefined);
      && ParseQuery(body, toNumber) == Ok(ItemQuery(None, 1000000000000000000, 10, None, None))
      && ListFailure(ParseQuery(body, toNumber).value, tsParses) == Some(BigintOutOfRange(9999999999999999990))
  {
    var body := QueryBody(Undefined, JString("1000000000000000000"), Undefined, Undefined, Undefined);
    assert QueryAcceptable(body, toNumber);
  }
}

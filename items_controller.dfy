/** The route handlers of `/api/items`: each validates its input, calls the
    service and answers, or forwards what went wrong to the error handler.
    The service is the table of `ItemsService`; its database errors are
    forwarded as errors with a message and no status. */
module ItemsController {
  import opened Base
  import opened Text
  import opened ItemsSchema
  import opened ItemsService
  import opened ErrorHandler

  /** The JSON bodies a handler sends. */
  datatype Body =
    | ItemJson(item: Item)
    | PageJson(page: ListResult)
    | ErrorJson(error: ErrorBody)
    | NoBody

  datatype Response = Response(status: int, body: Body)

  /** What a handler does with a request: answer it, or call `next(err)`. */
  datatype Outcome = Sent(response: Response) | Forwarded(err: Thrown)

  /** The answer the client gets once the error handler has run. */
  function Deliver(o: Outcome, env: NodeEnv): (r: Response)
    ensures o.Sent? ==> r == o.response
    ensures o.Forwarded? ==> r.status == HandleError(o.err, env).response.status
    ensures o.Forwarded? ==> r.body == ErrorJson(HandleError(o.err, env).response.body)
  {
    match o
    case Sent(r) => r
    case Forwarded(err) =>
      var h := HandleError(err, env).response;
      Response(h.status, ErrorJson(h.body))
  }

  /** A database error as the error handler sees it: the driver's error has
      a message and no `status`. */
  function DbThrown(e: DbError): (t: Thrown)
    ensures t.Failure? && t.status.None? && t.message == Some(DbMessage(e))
  {
    Failure(None, Some(DbMessage(e)))
  }

  function ErrorReply(status: int, message: string): Response {
    Response(status, ErrorJson(ErrorBody(message, None)))
  }

  const InvalidId := ErrorReply(400, "Invalid id")
  const ItemNotFound := ErrorReply(404, "Item not found")

  /** The id of a route, as the handlers read it: `parseInt(id, 10)`, and
      the guard `Number.isFinite`, which refuses NaN and also a number too
      large for a double. */
  function IdOf(idParam: string): (r: Option<int>)
    ensures r.Some? ==> ParseInt(idParam) == r && FiniteAsNumber(r.value)
    ensures r.None? ==> ParseInt(idParam).None? || !FiniteAsNumber(ParseInt(idParam).value)
  {
    match ParseInt(idParam)
    case None => None
    case Some(n) => if FiniteAsNumber(n) then Some(n) else None
  }

  /** The decimal text of an integer names that integer, unless it is too
      large to be a finite number. */
  lemma IdOfText(n: int)
    ensures IdOf(IntToString(n)) == if FiniteAsNumber(n) then Some(n) else None
  {
    ParseIntText(n);
  }

  /** A 310-digit id, 10^309, is not a finite number, so it is answered as
      an invalid id rather than reaching the database. */
  lemma HugeIdIsInvalid()
    ensures IdOf(IntToString(1000000000000000000000000000000000000000000000000000000000000000000000000000000000000000000000000000000000000000000000000000000000000000000000000000000000000000000000000000000000000000000000000000000000000000000000000000000000000000000000000000000000000000000000000000000000000000000000000000000000000000000000)) == None
  {
    IdOfText(1000000000000000000000000000000000000000000000000000000000000000000000000000000000000000000000000000000000000000000000000000000000000000000000000000000000000000000000000000000000000000000000000000000000000000000000000000000000000000000000000000000000000000000000000000000000000000000000000000000000000000000000);
  }

  /** `handleList`: validate the query string, then answer 200 with one
      page of the matching items, or forward what the database refused. */
  method HandleList(table: ItemTable, query: QueryBody, toNumber: Json -> Num, matches: TextMatch, tsParses: TsParses)
    returns (o: Outcome)
    requires table.Valid()
    ensures ParseQuery(query, toNumber).Err? ==> o == Forwarded(ValidationFailed(ParseQuery(query, toNumber).error))
    ensures ParseQuery(query, toNumber).Ok? ==>
      var failure := ListFailure(ParseQuery(query, toNumber).value, tsParses);
      && (failure.Some? ==> o == Forwarded(DbThrown(failure.value)))
      && (failure.None? ==> o.Sent? && o.response.status == 200 && o.response.body.PageJson?)
    ensures o.Sent? ==>
      var q := ParseQuery(query, toNumber).value;
      var page := o.response.body.page;
      && page.total == |MatchingRows(table.rows, q, matches)|
      && page.page == q.page && page.pageSize == q.pageSize
      && (exists ordered :: IsListing(ordered, MatchingRows(table.rows, q, matches))
           && page.items == Window(ordered, (q.page - 1) * q.pageSize, q.pageSize))
  {
    var parsed := ParseQuery(query, toNumber);
    if parsed.Err? {
      return Forwarded(ValidationFailed(parsed.error));
    }
    var result := table.List(parsed.value, matches, tsParses);
    match result
    case Err(e) =>
      o := Forwarded(DbThrown(e));
    case Ok(page) =>
      o := Sent(Response(200, PageJson(page)));
  }

  /** `handleGet`: 400 for an id that is not a number, 404 for a missing
      item, 200 with the item otherwise. */
  method HandleGet(table: ItemTable, idParam: string) returns (o: Outcome)
    requires table.Valid()
    ensures IdOf(idParam).None? ==> o == Sent(InvalidId)
    ensures IdOf(idParam).Some? ==>
      var id := IdOf(idParam).value;
      && (!IdFits(id) ==> o == Forwarded(DbThrown(IntegerOutOfRange(id))))
      && (IdFits(id) && id in table.rows ==> o == Sent(Response(200, ItemJson(table.rows[id]))))
      && (IdFits(id) && id !in table.rows ==> o == Sent(ItemNotFound))
  {
    var id := IdOf(idParam);
    if id.None? {
      return Sent(InvalidId);
    }
    var found := table.GetById(id.value);
    match found
    case Err(e) =>
      o := Forwarded(DbThrown(e));
    case Ok(None) =>
      o := Sent(ItemNotFound);
    case Ok(Some(item)) =>
      o := Sent(Response(200, ItemJson(item)));
  }

  /** `handleCreate`: validate the body, insert, answer 201 with the stored
      row. A body the schema rejects reaches neither the table nor its id
      sequence. */
  method HandleCreate(table: ItemTable, body: ItemBody, toNumber: Json -> Num, now: int) returns (o: Outcome)
    requires table.Valid()
    modifies table
    ensures table.Valid()
    ensures ParseCreate(body, toNumber).Err? ==>
      && o == Forwarded(ValidationFailed(ParseCreate(body, toNumber).error))
      && table.rows == old(table.rows) && table.nextId == old(table.nextId)
    ensures ParseCreate(body, toNumber).Ok? ==>
      var data := ParseCreate(body, toNumber).value;
      var idLeft := old(table.nextId) <= MaxInt32;
      && table.nextId == (if QuantityBinds(data) && idLeft then old(table.nextId) + 1 else old(table.nextId))
      && (!QuantityBinds(data) ==> o == Forwarded(DbThrown(IntegerOutOfRange(data.quantity))))
      && (QuantityBinds(data) && !idLeft ==> o == Forwarded(DbThrown(SequenceExhausted)))
      && (FitsTable(data) && idLeft ==>
           && o == Sent(Response(201, ItemJson(NewRow(data, old(table.nextId), now))))
           && table.rows == old(table.rows)[old(table.nextId) := NewRow(data, old(table.nextId), now)])
      && (!(FitsTable(data) && idLeft) ==> o.Forwarded? && table.rows == old(table.rows))
  {
    var parsed := ParseCreate(body, toNumber);
    if parsed.Err? {
      return Forwarded(ValidationFailed(parsed.error));
    }
    var created := table.Create(parsed.value, now);
    match created
    case Err(e) =>
      o := Forwarded(DbThrown(e));
    case Ok(item) =>
      o := Sent(Response(201, ItemJson(item)));
  }

  /** `handleUpdate`: the id is checked before the body is parsed; then
      404 when no row has the id, 200 with the patched row otherwise. */
  method HandleUpdate(table: ItemTable, idParam: string, body: ItemBody, toNumber: Json -> Num) returns (o: Outcome)
    requires table.Valid()
    modifies table
    ensures table.Valid() && table.nextId == old(table.nextId)
    ensures IdOf(idParam).None? ==> o == Sent(InvalidId) && table.rows == old(table.rows)
    ensures IdOf(idParam).Some? && ParseUpdate(body, toNumber).Err? ==>
      o == Forwarded(ValidationFailed(ParseUpdate(body, toNumber).error)) && table.rows == old(table.rows)
    ensures IdOf(idParam).Some? && ParseUpdate(body, toNumber).Ok? ==>
      var id := IdOf(idParam).value;
      var data := ParseUpdate(body, toNumber).value;
      && (o.Forwarded? ==> table.rows == old(table.rows))
      && (o.Forwarded? <==> !IdFits(id) || !AllBind(Entries(data)) || (id in old(table.rows) && !AllStorable(Entries(data))))
      && (o.Sent? && id in old(table.rows) ==>
           && o == Sent(Response(200, ItemJson(Patch(old(table.rows)[id], data))))
           && table.rows == old(table.rows)[id := Patch(old(table.rows)[id], data)])
      && (o.Sent? && id !in old(table.rows) ==> o == Sent(ItemNotFound) && table.rows == old(table.rows))
  {
    var id := IdOf(idParam);
    if id.None? {
      return Sent(InvalidId);
    }
    var parsed := ParseUpdate(body, toNumber);
    if parsed.Err? {
      return Forwarded(ValidationFailed(parsed.error));
    }
    var updated := table.Update(id.value, parsed.value);
    match updated
    case Err(e) =>
      o := Forwarded(DbThrown(e));
    case Ok(None) =>
      o := Sent(ItemNotFound);
    case Ok(Some(item)) =>
      o := Sent(Response(200, ItemJson(item)));
  }

  /** `handleDelete`: 204 without a body when a row was removed, 404 when
      there was none. */
  method HandleDelete(table: ItemTable, idParam: string) returns (o: Outcome)
    requires table.Valid()
    modifies table
    ensures table.Valid() && table.nextId == old(table.nextId)
    ensures IdOf(idParam).None? ==> o == Sent(InvalidId) && table.rows == old(table.rows)
    ensures IdOf(idParam).Some? ==>
      var id := IdOf(idParam).value;
      && (!IdFits(id) ==> o == Forwarded(DbThrown(IntegerOutOfRange(id))) && table.rows == old(table.rows))
      && (IdFits(id) && id in old(table.rows) ==> o == Sent(Response(204, NoBody)))
      && (IdFits(id) && id !in old(table.rows) ==> o == Sent(ItemNotFound))
      && (IdFits(id) ==> table.rows == old(table.rows) - {id})
  {
    var id := IdOf(idParam);
    if id.None? {
      return Sent(InvalidId);
    }
    var deleted := table.Delete(id.value);
    match deleted
    case Err(e) =>
      o := Forwarded(DbThrown(e));
    case Ok(false) =>
      o := Sent(ItemNotFound);
    case Ok(true) =>
      o := Sent(Response(204, NoBody));
  }

  /** A created item can be read back under the id it was given, as the
      decimal text a client would put in the URL; after it is deleted the
      same URL answers 404, and so does a second delete. */
  method CreateReadDelete(table: ItemTable, body: ItemBody, toNumber: Json -> Num, now: int)
    returns (created: Outcome, read: Outcome, removed: Outcome, again: Outcome, removedAgain: Outcome)
    requires table.Valid()
    requires ParseCreate(body, toNumber).Ok? && FitsTable(ParseCreate(body, toNumber).value)
    requires table.nextId <= MaxInt32
    modifies table
    ensures table.Valid()
    ensures var item := NewRow(ParseCreate(body, toNumber).value, old(table.nextId), now);
      && created == Sent(Response(201, ItemJson(item)))
      && read == Sent(Response(200, ItemJson(item)))
    ensures removed == Sent(Response(204, NoBody))
    ensures again == Sent(ItemNotFound) && removedAgain == Sent(ItemNotFound)
    ensures table.rows == old(table.rows) && table.nextId == old(table.nextId) + 1
  {
    var id := table.nextId;
    var data := ParseCreate(body, toNumber).value;
    CreateEntriesFit(data);
    created := HandleCreate(table, body, toNumber, now);
    assert table.rows == old(table.rows)[id := NewRow(data, id, now)];
    IdOfText(id);
    var url := IntToString(id);
    assert IdOf(url) == Some(id) && IdFits(id);
    read := HandleGet(table, url);
    removed := HandleDelete(table, url);
    assert table.rows == old(table.rows) by {
      assert id !in old(table.rows);
    }
    again := HandleGet(table, url);
    removedAgain := HandleDelete(table, url);
  }

  /** A request the schemas reject is answered with 400 and the flattened
      issues, never with a success status. */
  lemma RejectedIsBadRequest(issues: seq<Issue>, env: NodeEnv)
    ensures Deliver(Forwarded(ValidationFailed(issues)), env).status == 400
    ensures Deliver(Forwarded(ValidationFailed(issues)), env).body
      == ErrorJson(ErrorBody("ValidationError", Some(Details([], FieldErrors(issues)))))
  {
  }

  /** A database error is answered with 500 and the database's message. */
  lemma DbErrorIsServerError(e: DbError, env: NodeEnv)
    ensures Deliver(Forwarded(DbThrown(e)), env) == Response(500, ErrorJson(ErrorBody(DbMessage(e), None)))
  {
  }
}

# Items CRUD: a verified model

This project models the core of a small inventory application: an Express
backend that stores `Item` records in a PostgreSQL table `items`, and a React
frontend that lists, searches, pages, creates and edits them.

The model covers these parts:

- **The three zod schemas of the API** (`ItemsSchema`). These are the create
  body, the update body and the list query. Each is written as a validator
  that returns the parsed input with zod's defaults, or the issues zod
  reports. Each validator is paired with a declarative predicate of its
  bounds, and proved to accept exactly the inputs that satisfy it.
- **The service** (`ItemsService`). This covers the statements the service
  builds: the seven-value INSERT, the dynamic `SET` clause of an update, and
  the dynamic `WHERE` clause with `LIMIT`/`OFFSET` of a listing. It also
  covers what each statement does to the table. The table is a class holding
  a map from id to row and its SERIAL id sequence, and it applies the
  column types and constraints of the `items` table.
- **The route handlers and the error middleware** (`ItemsController`,
  `ErrorHandler`). A handler's result is an `Outcome`: it either sends a
  response or throws an error that the error handler turns into one.
- **The item form of the frontend** (`ItemForm`). This covers its initial
  values, its own schema, and the conversion between the comma-separated
  tags text and the tags list. It also covers the payload handed to
  `onSubmit`, and the rule that a failing field shows its first message.
- **The list page** (`ItemsPage`). This covers the page count, the four
  pager buttons, and the resets of the page on search, on a page-size change
  and after a create.
- **The client's query string** (`ItemsApi`). This is the string that
  `listItems` assembles with `URLSearchParams`.
- **Shared helpers** (`Text`, `Base`). These are the JavaScript string
  operations the code relies on (`trim`, `split`, `join`, `String(n)`,
  `parseInt`) and the shared value wrappers.

Where the code does something step by step, the model does too:

- **Service builders** are methods with loops or conditional appends.
- **`URLSearchParams`** is a class.
- **The pager and form state** are classes whose methods update their fields.
- **The SQL table** is a class.

Each such method is proved against a specification function, and the
properties the application promises are lemmas about those functions.

The model follows the code in three places where it departs from the
system's documented design:

- **Error messages in production**: the error handler sends `err.message`
  in every environment. `NODE_ENV` only switches on the logging.
- **`updated_at`**: an update never refreshes it.
- **The `?? 0` defaults of `createItem`**: they never apply to price or
  quantity. The create schema always yields a price, and it defaults the
  quantity to 0.

## Model

| member | source | states |
|---|---|---|
| Text.TrimStart | frontend/src/items/ItemForm.tsx:71 | the result is a suffix of the input that does not start with white space, and everything dropped is white space |
| Text.TrimEnd | frontend/src/items/ItemForm.tsx:71 | the result is a prefix of the input that does not end with white space, and everything dropped is white space |
| Text.Trim | frontend/src/items/ItemForm.tsx:71 | `trim()` leaves no white space at either end, and gives "" exactly for an all-white-space string |
| Text.TrimmedIsFixed | frontend/src/items/ItemForm.tsx:71 | trimming a string with no white space at its ends changes nothing |
| Text.TrimAfterSpace | frontend/src/items/ItemForm.tsx:71 | leading white space does not change the trimmed result |
| Text.TrimKeeps | frontend/src/items/ItemForm.tsx:71 | trimming adds no character: a comma in the trimmed piece was in the piece |
| Text.Split | frontend/src/items/ItemForm.tsx:70 | `split(",")` gives at least one piece, no piece holds the separator, and joining the pieces with it restores the text |
| Text.SplitJoin | frontend/src/items/ItemForm.tsx:70 | splitting a join gives back the pieces when none holds the separator |
| Text.SplitAppend | frontend/src/items/ItemForm.tsx:70 | the pieces of a text around a separator are the pieces before it followed by the pieces after it |
| Text.JoinAppend | frontend/src/items/ItemForm.tsx:32 | joining two lists of pieces is joining each with the separator between them |
| Text.NatToString | frontend/src/items/api.ts:30-31 | `String(n)` of a non-negative integer is decimal digits with no leading zero |
| Text.IntToString | frontend/src/items/api.ts:30-31 | `String(n)` starts with "-" exactly for a negative number |
| Text.ParseInt | backend/src/modules/items/items.controller.ts:35-37 | `parseInt(s, 10)` is NaN exactly when no digit follows the leading white space and one optional sign |
| Text.ParseIntOfIntToString | backend/src/modules/items/items.controller.ts:35 | `parseInt` reads back `String(n)` whatever non-digit text follows, so "12abc" is read as 12 |
| Text.ParseIntText | frontend/src/items/ItemsPage.tsx:152 | `parseInt(String(n))` is n |
| Text.ParseNatText | backend/src/modules/items/items.service.ts:100 | the count text read with `parseInt` is the count |
| ItemsSchema.StatusOfName | backend/src/modules/items/items.schema.ts:10 | the status enum accepts exactly "active" and "inactive", and its value names the string it accepted |
| ItemsSchema.StatusNameRoundTrip | backend/src/modules/items/items.schema.ts:10 | every status is accepted under its own name |
| ItemsSchema.Utf16Length | backend/src/modules/items/items.schema.ts:4-6 | zod's string length lies between the number of characters and twice that |
| ItemsSchema.CheckString | backend/src/modules/items/items.schema.ts:4 | a bounded string check passes exactly for a string within the bounds, yields it, and otherwise reports at least one issue about its key |
| ItemsSchema.CheckText | backend/src/modules/items/items.schema.ts:24 | an unbounded string check passes exactly for a string |
| ItemsSchema.CheckOptionalText | backend/src/modules/items/items.schema.ts:5-6 | a nullable, optional text passes when missing, null or short enough, and keeps which of the three it was |
| ItemsSchema.CheckNumber | backend/src/modules/items/items.schema.ts:7-8 | a coerced number passes exactly when it is finite, whole if required, and within its bounds |
| ItemsSchema.CheckTagElements | backend/src/modules/items/items.schema.ts:9 | the tag elements pass exactly when each is a string of 1..50 units, and yield those strings in order |
| ItemsSchema.CheckTags | backend/src/modules/items/items.schema.ts:9 | tags pass when missing, null, or a list of at most 50 valid strings; otherwise every issue is about `tags` |
| ItemsSchema.CheckStatus | backend/src/modules/items/items.schema.ts:10 | the status passes exactly for "active" or "inactive", and yields that status |
| ItemsSchema.ParseCreate | backend/src/modules/items/items.schema.ts:3-11 | the create schema accepts exactly the bodies within its bounds and yields the sent values, with quantity 0 and status "active" by default; a rejection has at least one issue |
| ItemsSchema.ParseUpdate | backend/src/modules/items/items.schema.ts:13-21 | the update schema accepts exactly the bodies within its bounds and yields the sent fields with no defaults |
| ItemsSchema.UpdateHoldsOnlySuppliedKeys | backend/src/modules/items/items.schema.ts:13-21 | an accepted update holds a field exactly when the client sent it |
| ItemsSchema.ParseQuery | backend/src/modules/items/items.schema.ts:23-29 | the query schema accepts exactly the in-bounds queries, reports an issue otherwise, and yields the normalised query of the sent values |
| ItemsSchema.QueryCarriesSentValues | backend/src/modules/items/items.schema.ts:23-29 | the normalised query has page >= 1 (default 1) and 1 <= pageSize <= 100 (default 10), a sent page or pageSize is the number sent, q and category are present exactly when sent and then are the sent text, and the status is the one named |
| ItemsSchema.FieldMessages | backend/src/middleware/errorHandler.ts:17 | a field has messages in `flatten()` exactly when some issue is about it |
| ItemsService.DbMessage | backend/src/middleware/errorHandler.ts:20 | every database error carries a non-empty message, so the handler passes it on |
| ItemsService.Round2 | backend/src/db/migrate.ts:10 | NUMERIC(10, 2) rounding moves a price by at most half a cent and keeps it non-negative |
| ItemsService.Round2Idempotent | backend/src/db/migrate.ts:10 | a stored price is stored again unchanged |
| ItemsService.SetColumn | backend/src/modules/items/items.service.ts:55-57 | assigning a column never changes the id or the timestamps |
| ItemsService.SetColumnReadsBack | backend/src/modules/items/items.service.ts:55-57 | after `key = $i` the column reads back the bound value (rounded for the price) and every other column is unchanged |
| ItemsService.ApplyEntries | backend/src/modules/items/items.service.ts:55-57 | applying a SET clause never changes the id or the timestamps |
| ItemsService.BindFailure | backend/src/modules/items/items.service.ts:58 | binding raises no error exactly when every value binds to its column's type |
| ItemsService.StoreFailure | backend/src/db/migrate.ts:5-16 | storing raises no error exactly when every value meets its column's constraint |
| ItemsService.InsertedRow | backend/src/modules/items/items.service.ts:19-21 | each column of the inserted row holds the value bound to it |
| ItemsService.CreateStoresNewRow | backend/src/modules/items/items.service.ts:17-33 | `createItem` binds seven values in column order; missing or null description, category and tags become null; the INSERT succeeds exactly when the input fits the table and then stores exactly that row |
| ItemsService.CreateEntriesFit | backend/src/modules/items/items.service.ts:22-30 | the seven values bind exactly when the quantity is a 32-bit INT, a failed bind reports that quantity, and the values bind and meet the constraints exactly when the input fits the table |
| ItemsService.AcceptedCreateFits | backend/src/modules/items/items.schema.ts:3-11 | a body the create schema accepts fits the table unless its quantity exceeds the 32-bit INT column or its price rounds to 10^8 or more |
| ItemsService.Entries | backend/src/modules/items/items.service.ts:49 | `Object.entries` of a parsed update names only columns of the update schema, at most seven |
| ItemsService.BuildUpdate | backend/src/modules/items/items.service.ts:46-57 | one `key = $i` fragment per entry in entry order with i from 1; the values are the entries' values, null included, then the id; no statement for no entries |
| ItemsService.UpdatePlaceholdersContiguous | backend/src/modules/items/items.service.ts:54-57 | the update uses placeholders $1..$(n+1) in order, and the id is $(n+1), so the n+1 values bind every placeholder |
| ItemsService.ResolveBuilt | backend/src/modules/items/items.service.ts:49-52 | the value bound at a fragment's placeholder is that entry's value |
| ItemsService.EmptyUpdateIsIdentity | backend/src/modules/items/items.service.ts:53 | an input has no entries exactly when it supplies no field, and the empty patch leaves a row as it is |
| ItemsService.ApplyEntriesIsPatch | backend/src/modules/items/items.service.ts:49-57 | running the SET clause changes exactly the supplied columns to the supplied values and keeps every other column |
| ItemsService.RunBuiltUpdate | backend/src/modules/items/items.service.ts:54-59 | the built UPDATE fails on a value or id that cannot be bound, or on a constraint when the row exists; otherwise it returns no row for a missing id and the updated row for an existing one |
| ItemsService.UpdateRunsAsPatch | backend/src/modules/items/items.service.ts:42-60 | the built UPDATE succeeds exactly when its values bind, the id fits and an existing row stays within its constraints; a missing id changes nothing, and an existing row becomes its patch |
| ItemsService.UpdateFitsAssignable | backend/src/modules/items/items.service.ts:49-57 | an update within the table's bounds binds and stores every value |
| ItemsService.AcceptedUpdateFits | backend/src/modules/items/items.schema.ts:13-21 | an accepted update fits the table unless its quantity exceeds the INT column or its price rounds to 10^8 or more |
| ItemsService.SanitizeQuery | backend/src/modules/items/items.service.ts:76 | every quote and colon of the search text becomes a space, and every other character is kept |
| ItemsService.SearchTermCanFail | backend/src/modules/items/items.service.ts:74-80 | the term built from "red widget" or "it's" holds two operands with only spaces between them, which `to_tsquery` refuses |
| ItemsService.Words | backend/src/modules/items/items.service.ts:74-80 | the words of a search text are non-empty runs of letters and digits |
| ItemsService.IntendedSearchTermIsConjunction | backend/src/modules/items/items.service.ts:74-80 | joining every word as a prefix operand with "&" never leaves two operands side by side, and its operands are exactly the words |
| ItemsService.SearchTermUnquoted | backend/src/modules/items/items.service.ts:76-80 | the built search term never holds a quote, since every quote of the text became a space |
| ItemsService.QuotedPhraseAllowed | backend/src/modules/items/items.service.ts:78 | the tsquery rule constrains no quoted phrase: `'a b'` has two words side by side and may still parse |
| ItemsService.SpacedWordsFail | backend/src/modules/items/items.service.ts:74-80 | any search text whose term holds two operands with only spaces between them is refused by `to_tsquery` |
| ItemsService.IntendedAgreesOnOneWord | backend/src/modules/items/items.service.ts:74-80 | for a single word the intended term is the term the code builds |
| ItemsService.ListFailure | backend/src/modules/items/items.service.ts:74-107 | a listing fails, in this order, on a search term `to_tsquery` refuses, a LIMIT or OFFSET beyond bigint, or a negative LIMIT or OFFSET; it fails on none of these exactly when the listing succeeds |
| ItemsService.TwoWordSearchFails | backend/src/modules/items/items.service.ts:74-80 | `?q=red widget` makes the listing fail with a tsquery syntax error |
| ItemsService.WhereText | backend/src/modules/items/items.service.ts:93 | the WHERE clause is empty exactly when there is no filter |
| ItemsService.BuildList | backend/src/modules/items/items.service.ts:70-106 | filters appear in the order q, status, category, each under the next placeholder, with the text filter only for a non-blank q bound to `q` sanitised plus ":*"; LIMIT and OFFSET take the next two placeholders, bound to pageSize and (page-1)*pageSize |
| ItemsService.PassesIffHolds | backend/src/modules/items/items.service.ts:73-93 | a row passes the numbered filters with their values exactly when every condition holds |
| ItemsService.ConditionsIffSatisfies | backend/src/modules/items/items.service.ts:74-92 | the conditions of a query hold exactly when the row satisfies each filter the query asks for |
| ItemsService.FiltersMeanSatisfies | backend/src/modules/items/items.service.ts:73-93 | the built WHERE clause selects a row exactly when the row satisfies the query |
| ItemsService.Window | backend/src/modules/items/items.service.ts:103-106 | `LIMIT l OFFSET o` yields exactly min(l, n − o) rows of an ordering of n rows, none when o is past the end, the rows at o, o+1, ... of the ordering |
| ItemsService.SecondPageOfFive | backend/src/modules/items/items.service.ts:94-106 | page 2 of size 5, offset 5, over ten or more rows is the sixth to the tenth row |
| ItemsService.PassingIsMatching | backend/src/modules/items/items.service.ts:93-98 | the rows the built WHERE clause selects are the rows that satisfy the query |
| ItemsService.Count | backend/src/modules/items/items.service.ts:96-99 | the scan visits every row once and counts exactly the rows that pass the WHERE clause |
| ItemsService.SelectNewestFirst | backend/src/modules/items/items.service.ts:102-107 | `ORDER BY created_at DESC` yields every passing row exactly once, newest first |
| ItemsService.ItemTable.constructor | backend/src/db/migrate.ts:5-16 | a new table is empty and its sequence starts at 1 |
| ItemsService.ItemTable.Create | backend/src/modules/items/items.service.ts:17-33 | a quantity outside INT fails before any id is taken; a bound input takes the next id of the SERIAL sequence, which ends at 2147483647, whether or not a constraint then fails; create succeeds exactly when the input fits the table and an id is left, then adds the new row under a fresh id and returns it; a failure leaves the rows alone |
| ItemsService.ItemTable.GetById | backend/src/modules/items/items.service.ts:35-40 | a lookup fails only for an id outside the INT range, and otherwise returns the row with that id or none |
| ItemsService.ItemTable.Update | backend/src/modules/items/items.service.ts:42-60 | an update succeeds exactly when its values bind, the id fits and an existing row stays within its constraints; it returns the patched row for an existing id and none otherwise, and changes no other row |
| ItemsService.ItemTable.Delete | backend/src/modules/items/items.service.ts:62-65 | a delete reports whether the row existed, and the row is gone afterwards |
| ItemsService.ItemTable.List | backend/src/modules/items/items.service.ts:67-110 | a listing fails exactly as `ListFailure` says, with its error; otherwise it counts all rows that satisfy the query and returns the requested page of them, newest first, echoing page and pageSize |
| ItemsService.ValidQueryFailures | backend/src/modules/items/items.schema.ts:25-26 | a validated query fails the listing exactly when its search term is refused or page × pageSize overflows bigint: its LIMIT and OFFSET are never negative |
| ItemsService.HugePageOverflows | backend/src/modules/items/items.schema.ts:25 | `?page=1000000000000000000` passes the schema and then fails the listing with a bigint range error |
| ErrorHandler.NotFound | backend/src/middleware/errorHandler.ts:4-6 | an unknown route gets 404 with "Not Found" |
| ErrorHandler.StatusOf | backend/src/middleware/errorHandler.ts:19 | a truthy status is kept, and a missing or zero one becomes 500 |
| ErrorHandler.MessageOf | backend/src/middleware/errorHandler.ts:20 | a truthy message is kept, and a missing or empty one becomes "Internal Server Error", so no empty message is sent |
| ErrorHandler.HandleError | backend/src/middleware/errorHandler.ts:8-26 | a validation error gives 400 "ValidationError" with the flattened issues; any other error keeps its truthy status and message; only non-validation errors outside production are logged |
| ErrorHandler.ResponseIndependentOfEnv | backend/src/middleware/errorHandler.ts:21-25 | the status and body do not depend on `NODE_ENV` |
| ItemsController.Deliver | backend/src/modules/items/items.controller.ts:24-25 | a forwarded error reaches the client as the error handler's status and body |
| ItemsController.DbThrown | backend/src/modules/items/items.controller.ts:24-25 | a database error reaches the error handler with its message and no status |
| ItemsController.IdOf | backend/src/modules/items/items.controller.ts:35-37 | an id is read exactly when `parseInt` finds one and it is a finite double, and then it is that integer |
| ItemsController.IdOfText | backend/src/modules/items/items.controller.ts:35-37 | the decimal text of an integer reads back as it exactly when it is below the double overflow threshold |
| ItemsController.HugeIdIsInvalid | backend/src/modules/items/items.controller.ts:35-37 | a 310-digit id is refused as invalid |
| ItemsController.HandleList | backend/src/modules/items/items.controller.ts:15-27 | an invalid query is forwarded as a validation error; a valid one that the listing refuses is forwarded with the database error; otherwise it gets 200 with the total of matching rows and the requested page of them, newest first |
| ItemsController.HandleGet | backend/src/modules/items/items.controller.ts:29-44 | an id that is not a finite number gets 400 "Invalid id"; an id outside INT is forwarded as a database error; a missing item gets 404 "Item not found"; otherwise 200 with the row |
| ItemsController.HandleCreate | backend/src/modules/items/items.controller.ts:46-58 | a rejected body is forwarded and touches neither the rows nor the sequence; a quantity outside INT and an exhausted sequence are forwarded without using an id; an accepted body that fits the table gets 201 with the stored row |
| ItemsController.HandleUpdate | backend/src/modules/items/items.controller.ts:60-76 | the id is checked before the body; an id that is not a finite number gets 400, a rejected body is forwarded, a missing row gets 404, and an existing one gets 200 with its patch |
| ItemsController.HandleDelete | backend/src/modules/items/items.controller.ts:78-93 | an id that is not a finite number gets 400, a removed row 204 with no body, a missing one 404; the row is gone afterwards |
| ItemsController.CreateReadDelete | backend/src/modules/items/items.controller.ts:29-93 | a create answers 201 with the new row, a read of its id written as text answers 200 with it, the delete 204, and a second read and delete both 404; the rows end as they began |
| ItemsController.RejectedIsBadRequest | backend/src/middleware/errorHandler.ts:14-17 | a request the schemas reject gets 400 with "ValidationError" and its field errors |
| ItemsController.DbErrorIsServerError | backend/src/middleware/errorHandler.ts:19-20 | a database error gets 500 with the database's message |
| ItemForm.TrimAll | frontend/src/items/ItemForm.tsx:71 | `.map((s) => s.trim())` trims every piece and keeps their number |
| ItemForm.DropEmpty | frontend/src/items/ItemForm.tsx:72 | `.filter(Boolean)` keeps exactly the non-empty pieces |
| ItemForm.DropEmptyAppend | frontend/src/items/ItemForm.tsx:72 | filtering a concatenation filters each part in turn, so the order of the pieces is kept |
| ItemForm.DropEmptySingle | frontend/src/items/ItemForm.tsx:72 | one piece survives exactly when it is non-empty |
| ItemForm.DropEmptyKeepsAll | frontend/src/items/ItemForm.tsx:72 | the filter changes nothing when no piece is empty |
| ItemForm.SplitTags | frontend/src/items/ItemForm.tsx:68-72 | the tags from a text are non-empty and comma-free, with no white space at their ends |
| ItemForm.SplitTagsAppend | frontend/src/items/ItemForm.tsx:68-72 | the tags of a text are the tags before a comma followed by the tags after it |
| ItemForm.SplitTagsPiece | frontend/src/items/ItemForm.tsx:68-72 | a text without a comma gives its trimmed self as its one tag, or no tag when it is blank |
| ItemForm.SplitTagsOfPieces | frontend/src/items/ItemForm.tsx:68-72 | comma-separated pieces give their trimmed non-blank selves, in order |
| ItemForm.BlankPieceDropped | frontend/src/items/ItemForm.tsx:68-72 | a blank piece between commas gives no tag: "a, ,b" gives "a" and "b" |
| ItemForm.TagsRoundTrip | frontend/src/items/ItemForm.tsx:68-73 | a clean tags list survives the ", " join of line 32 and the split, trim and filter on submit; an empty list comes back as null |
| ItemForm.BlankTagsGiveEmptyList | frontend/src/items/ItemForm.tsx:68-73 | a blank text without a comma is truthy and yields an empty list, not null |
| ItemForm.InitialValues | frontend/src/items/ItemForm.tsx:26-34 | a new form starts with title "", price 0, quantity 0 and status "active"; an edit form starts from the item's fields, null texts as "" and tags joined with ", " |
| ItemForm.ParseForm | frontend/src/items/ItemForm.tsx:5-13 | the form schema accepts exactly the values within its bounds, the tags as one optional text |
| ItemForm.EmptyFormNeedsTitle | frontend/src/items/ItemForm.tsx:6 | a new form fails on the title alone, with "Title is required" |
| ItemForm.MakePayload | frontend/src/items/ItemForm.tsx:62-75 | a missing or null description or category becomes null, "" is sent as "", and the tags text becomes a list or null |
| ItemForm.CleanTagsFitServer | backend/src/modules/items/items.schema.ts:9 | clean tags pass the server's tags check exactly when there are at most 50, each at most 50 units long |
| ItemForm.PayloadMeetsCreateSchema | frontend/src/items/ItemForm.tsx:62-77 | a payload from accepted form values passes the server's create schema exactly when its tags are within the server's bounds, and the server reads back every field sent |
| ItemForm.UntouchedEditSendsItem | frontend/src/items/ItemForm.tsx:26-75 | saving an untouched edit form sends the item back, with a null description or category as "" and empty tags as null |
| ItemForm.CollectFieldErrors | frontend/src/items/ItemForm.tsx:53-56 | the loop keeps the first message of exactly the fields that have messages |
| ItemForm.ErrorsShowFirstIssue | frontend/src/items/ItemForm.tsx:51-57 | after a failed submit, a field shows a message exactly when it has an issue, and it is the message of its first issue |
| ItemForm.WithField | frontend/src/items/ItemForm.tsx:43-44 | an edit sets the named field and leaves every other field as it was |
| ItemForm.FormState.constructor | frontend/src/items/ItemForm.tsx:26-36 | the form starts from its initial values, with no errors and not submitting |
| ItemForm.FormState.Change | frontend/src/items/ItemForm.tsx:38-45 | typing stores the input's text in the named field and nothing else |
| ItemForm.FormState.Submit | frontend/src/items/ItemForm.tsx:47-79 | a failing parse shows the first message per failing field and calls nothing; a passing one hands the payload over with no message shown; submitting ends false |
| ItemsApi.SetParam | frontend/src/items/api.ts:28-33 | `set` on a name not yet present appends the pair |
| ItemsApi.SetParamHolds | frontend/src/items/api.ts:28-33 | after `set` the pair is present |
| ItemsApi.SetParamOnce | frontend/src/items/api.ts:28-33 | after `set` the name occurs once |
| ItemsApi.SetParamKeepsOthers | frontend/src/items/api.ts:28-33 | `set` leaves the other names as they were |
| ItemsApi.SearchParams.constructor | frontend/src/items/api.ts:28 | a new `URLSearchParams` is empty |
| ItemsApi.SearchParams.Set | frontend/src/items/api.ts:29-33 | `set` replaces the pairs by their updated list |
| ItemsApi.QueryNames | frontend/src/items/api.ts:28-33 | the names of the query string are the truthy parameters, in the order q, page, pageSize, status, category |
| ItemsApi.QueryStepsFresh | frontend/src/items/api.ts:28-33 | each `set` of `listItems` adds a name not yet present |
| ItemsApi.BuildListQuery | frontend/src/items/api.ts:28-33 | the five conditional `set` calls build exactly the query string of the truthy parameters |
| ItemsApi.QueryParamsDistinct | frontend/src/items/api.ts:28-33 | each name appears at most once |
| ItemsApi.QueryParamsPresence | frontend/src/items/api.ts:29-33 | a parameter appears exactly when it is truthy: "" and 0 are omitted |
| ItemsApi.QueryNumbersReadBack | frontend/src/items/api.ts:30-31 | the page numbers written with `String(n)` are read back by `parseInt` as sent |
| ItemsApi.ListResponse | frontend/src/items/api.ts:35 | a response that is not ok raises "Failed to load items" instead of yielding data |
| ItemsPage.TotalPages | frontend/src/items/ItemsPage.tsx:83 | the page count is at least 1 and holds all items, and one page fewer would not |
| ItemsPage.TotalPagesIsLeast | frontend/src/items/ItemsPage.tsx:83 | no smaller number of pages holds all items |
| ItemsPage.StepStaysInRange | frontend/src/items/ItemsPage.tsx:162-189 | every click keeps 1 <= page <= totalPages when that held, and an enabled button changes the page |
| ItemsPage.EnabledAtEnds | frontend/src/items/ItemsPage.tsx:164-185 | first and prev work exactly when page > 1; next and last work exactly when page < totalPages |
| ItemsPage.DeleteCanStrandPage | frontend/src/items/ItemsPage.tsx:72-83 | after a delete shrinks the page count, the page stays beyond the last one, with next and last disabled |
| ItemsPage.PageSizeOptionsAccepted | frontend/src/items/ItemsPage.tsx:156 | every page-size option is within the server's 1..100 |
| ItemsPage.PageState.constructor | frontend/src/items/ItemsPage.tsx:13-22 | the page starts with no search text, page 1, page size 10 and an empty answer |
| ItemsPage.PageState.Click | frontend/src/items/ItemsPage.tsx:162-189 | a click moves the page as the button says, keeps it in range, and leaves everything else alone |
| ItemsPage.PageState.Search | frontend/src/items/ItemsPage.tsx:91-94 | typing a search sets the text and returns to page 1 |
| ItemsPage.PageState.ChoosePageSize | frontend/src/items/ItemsPage.tsx:151-154 | choosing an option sets the page size to its value, read back from its text, and returns to page 1 |
| ItemsPage.PageState.Created | frontend/src/items/ItemsPage.tsx:52-53 | a successful create returns to page 1 and clears the search text |
| ItemsPage.PageState.Loaded | frontend/src/items/ItemsPage.tsx:32 | a loaded answer replaces the data and nothing else |
| ItemsPage.RequestCarriesPage | frontend/src/items/ItemsPage.tsx:31 | `load` always sends page and pageSize as decimal text the server reads back, and the search text only when it is not empty |

## Findings

| source | as written | input that shows it | evidently intended | confidence | as-written member | corrected member |
|---|---|---|---|---|---|---|
| backend/src/modules/items/items.service.ts:74-80 | the search text, with quotes and colons turned into spaces, plus ":*" is passed to `to_tsquery`, which needs an operator between operands | `GET /api/items?q=red widget` or `?q=it's` gives the term "red widget:*" or "it s:*", a tsquery syntax error, so the listing answers 500 | every word becomes a prefix operand and the operands are joined with "&", as the comment about avoiding tsquery errors says | not executed | ItemsService.SearchTermCanFail | ItemsService.IntendedSearchTermIsConjunction |

`TwoWordSearchFails` shows the failure reaching the listing. The listing itself keeps the term as the code builds it. `IntendedAgreesOnOneWord` shows that the two terms agree on single-word searches. The corrected term counts only ASCII letters and digits as word characters, so a non-ASCII letter ends a word.

## Left out

- HTTP transport, JSON encoding and `fetch` are not modelled. This includes the client's `createItem`, `updateItem` and `deleteItem` wrappers. A handler's result is an `Outcome` value instead of calls on `res` and `next`.
- Express wiring, the routes file, the server, the connection pool and environment loading are not modelled. They are configuration and plumbing.
- The DDL migration is not modelled as such. Only its column types and constraints are, inside `Binds`, `Storable` and `Round2`.
- PostgreSQL full-text search is a caller-supplied predicate `matches`. English stemming and prefix matching are not modelled.
- JavaScript `Number(x)`, which `z.coerce.number()` applies, is a caller-supplied function. `NumberRules` fixes its results on undefined, null, booleans and numbers.
- Prices are exact reals. IEEE rounding of JavaScript numbers and `toFixed(2)` display are not modelled.
- Postgres error texts are not modelled word for word. `DbMessage` gives each error kind a fixed non-empty message.
- zod's default messages are approximated by `Message`. Only the two custom messages of the form schema are exact.
- An issue without a field path is not modelled, so `formErrors` is always empty: every check of these schemas has a path.
- Timestamps are an abstract `now` supplied to create. The frontend's `Item` drops them.
- React rendering, modals, toasts, `confirm()` and the `loading`, `creating` and `editing` flags are not modelled.
- The 300 ms debounce of the search text is not modelled; the request uses the current text. It is timer-based scheduling.
- The order of effects and reloads after each change is event-loop scheduling and is not modelled. `load` is modelled by its request (`RequestCarriesPage`) and its result (`PageState.Loaded`).
- `onUpdate` and `onDelete` of the list page change no state the model keeps, apart from the reload. `DeleteCanStrandPage` covers what a reload after a delete leaves behind.
- ItemsService.SelectNewestFirst: rows with equal `created_at` may come in any order. The contract states that some newest-first ordering is returned, not which one.
- Text.ParseInt: reads digit strings of any length exactly. JavaScript rounds beyond 2^53 and gives Infinity from 2^1024 - 2^970 on. The handlers' `Number.isFinite` guard is modelled in `IdOf` with that threshold, so a 309-digit or longer id gets 400. The rounding of a finite large id is not modelled, because any such id is outside INT and gets the same database error either way.
- ItemsService.ItemTable.List: computes the offset `(page - 1) * pageSize` exactly rather than as a double. A product within 512 of 2^63 that the double rounds up to 2^63 fails in the code but not in the model.
- `to_tsquery`'s grammar is a caller-supplied predicate `tsParses`. `TsQueryRules` fixes the one rule the model needs: outside a quoted phrase, two operands with only spaces between them do not parse. Only terms without a quote are constrained, and `SearchTermUnquoted` shows that the built term never holds one.
- ItemsService.IntendedSearchTermIsConjunction: words are runs of ASCII letters and digits. Letters outside ASCII split a word, so the corrected term for "café" is "caf:*". PostgreSQL's parser is not modelled.
- `price: "Infinity"` is not modelled. Prices are exact reals without an infinite value; zod accepts `Infinity` under `min(0)`, and the NUMERIC(10, 2) column then rejects it with an error, not with a validation issue.
- ItemsPage.TotalPages: requires a page size of at least 1. The server's query schema guarantees this for every answer, so the NaN that a zero would give is not modelled.
- ItemsPage.PageState.Loaded: requires the answer's page size to be at least 1, for the same reason.
- ItemsService.ItemTable.Update: a null status written by an update is not modelled. The update schema has no null status, so no statement of the service writes one.

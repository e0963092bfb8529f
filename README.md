# mega-backend request pipeline, modelled in Dafny

This project models the request pipeline of the mega-backend CRUD API, an Express and TypeORM
service for a rental business. It covers:

- **Route registration.** The `Get`/`Post`/`Put`/`Delete`/`Patch` and `Middleware`
  decorators write into a metadata store. `registerRoutes` turns a controller's metadata into
  Express registrations. `registerControllers` walks a directory tree and registers every
  `*.controller.ts`/`*.controller.js` file.
- **The `ValidatedDTO` gate.** It wraps a handler and answers 400 with the flattened
  validation messages when the body is invalid.
- **The response helpers** (`RouteResponse`). These are the one place where status codes and
  the `{status, date, data, error}` envelope are built.
- **The request-logging format and the favicon short-circuit.**
- **The six entity controllers.** They are suppliers (`fornecedor`), clients (`cliente`),
  products (`produto`), sites (`obras`), rentals (`aluguel`) and invoices (`nota`). Each has
  list/get/create/update/delete handlers. The listings share pagination arithmetic. The two
  aggregates (rental and invoice) replace their line items by "delete all, recreate one per
  submitted item".

The database is an in-memory stand-in (module `Store`). A table is a `seq` of rows held in a
`Table` object that the handlers change in place. Each handler is a method of a controller
class that changes its tables and the `Response` object. Its contract states the new tables
and the reply exactly (up to the ORM differences under ## Left out), in terms of pure functions (`Find`, `Without`, `MergeMatching`,
`Upsert`, `OtherParents`, `ChildRows`, ...). What those functions mean is proved as lemmas:

- `save` is an insert-or-update by primary key: a lookup after a save finds the saved row, or
  the held row with the saved columns written over it;
- nothing matches after a delete;
- an update on a missing key is a no-op;
- an update whose data carries no `id` keeps ids, and one whose data carries a string `id`
  moves the rows it matches to that id;
- delete-then-recreate with new line-item keys leaves exactly the submitted children and
  leaves other parents alone; an item carrying the key of another parent's line moves that
  line to the new parent instead.

JavaScript's `parseInt` is modelled in module `ParseInt`. It skips white space, reads a sign
and a `0x` prefix, then takes the longest run of digits. NaN is `None`. It is proved to invert
decimal rendering. Handlers that call `parseInt(req.params.id)` use that model. The resulting
numeric key matches a row only when the row's id is that number's decimal text. The ids are
UUIDs (`PrimaryGeneratedColumn("uuid")`), so such a key normally matches nothing. The
handlers affected are `GET` and `PUT /nota/:id` (404 for a real invoice), the deletes of
fornecedor, cliente, produto and nota (no row removed, still 204) and the updates of
fornecedor, cliente and produto (no row changed). Of these, only the fornecedor update is
recorded under ## Findings, with a corrected member. The corrected `UpdateOrNotFound`
handlers of cliente and produto fix only the truthiness check and keep the `parseInt` key.

The repositories are the ORM's own (`AppDataSource.getRepository(...)` in
src/repositories). They are not implementations of the `Repository` protocol in
src/common/protocols/repository.ts. So `update(...)` resolves to an UpdateResult object, not
to the entity or null. The controllers that check that result (`obras`, `cliente`, `produto`)
are modelled as written: the result is always truthy, so those handlers never answer 404.
The obras and produto route documentation promises a 404 (obras.controller.ts:168,
produto.controller.ts:167), and all three handlers have a 404 branch. The cliente
documentation lists only a 200, so for cliente the intent rests on that branch alone. The
model follows the code, and the discrepancy is recorded under ## Findings.

Files:

- `wrappers.dfy`: `Option`.
- `text.dfy`: decimal text and suffix checks.
- `json.dfy`: JSON values and truthiness.
- `parse_int.dfy`: `parseInt`.
- `http_responses.dfy`: `RouteResponse`.
- `metadata.dfy`: the decorators' metadata store.
- `routes.dfy`: `registerRoutes` and `registerControllers`.
- `dto.dfy`: `ValidatedDTO`.
- `morgan.dfy`: the log format.
- `favicon.dfy`: the favicon short-circuit.
- `store.dfy`: tables.
- `pagination.dfy`: the listing arithmetic.
- `crud.dfy`: reply shapes shared by the controllers.
- `*_controller.dfy`: one module per controller file.

## Model

| member | source | states |
|---|---|---|
| HttpResponses.SetResponse | src/common/http-responses/index.ts:4-11 | the envelope carries the given status and date; the payload goes under `data` only on success and under `error` only on failure |
| HttpResponses.Respond | src/common/http-responses/index.ts:13-50 | what each helper sends: its code, and the envelope unless it is `successEmpty`; stated by RespondTable and PayloadRoundTrip |
| HttpResponses.PayloadRoundTrip | src/common/http-responses/index.ts:4-11 | the payload put into an envelope is recovered from it, whichever side it went to |
| HttpResponses.Code | src/common/http-responses/index.ts:13-50 | each helper's status code, 200/201/204/400/401/403/404/409/500, always in 200..599 |
| HttpResponses.RespondTable | src/common/http-responses/index.ts:13-50 | different helpers give different codes; only `successEmpty` sends no body; `status` is true exactly for `success`/`successCreated`; data and error never both present; the payload round-trips |
| HttpResponses.Response.Send | src/common/http-responses/index.ts:14 | `res.status(c).send(b)` records exactly that reply |
| HttpResponses.SendSuccess | src/common/http-responses/index.ts:13-15 | replies 200 with `status: true` and the data |
| HttpResponses.SendSuccessCreated | src/common/http-responses/index.ts:17-19 | replies 201; the data is optional |
| HttpResponses.SendSuccessEmpty | src/common/http-responses/index.ts:21-23 | replies 204 with no body |
| HttpResponses.SendBadRequest | src/common/http-responses/index.ts:25-27 | replies 400 with the error under `error` and `status: false` |
| HttpResponses.SendUnauthorized | src/common/http-responses/index.ts:29-34 | replies 401; the message defaults to "Unauthorized" |
| HttpResponses.SendForbidden | src/common/http-responses/index.ts:36-38 | replies 403 with the message (message first, then res) |
| HttpResponses.SendNotFound | src/common/http-responses/index.ts:40-42 | replies 404 with the message |
| HttpResponses.SendConflictError | src/common/http-responses/index.ts:44-46 | replies 409 with the error |
| HttpResponses.SendServerError | src/common/http-responses/index.ts:48-50 | replies 500 with the error |
| Metadata.RouteLastWriteWins | src/decorators/http/methods.ts:10-11 | a second verb decorator on the same method overwrites route and verb |
| Metadata.RouteAndMiddlewareCommute | src/decorators/http/methods.ts:10-11 | verb and middleware decorators write disjoint metadata, so their order does not matter |
| Metadata.WithMiddlewaresAppends | src/decorators/http/middleware.ts:9-12 | repeated `Middleware` decorators append in application order, duplicates kept, other methods untouched |
| Metadata.MetadataStore.constructor | src/decorators/http/methods.ts:3-14 | the registry starts empty apart from the class base paths |
| Metadata.MetadataStore.DefineRoute | src/decorators/http/methods.ts:3-14 | records path and verb for one method key and nothing else |
| Metadata.MetadataStore.Get | src/decorators/http/methods.ts:20-22 | `Get(path)` records verb "get" |
| Metadata.MetadataStore.Post | src/decorators/http/methods.ts:16-18 | `Post(path)` records verb "post" |
| Metadata.MetadataStore.Patch | src/decorators/http/methods.ts:24-26 | `Patch(path)` records verb "patch" |
| Metadata.MetadataStore.Put | src/decorators/http/methods.ts:28-30 | `Put(path)` records verb "put" |
| Metadata.MetadataStore.Delete | src/decorators/http/methods.ts:32-34 | `Delete(path)` records verb "delete" |
| Metadata.MetadataStore.AddMiddleware | src/decorators/http/middleware.ts:3-14 | appends one middleware to the method's list, creating it if absent |
| Metadata.WithRoute | src/decorators/http/methods.ts:10-11 | the two `defineMetadata` writes of a verb decorator; stated by RouteLastWriteWins and RouteAndMiddlewareCommute |
| Metadata.WithMiddleware | src/decorators/http/middleware.ts:9-12 | read the list (empty when absent), push, write back; stated by WithMiddlewaresAppends |
| Routes.StepSpec | src/config/routes.ts:40-66 | a method with a falsy path or verb is skipped; an unsupported verb gives exactly the warning text; otherwise it registers at basePath+path behind its middlewares, handler last |
| Routes.Step | src/config/routes.ts:40-66 | the outcome of one method name: skipped, a warning, or one registration; stated by StepSpec |
| Routes.PlanRoutes | src/config/routes.ts:36-69 | the `forEach` over the method names, outcomes in name order; stated by PlanConcat, PlanBound and PlanRegistrationOrigin |
| Routes.PlanConcat | src/config/routes.ts:36-69 | the registrations of a list of names are those of its parts, in order |
| Routes.PlanBound | src/config/routes.ts:36-69 | each name gives at most one registration or warning |
| Routes.PlanRegistrationOrigin | src/config/routes.ts:57-63 | every registration comes from a name whose metadata has that verb (supported) and path |
| Routes.NameRegisteredOrWarned | src/config/routes.ts:57-66 | a decorated name adds exactly one registration (supported verb) or exactly one warning |
| Routes.KeepsDuplicates | src/config/routes.ts:63 | two names for the same route are both registered, in order; nothing deduplicates |
| Routes.DecoratedMethodRegisters | src/config/routes.ts:31-70 | a method decorated with a verb and middlewares registers at basePath+path with those middlewares in order |
| Routes.RegisterRoutes | src/config/routes.ts:31-70 | the app's registrations and warnings grow by exactly the plan of the controller's method names |
| Routes.ControllerFileByName | src/config/routes.ts:20-23 | the suffix check on `dir/name` is the suffix check on the file name |
| Routes.LoadedPathsByEntry | src/config/routes.ts:16-19 | the paths loaded from a directory are those of its entries, in listing order |
| Routes.LoadedPathsAreControllers | src/config/routes.ts:20-23 | only `.controller.ts`/`.controller.js` files are loaded |
| Routes.LoadPlanConcat | src/config/routes.ts:15-29 | loading a list of files registers the concatenation of each file's plan |
| Routes.RegisterEntry | src/config/routes.ts:17-27 | one directory entry: a directory is walked recursively, a controller file has its routes registered, any other file adds nothing |
| Routes.RegisterControllers | src/config/routes.ts:15-29 | a depth-first walk registers exactly the plans of the controller files, in walk order |
| Dto.FlattenAppend | src/config/dto.ts:10-18 | the messages of sibling lists concatenate |
| Dto.Flatten | src/config/dto.ts:7-21 | the preorder flattening of the error tree; stated by FlattenAppend, FlattenLength and ExtractErrorMessages |
| Dto.FlattenLength | src/config/dto.ts:7-21 | one output message per constraint message in the whole error tree |
| Dto.NodeWithoutConstraints | src/config/dto.ts:11-17 | a node without constraints contributes only its children's messages |
| Dto.ExtractErrorMessages | src/config/dto.ts:7-21 | the loop-and-recursion collection equals the preorder flattening: own messages first, then the children's |
| Dto.Strings | src/config/dto.ts:44 | the messages as JSON strings, one per message, in order |
| Dto.RunValidated | src/config/dto.ts:36-49 | any validation error means 400 with the flattened messages and the handler is not called; otherwise the body is replaced by the instance and the handler is called |
| Dto.RejectionWithoutMessages | src/config/dto.ts:39-46 | a 400 can carry an empty `errors` list |
| Dto.ApplyValidatedDTO | src/config/dto.ts:23-54 | the decorator wraps the method's handler and leaves all other metadata unchanged |
| Morgan.StatusColorSpec | src/config/morgan.ts:6-12 | the visible text is the status; it starts with the colour of the status class (red/yellow/cyan/green, plain reset below 200) and ends with a reset exactly when status >= 200 |
| Morgan.StatusColor | src/config/morgan.ts:6-12 | the coloured status; stated by StatusColorSpec |
| Morgan.AfterSgr | src/config/morgan.ts:7-11 | skipping one escape sequence never lengthens the text |
| Morgan.FormatLineVisibleText | src/config/morgan.ts:16-29 | without escape characters in the inputs, the visible line is `method url status length - time ms`, with length "0" when absent |
| Morgan.FormatLine | src/config/morgan.ts:16-29 | the coloured log line; stated by FormatLineVisibleText |
| Favicon.IgnoreFavicon | src/config/favicon.ts:4-10 | ends with 204 and no body exactly when the url is `/favicon.ico`, otherwise calls next |
| Favicon.ExactMatchOnly | src/config/favicon.ts:5 | a query string or a sub-path does not match |
| ParseInt.DigitValue | src/controllers/nota.controller.ts:23 | digit values of base 10 or 16; a decimal digit has its face value |
| ParseInt.TrimStartDropsSpace | src/controllers/nota.controller.ts:23 | the leading white space, and only it, is skipped |
| ParseInt.Parse | src/controllers/nota.controller.ts:23 | `parseInt(s)`: white space, sign, then the digit run; stated by ParseDecimal, ParseNegated, ParseDecimalRun and NoDigitIsNaN |
| ParseInt.DigitRunIsLongest | src/controllers/nota.controller.ts:23 | the digits read are the longest digit prefix |
| ParseInt.ReadDigits | src/controllers/nota.controller.ts:23 | NaN exactly when no digit follows; otherwise a non-negative value |
| ParseInt.NoDigitIsNaN | src/controllers/nota.controller.ts:23 | text whose first visible character is no sign or digit parses to NaN |
| ParseInt.ValueOfNatText | src/controllers/nota.controller.ts:23 | the digits of a natural number read back as that number |
| ParseInt.ParseDecimalRun | src/controllers/nota.controller.ts:23 | text starting with a decimal digit parses to its leading digit run |
| ParseInt.ParseNegated | src/controllers/nota.controller.ts:23 | a minus sign before a digit negates the value |
| ParseInt.ParseDecimal | src/controllers/nota.controller.ts:23 | round trip: parsing the decimal text of any integer gives it back |
| ParseInt.DigitLedUuidReadsAsNine | src/controllers/fornecedor.controller.ts:174 | a UUID that starts with "9b" parses as 9 |
| ParseInt.LetterLedUuidIsNaN | src/controllers/fornecedor.controller.ts:174 | a UUID that starts with a letter parses as NaN |
| ParseInt.LeadingDigitOnly | src/controllers/fornecedor.controller.ts:174 | a non-zero digit followed by a non-digit parses as that digit, whatever follows |
| Store.NumericKey | src/controllers/fornecedor.controller.ts:174 | the parsed key is NaN exactly when `parseInt` gives NaN |
| Store.NumericKeyMatches | src/controllers/fornecedor.controller.ts:174-175 | a numeric key matches only the row whose id is the number's decimal text, and does match a row whose id is such text |
| Store.RowsJson | src/controllers/nota.controller.ts:18 | one JSON record per row, in order |
| Store.Window | src/controllers/fornecedor.controller.ts:63-66 | `findAndCount` returns the rows from the clamped skip on, at most `take` of them, in table order |
| Store.Find | src/controllers/fornecedor.controller.ts:106-108 | a found row is in the table and matches; nothing is found exactly when no row matches |
| Store.FindFirst | src/controllers/fornecedor.controller.ts:106-108 | when just one row matches, the lookup returns that row |
| Store.Without | src/controllers/fornecedor.controller.ts:207 | after a delete, the rows left are exactly the non-matching ones |
| Store.Merge | src/controllers/aluguel.controller.ts:297 | `merge` writes every member of the data into the row (no declared-column filter), and a string `id` in the data becomes the row's id; otherwise the row keeps its id |
| Store.MergeShape | src/controllers/aluguel.controller.ts:297 | after a merge the row has the old columns plus the data's, the data winning; columns the data does not give keep their value |
| Store.MergeMatching | src/controllers/obras.controller.ts:175 | `update` merges every member of the patch into each matching row (no declared-column filter) and leaves the others as they were |
| Store.Count | src/controllers/obras.controller.ts:175 | the affected count is 0 exactly when no row matches |
| Store.Overwrite | src/controllers/fornecedor.controller.ts:140 | every row with the saved id gets the saved columns written over its own columns; every other row and the length stay |
| Store.Upsert | src/controllers/fornecedor.controller.ts:140 | `save` adds a row exactly when no row has its id |
| Store.SaveUnderNewIdCopies | src/controllers/nota.controller.ts:62-63 | saving a merged entity whose data gave it an id no row has appends a copy and keeps the row it was read from |
| Store.UpdateResultJson | src/controllers/obras.controller.ts:175 | `update` resolves to an UpdateResult object holding the affected count |
| Store.UpdateResultIsTruthy | src/controllers/obras.controller.ts:176 | an UpdateResult is truthy, whatever the count |
| Store.FindAfterUpsert | src/controllers/fornecedor.controller.ts:139-140 | after `save`, a lookup by the id finds the saved row when the id was new, and the held row with the saved columns written over its own when it was not; no row with another id is new |
| Store.DeleteThenFind | src/controllers/obras.controller.ts:206 | after `delete(k)`, nothing matches `k` |
| Store.UpdateMissingIsNoOp | src/controllers/fornecedor.controller.ts:175 | an update whose key matches nothing changes no row |
| Store.MergeKeepsIds | src/controllers/fornecedor.controller.ts:175-178 | an update whose data carries no `id` changes no id: lookups by id succeed afterwards exactly when they did before |
| Store.MergeMovesRows | src/controllers/obras.controller.ts:175 | an update whose data carries another string `id` leaves no row under the old id |
| Store.NoIdKeepsMatch | src/controllers/fornecedor.controller.ts:175 | data without an `id` never changes which rows a key matches |
| Store.FindAfterMerge | src/controllers/fornecedor.controller.ts:175-178 | when the merge moves no row into or out of the lookup key's matches, the lookup after the update finds the same row, merged if the update key matched it, unchanged if not |
| Store.Table.FindAndCount | src/controllers/fornecedor.controller.ts:63-66 | returns the window and the table size; at most `take` rows when skip >= 0 and take > 0 |
| Store.Table.Save | src/controllers/fornecedor.controller.ts:140 | the table becomes the save of the row: its columns written over the row with the same id, or the row appended when no row has it |
| Store.Table.Update | src/controllers/obras.controller.ts:175 | the table becomes the merged table; the result is the UpdateResult with the affected count |
| Store.Table.Delete | src/controllers/obras.controller.ts:206 | removes exactly the matching rows |
| Store.ChildrenOf | src/controllers/aluguel.controller.ts:76-79 | the rows of one parent, all of them and only them |
| Store.OtherParents | src/controllers/aluguel.controller.ts:301 | `delete({aluguel})` leaves exactly the rows of the other parents |
| Store.ItemId | src/controllers/aluguel.controller.ts:253-257 | an item's own key is its string `id`, or a numeric `id` as decimal text; there is none exactly when `id` is absent or neither |
| Store.SaveChild | src/controllers/aluguel.controller.ts:257 | an item whose key no row holds is appended under the parent without its `id` member; one whose key is held adds no row |
| Store.SaveChildMovesRow | src/controllers/aluguel.controller.ts:257 | an item with an existing row's key writes its columns into that row and moves it to the parent; rows with other keys stay |
| Store.SaveAll | src/controllers/aluguel.controller.ts:252-258 | the items saved one after the other; stated by SaveAllAppends and ReplaceMovesForeignRow |
| Store.SaveAllAppends | src/controllers/aluguel.controller.ts:252-258 | when the keys are distinct and new, the loop appends exactly `ChildRows`, in order |
| Store.ChildRows | src/controllers/aluguel.controller.ts:252-258 | one row per submitted item, in order, under the item's own key or else its generated key, linked to the parent, with the item's other members as columns |
| Store.ReplaceChildren | src/controllers/aluguel.controller.ts:301-308 | when the items' keys are distinct and held by no other parent's row, delete-then-recreate leaves the parent exactly the submitted items (count = length) and other parents' rows unchanged |
| Store.ReplaceMovesForeignRow | src/controllers/aluguel.controller.ts:301-308 | an item carrying the key of another parent's row moves that row to the parent, so the other parent's rows change |
| Store.ChildTable.Save | src/controllers/aluguel.controller.ts:257 | the table becomes the primary-key save of the item under the parent |
| Store.ChildTable.DeleteByParent | src/controllers/aluguel.controller.ts:301 | the table becomes the other parents' rows |
| Store.SaveEach | src/controllers/aluguel.controller.ts:252-258 | the loop leaves the table as saving the items one after the other (`SaveAll`), item i under `gens[i]` when it has no key |
| Pagination.OrDefault | src/controllers/fornecedor.controller.ts:56-57 | `parseInt(q) \|\| d` keeps any non-zero number and gives the default for 0 and NaN |
| Pagination.CeilDiv | src/controllers/fornecedor.controller.ts:75 | `Math.ceil(total / limit)` on integers; stated by CeilDivIsCeiling |
| Pagination.ParseQuery | src/controllers/fornecedor.controller.ts:56-60 | page and limit with defaults 1 and 10, never 0, skip = (page-1)*limit, take = limit |
| Pagination.QueryDefaults | src/controllers/aluguel.controller.ts:59-61 | no query gives page 1 of 10; `page=3&limit=5` skips 10; `page=0`, `limit=abc` fall back to the defaults |
| Pagination.CeilDivIsCeiling | src/controllers/fornecedor.controller.ts:75 | `totalPages` is the ceiling of total/limit for either sign of limit |
| Pagination.TotalPagesBounds | src/controllers/aluguel.controller.ts:108 | totalPages is 0 exactly when total is 0, never negative for a positive limit, and limit*totalPages is within one limit above total |
| Pagination.PageNonEmptyIffWithinTotal | src/controllers/obras.controller.ts:58-73 | page p >= 1 holds a record exactly when p <= totalPages |
| Pagination.PageStartsWithinTotal | src/controllers/fornecedor.controller.ts:58-75 | skip = (page-1)*limit is below the total exactly when page <= totalPages |
| Pagination.Meta | src/controllers/fornecedor.controller.ts:71-76 | `meta` has exactly page, limit, total and totalPages; the first three echo the query and the count, totalPages is the ceiling of total/limit |
| Pagination.SpreadKeys | src/controllers/fornecedor.controller.ts:70 | spreading an array gives exactly the keys "0".."n-1" |
| Pagination.SpreadIndexes | src/controllers/cliente.controller.ts:69 | record i is found under key "i" |
| Pagination.SpreadPayloadShape | src/controllers/produto.controller.ts:67-75 | the spread payload has the index keys and `meta`, no `result` key, and record i under "i" |
| Crud.FoundReply | src/controllers/fornecedor.controller.ts:109-113 | 200 with the record exactly when found, otherwise 404 with the message |
| Crud.TruthyReply | src/controllers/obras.controller.ts:176-180 | 200 with the result exactly when it is truthy, otherwise 404 with the message as the envelope's error |
| Crud.UpdateNeverNotFound | src/controllers/obras.controller.ts:175-180 | checking an UpdateResult always answers 200, even with no matching row |
| Crud.CreatedRow | src/controllers/fornecedor.controller.ts:139 | the created entity keeps a string `id` from the body, else takes the generated one; its columns are the body's other members |
| Crud.CreateAppends | src/controllers/fornecedor.controller.ts:139-141 | without an id in the body, create appends one row with a fresh id and a lookup by that id finds it |
| Crud.CreateOverExistingId | src/controllers/fornecedor.controller.ts:139-140 | `POST` with a string `id` already held adds no row and writes the body's columns over the held row |
| Crud.ListingShape | src/controllers/obras.controller.ts:61-75 | listed record i is table row skip+i; at most `limit` records; `meta.total` is the table size |
| FornecedorController.Controller.constructor | src/controllers/fornecedor.controller.ts:5-8 | the controller works on the supplier table |
| FornecedorController.Controller.GetAll | src/controllers/fornecedor.controller.ts:52-78 | 200 with the page spread under index keys beside meta |
| FornecedorController.Controller.GetOne | src/controllers/fornecedor.controller.ts:104-114 | 200 with the record found by the raw id, else 404 "Fornecedor não encontrado" |
| FornecedorController.Controller.Create | src/controllers/fornecedor.controller.ts:137-142 | the created entity is saved and sent with 200 |
| FornecedorController.Controller.Update | src/controllers/fornecedor.controller.ts:172-184 | the update is keyed by `parseInt(id)`; the reply is decided by the re-read by the raw id: 404 exactly when it finds nothing |
| FornecedorController.Controller.UpdateById | src/controllers/fornecedor.controller.ts:172-184 | keyed by the raw id: 404 when no supplier has it, otherwise 200 with the found supplier merged with the body |
| FornecedorController.Controller.Delete | src/controllers/fornecedor.controller.ts:204-209 | removes the rows matching `parseInt(id)`, then 204 regardless |
| FornecedorController.UpdateOfUuidLeavesRecord | src/controllers/fornecedor.controller.ts:174-178 | when `parseInt(id)` does not read back as the id, the re-read finds the supplier unchanged |
| FornecedorController.UuidSupplierExample | src/controllers/fornecedor.controller.ts:174-178 | a UUID-keyed supplier is returned unchanged by `PUT /fornecedor/<its id>` |
| ObrasController.Controller.constructor | src/controllers/obras.controller.ts:5-8 | the controller works on the site table |
| ObrasController.Controller.GetAll | src/controllers/obras.controller.ts:52-76 | 200 with `{result: page, meta}` |
| ObrasController.Controller.GetOne | src/controllers/obras.controller.ts:102-112 | 200 with the record, else 404 "Classificação não encontrada" |
| ObrasController.Controller.Create | src/controllers/obras.controller.ts:135-140 | the created entity is saved and sent with 200 |
| ObrasController.Controller.Update | src/controllers/obras.controller.ts:172-181 | the update is keyed by the raw id; 200 with the UpdateResult when truthy, else 404 |
| ObrasController.Controller.UpdateOrNotFound | src/controllers/obras.controller.ts:172-181 | 404 exactly when no site has the id, otherwise 200 with the found site merged with the body |
| ObrasController.Controller.Delete | src/controllers/obras.controller.ts:203-208 | removes the row with the raw id, then 204 regardless |
| ClienteController.Controller.constructor | src/controllers/cliente.controller.ts:5-8 | the controller works on the client table |
| ClienteController.Controller.GetAll | src/controllers/cliente.controller.ts:53-77 | 200 with the page spread under index keys beside meta |
| ClienteController.Controller.GetOne | src/controllers/cliente.controller.ts:102-112 | 200 with the record, else 404 "Classificação não encontrada" |
| ClienteController.Controller.Create | src/controllers/cliente.controller.ts:135-139 | the built entity is sent with 200 but never saved; the table is unchanged |
| ClienteController.Controller.Update | src/controllers/cliente.controller.ts:164-173 | the update is keyed by `parseInt(id)`; 200 with the UpdateResult when truthy, else 404 |
| ClienteController.Controller.UpdateOrNotFound | src/controllers/cliente.controller.ts:164-173 | still keyed by `parseInt(id)`: 404 exactly when no client matches the key, otherwise 200 with the found client merged with the body |
| ClienteController.Controller.Delete | src/controllers/cliente.controller.ts:193-198 | removes the rows matching `parseInt(id)`, then 204 regardless |
| ProdutoController.Controller.constructor | src/controllers/produto.controller.ts:5-8 | the controller works on the product table |
| ProdutoController.Controller.GetAll | src/controllers/produto.controller.ts:52-76 | 200 with the page spread under index keys beside meta |
| ProdutoController.Controller.GetOne | src/controllers/produto.controller.ts:102-112 | 200 with the record, else 404 "Produto não encontrada" |
| ProdutoController.Controller.Create | src/controllers/produto.controller.ts:135-139 | the built entity is sent with 200 but never saved |
| ProdutoController.Controller.Update | src/controllers/produto.controller.ts:171-180 | the update is keyed by `parseInt(id)`; 200 with the UpdateResult when truthy, else 404 "Produto não encontrado" |
| ProdutoController.Controller.UpdateOrNotFound | src/controllers/produto.controller.ts:171-180 | still keyed by `parseInt(id)`: 404 "Produto não encontrado" exactly when no product matches the key, otherwise 200 with the found product merged with the body |
| ProdutoController.Controller.Delete | src/controllers/produto.controller.ts:202-207 | removes the rows matching `parseInt(id)`, then 204 regardless |
| AluguelController.ProductOf | src/controllers/aluguel.controller.ts:76-79 | a line item's product is a row of the product table that its `produto` column refers to |
| AluguelController.LineShape | src/controllers/aluguel.controller.ts:88-96 | a line shows the product's id, nome, preco, unidade, indenizacao and the item's quantidade, preco_unitario, and nothing else |
| AluguelController.Lines | src/controllers/aluguel.controller.ts:88-96 | one line per item in order; the projection fails exactly when some item's product does not resolve |
| AluguelController.NotasOf | src/controllers/aluguel.controller.ts:82-84 | exactly the invoices that refer to the rental |
| AluguelController.RentalViewShape | src/controllers/aluguel.controller.ts:86-98 | the view keeps the rental's id and columns, lists one product line per item, and exactly its invoices |
| AluguelController.RentalView | src/controllers/aluguel.controller.ts:86-98 | one rental with its product lines and invoices; stated by RentalViewShape |
| AluguelController.Views | src/controllers/aluguel.controller.ts:70-100 | one view per fetched rental |
| AluguelController.ViewsShape | src/controllers/aluguel.controller.ts:70-100 | the list is the rentals' views in page order, and fails exactly when one view fails |
| AluguelController.Controller.constructor | src/controllers/aluguel.controller.ts:5-8 | the controller works on the rental, line-item, invoice and product tables |
| AluguelController.Controller.GetAll | src/controllers/aluguel.controller.ts:57-111 | 200 with `{result: views, meta}` for the page; no reply when a view fails |
| AluguelController.Controller.GetOne | src/controllers/aluguel.controller.ts:137-183 | 404 "Aluguel não encontrado" for a missing id, otherwise 200 with the rental's view |
| AluguelController.Controller.GetOneByNotas | src/controllers/aluguel.controller.ts:209-227 | 404 "Aluguel não encontrado" for a missing id, otherwise 200 with its invoices |
| AluguelController.Controller.Create | src/controllers/aluguel.controller.ts:246-261 | saves the rental, then saves each submitted product in order as a line item of its id (`SaveAll`); it replies 200 with the rental |
| AluguelController.Controller.Update | src/controllers/aluguel.controller.ts:286-311 | a missing id means 404 and no table changes; otherwise the merged rental is saved, its line items deleted, and each submitted product saved in order under it (`SaveAll` over the other rentals' rows) |
| AluguelController.Controller.Delete | src/controllers/aluguel.controller.ts:328-333 | removes the rental with the raw id, then 204 regardless |
| AluguelController.UpdateReplacesLineItems | src/controllers/aluguel.controller.ts:301-308 | when the submitted keys are distinct and held by no other rental's line, the rental's items become exactly the submitted list, count equal to its length; other rentals' items unchanged |
| AluguelController.UpdateMovesForeignLine | src/controllers/aluguel.controller.ts:301-308 | an item carrying the key of another rental's line moves that line to this rental, and the other rental's items change |
| NotaController.Controller.constructor | src/controllers/nota.controller.ts:11-12 | the controller works on the invoice and invoice-item tables |
| NotaController.Controller.GetAll | src/controllers/nota.controller.ts:13-19 | 200 with every invoice |
| NotaController.Controller.GetOne | src/controllers/nota.controller.ts:21-33 | 200 with the invoice matching `parseInt(id)`, else 404 "nota não encontrado" |
| NotaController.Controller.Create | src/controllers/nota.controller.ts:35-49 | saves the invoice, then saves each submitted product in order as an item of it (`SaveAll`); it replies 200 with the invoice |
| NotaController.Controller.Update | src/controllers/nota.controller.ts:51-76 | a missing invoice means 404 and no table changes; otherwise the merged invoice is saved, its items deleted, and each submitted product saved in order under it (`SaveAll` over the other invoices' rows) |
| NotaController.Controller.Delete | src/controllers/nota.controller.ts:78-83 | removes the rows matching `parseInt(id)`, then 204 regardless |
| NotaController.UpdatedInvoiceIsFound | src/controllers/nota.controller.ts:62-63 | without an `id` in the body, the merged invoice is written over the found one (same table size) and is what a lookup by its id returns |
| NotaController.UpdateWithNewIdCopies | src/controllers/nota.controller.ts:62-63 | with a body `id` that no invoice has, `save` appends a copy under it and the found invoice stays as it was |

## Left out

- I/O is outside the model: the HTTP server, sockets, the filesystem and `require`. The
  directory tree of `registerControllers` and the loaded modules are given as values. The
  logger stream (including its `trim`) and `console.warn` are left out. Warnings are
  collected in a list.
- The clock is a parameter: `new Date().toISOString()` is the `date` argument.
- In `registerRoutes`, `Object.getOwnPropertyNames(Object.getPrototypeOf(...))` is given as
  the list of method names. `typeof app[method] === "function"` is the set `functions`.
- decorators/http/controller.ts is not part of this model. The class base paths it records
  are given to the `MetadataStore` constructor.
- The ORM and the database are an in-memory model:
  - Relation loading (`relations: [...]`) is not modelled. The rental projection resolves a
    line's product by its `produto` column.
  - Some relation names the handlers ask for are not declared on the entities:
    `relations: ["produtos"]` in AluguelController.Controller.Update (aluguel.controller.ts:293),
    the `cliente`, `obra` and `produtos` relations in NotaController.Controller.GetAll and
    GetOne (nota.controller.ts:16, 26), none of which the invoice entity declares, and
    `relations: ["produtos"]` in NotaController.Controller.Update (nota.controller.ts:58). As written these lookups throw before touching any
    table. The line-item repository also imports its entity from the rental module. The
    model assumes all of these lookups succeed.
  - Unique-key constraints are not modelled. An update or save that gives a row an id another
    row already holds would fail in the database; the model keeps both rows.
  - Generated `codigo`, `created_at` and `updated_at` columns are not modelled.
  - `create` keeping only declared columns is not modelled.
  - Column types and foreign-key constraints are not modelled. Deleting a parent with
    children succeeds in the model.
- The UpdateResult's driver-specific `raw` and `generatedMaps` members are left out. Only
  `affected` is modelled.
- A numeric key compares to an id as its decimal text. A database that rejects comparing a
  UUID column with a number would raise an error instead.
- Concurrency: requests run one at a time. The lost-update race of two concurrent
  delete-then-recreate updates is not modelled.
- Floating point: numbers are unbounded integers. Left out are `parseInt` precision beyond
  2^53, decimal columns (`preco`), `Math.ceil` on doubles and `NaN` as a status.
- `parseInt` of a repeated query parameter (an array) is not modelled. A query value is a
  string or absent.
- Exceptions: a handler that throws sends nothing. Express's error handling afterwards is
  not modelled.
- class-validator and class-transformer are inputs: the validation error tree and the
  transformed instance are passed in.
- Left out entirely: the classification controller, the Swagger set-up, JWT and bcrypt
  helpers, the route logger, server and app start-up, and the entity and DTO class
  declarations.
- AluguelController.Controller.GetAll: when a line's product does not resolve, the
  rejection propagates. The model then leaves the reply unset and does not model the
  framework's response.
- AluguelController.Controller.GetOne: same as GetAll for a failing projection.
- Store.RowJson: a read sends every member a row was written with, relation members
  included (`aluguel` on an invoice, `cliente` and `obra` on a rental). TypeORM's
  `find`/`findOne` leave out a relation they were not asked to load. So the invoices in
  AluguelController.RentalView (and through it Controller.GetAll and GetOne) and in
  AluguelController.Controller.GetOneByNotas carry the `aluguel` member, which the source's
  lookups without `relations` (aluguel.controller.ts:82, 163, 222) do not return. Likewise
  the rental records in GetAll and GetOne carry `cliente` and `obra` when they were written
  with them, although the rental lookups (aluguel.controller.ts:64-67, 142-144) load neither.
- Store.Window: a skip beyond the table gives an empty page, and a non-positive take means
  no limit. These are assumptions about the ORM, which is not part of this model.
- Morgan.FormatLineVisibleText: stated only for inputs without escape characters.
- Store.Merge and Store.MergeMatching: rows have no declared columns, so a body member that
  is not an entity column (say `{"foo": 1}`) is written into the row like any other. TypeORM's
  `merge` drops such a member, and its `update` rejects it with an error, so the handler
  throws and sends nothing. The rental and invoice Update handlers therefore save and answer
  a merged row that can hold members the ORM would drop. ObrasController, ClienteController,
  ProdutoController and FornecedorController `Update` answer where the ORM would throw.
- Crud.CreatedRow: a non-string `id` in a request body is treated as absent. The same holds
  for Store.Merge.
- Store.ItemId: a line item's `id` that is neither a string nor a number is treated as
  absent.
- Store.ChildTable.Save: the key the database generates for a new line item is the `gen`
  parameter. SaveEach and the aggregates' Create and Update take one per submitted item
  (`gens`).
- Store.MergeKeepsIds: promises nothing when the data carries a string `id`. That case moves
  rows (Store.MergeMovesRows).
- Store.FindAfterMerge: promises nothing when the merge moves a row into or out of the
  lookup key's matches. That can happen only when the data carries a string `id`.
- NotaController.UpdatedInvoiceIsFound: promises nothing when the body carries a string
  `id`. That case is stated by NotaController.UpdateWithNewIdCopies.
- Store.ReplaceChildren: promises nothing when an item carries a key that is already held or
  repeated. That case is stated by Store.ReplaceMovesForeignRow. The same holds for
  AluguelController.UpdateReplacesLineItems (AluguelController.UpdateMovesForeignLine).
- AluguelController.Controller.Create: a missing `produtos` array, which makes the handler
  throw, is excluded by the request type (`ParentBody`). The same holds for Update and for
  NotaController.
- Create of the rental and invoice aggregates, fornecedor and obras: a fresh generated id is
  given as a parameter and required to be unused.

## Findings

| source | as written | input that shows it | evidently intended | confidence | as-written member | corrected member |
|---|---|---|---|---|---|---|
| src/controllers/obras.controller.ts:175-180 | `if (obras)` checks the UpdateResult that `update` resolves to, which is always an object | `PUT /obras/<id of no site>` answers 200 with `{affected: 0}` | 404 "Classificação não encontrada" when no site has the id, else 200 with the updated site | medium, not executed | Crud.UpdateNeverNotFound | ObrasController.Controller.UpdateOrNotFound |
| src/controllers/cliente.controller.ts:167-172 | `if (cliente)` checks the UpdateResult, always truthy | `PUT /cliente/<id of no client>` answers 200 | 404 when no client has the key | medium, not executed | Crud.UpdateNeverNotFound | ClienteController.Controller.UpdateOrNotFound |
| src/controllers/produto.controller.ts:174-179 | `if (produto)` checks the UpdateResult, always truthy | `PUT /produto/<id of no product>` answers 200 | 404 "Produto não encontrado" when no product has the key | medium, not executed | Crud.UpdateNeverNotFound | ProdutoController.Controller.UpdateOrNotFound |
| src/controllers/fornecedor.controller.ts:174-178 | the update is keyed by `parseInt(req.params.id)`, but ids are UUIDs; the re-read uses the raw id | `PUT /fornecedor/9b1deb4d-3b7d-4bad-9bdd-2b0d7b3dcb6d` with a new `nome` answers 200 with the unchanged supplier | update keyed by the raw id, answering with the found supplier merged with the body | medium, not executed | FornecedorController.UpdateOfUuidLeavesRecord | FornecedorController.Controller.UpdateById |

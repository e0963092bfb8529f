/**
 * The pieces the entity controllers share: the reply to a lookup, the reply to an `update`
 * result checked for truthiness, the record `create(body)` builds, and the two listing payloads.
 */
module Crud {
  import opened Wrappers
  import opened Json
  import opened HttpResponses
  import opened Store
  import opened Pagination
  import Text

  /** `if (found) success(res, found) else notFound(res, message)`. */
  function FoundReply(found: Option<Row>, message: string, date: string): (r: Reply)
    ensures r.code == 200 <==> found.Some?
    ensures r.code == 404 <==> found.None?
    ensures found.Some? ==> r.body == Some(Envelope(true, date, Some(RowJson(found.value)), None))
    ensures found.None? ==> r.body == Some(Envelope(false, date, None, Some(Str(message))))
  {
    if found.Some? then Respond(Success, Some(RowJson(found.value)), date)
    else Respond(NotFound, Some(Str(message)), date)
  }

  /** `if (result) success(res, result) else notFound(res, message)` for any result value. */
  function TruthyReply(result: Value, message: string, date: string): (r: Reply)
    ensures r.code == 200 <==> Truthy(result)
    ensures r.code == 404 <==> !Truthy(result)
    ensures Truthy(result) ==> r.body == Some(Envelope(true, date, Some(result), None))
    ensures !Truthy(result) ==> r.body == Some(Envelope(false, date, None, Some(Str(message))))
  {
    if Truthy(result) then Respond(Success, Some(result), date)
    else Respond(NotFound, Some(Str(message)), date)
  }

  /**
   * The reply to `update` as the handlers check it: the result is an UpdateResult, so the
   * request is answered 200 even when the key matched no row, and never 404.
   */
  lemma UpdateNeverNotFound(rows: seq<Row>, k: Key, message: string, date: string)
    ensures TruthyReply(UpdateResultJson(Count(rows, k)), message, date).code == 200
    ensures Find(rows, k) == None ==>
      TruthyReply(UpdateResultJson(Count(rows, k)), message, date).body.value.data == Some(UpdateResultJson(0))
  {
  }

  /**
   * `create(body)`: the entity the ORM builds from a request body. A string `id` in the body is
   * kept (and `save` then writes the body's columns into the row holding it, if any); otherwise
   * the database generates `newId`.
   */
  function CreatedRow(body: map<string, Value>, newId: string): (r: Row)
    ensures r.fields == body - {"id"}
    ensures r.id == if "id" in body && body["id"].Str? then body["id"].s else newId
  {
    if "id" in body && body["id"].Str? then Row(body["id"].s, body - {"id"}) else Row(newId, body - {"id"})
  }

  /** A body without `id` and a fresh generated id: `save` appends the new row, and a lookup by its id finds it. */
  lemma CreateAppends(rows: seq<Row>, body: map<string, Value>, newId: string)
    requires "id" !in body && Find(rows, ById(newId)) == None
    ensures Upsert(rows, CreatedRow(body, newId)) == rows + [Row(newId, body)]
    ensures Find(Upsert(rows, CreatedRow(body, newId)), ById(newId)) == Some(Row(newId, body))
  {
    var r := CreatedRow(body, newId);
    assert body - {"id"} == body;
    FindAfterUpsert(rows, r);
  }

  /**
   * A body whose `id` is already held: `save` updates that row instead of adding one, writing
   * the body's columns over the row's and keeping the columns the body leaves out.
   */
  lemma CreateOverExistingId(rows: seq<Row>, body: map<string, Value>, newId: string)
    requires CarriesId(body) && Find(rows, ById(body["id"].s)).Some?
    ensures var held := Find(rows, ById(body["id"].s)).value;
      && |Upsert(rows, CreatedRow(body, newId))| == |rows|
      && Find(Upsert(rows, CreatedRow(body, newId)), ById(body["id"].s)) == Some(Row(held.id, held.fields + (body - {"id"})))
  {
    FindAfterUpsert(rows, CreatedRow(body, newId));
  }

  /** `{...data, meta}` for one page of a table. */
  function SpreadListing(rows: seq<Row>, q: Query): (v: Value)
    requires q.limit != 0
  {
    SpreadPayload(RowsJson(Window(rows, q.skip, q.take)), Meta(q, |rows|))
  }

  /** `{result: data, meta}` for one page of a table. */
  function ResultListing(rows: seq<Row>, q: Query): (v: Value)
    requires q.limit != 0
  {
    ResultPayload(RowsJson(Window(rows, q.skip, q.take)), Meta(q, |rows|))
  }

  /**
   * The page's records appear in table order from row `skip` on, at most `limit` of them,
   * and `meta.total` is the size of the whole table.
   */
  lemma ListingShape(rows: seq<Row>, q: Query, i: nat)
    requires q.page >= 1 && q.limit > 0 && q.skip == (q.page - 1) * q.limit && q.take == q.limit
    requires i < |Window(rows, q.skip, q.take)|
    ensures q.skip + i < |rows|
    ensures ResultListing(rows, q).members["result"].items[i] == RowJson(rows[q.skip + i])
    ensures Text.Decimal(i) in SpreadListing(rows, q).members
      && SpreadListing(rows, q).members[Text.Decimal(i)] == RowJson(rows[q.skip + i])
    ensures |ResultListing(rows, q).members["result"].items| <= q.limit
    ensures ResultListing(rows, q).members["meta"].members["total"] == Num(|rows|)
  {
    MulNonNegative(q.page - 1, q.limit);
    var w := Window(rows, q.skip, q.take);
    var items := RowsJson(w);
    assert w[i] == rows[q.skip + i];
    assert items[i] == RowJson(rows[q.skip + i]);
    assert ResultListing(rows, q).members["result"].items == items;
    SpreadPayloadShape(items, Meta(q, |rows|), i);
  }

  /** A create or update request of a parent/child aggregate: the parent's columns and the `produtos` items. */
  datatype ParentBody = ParentBody(fields: map<string, Value>, produtos: seq<map<string, Value>>)
}

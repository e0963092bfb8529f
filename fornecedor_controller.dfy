/** The supplier endpoints under `/fornecedor`, over the supplier table. */
module FornecedorController {
  import opened Wrappers
  import opened Json
  import opened HttpResponses
  import opened Store
  import opened Pagination
  import opened Crud
  import Text
  import ParseInt

  const NotFoundMessage := "Fornecedor não encontrado"

  class Controller {
    const repo: Table

    constructor (repo: Table)
      ensures this.repo == repo
    {
      this.repo := repo;
    }

    /** `GET /list`: one page of suppliers spread under index keys beside `meta`; no `result` field. */
    method GetAll(pageParam: Option<string>, limitParam: Option<string>, res: Response, date: string)
      modifies res
      ensures res.reply == Some(Respond(Success, Some(SpreadListing(repo.rows, ParseQuery(pageParam, limitParam))), date))
    {
      var q := ParseQuery(pageParam, limitParam);
      var data, total := repo.FindAndCount(q.skip, q.take);
      SendSuccess(res, SpreadPayload(RowsJson(data), Meta(q, total)), date);
    }

    /** `GET /:id`: looked up by the raw id. */
    method GetOne(id: string, res: Response, date: string)
      modifies res
      ensures res.reply == Some(FoundReply(Find(repo.rows, ById(id)), NotFoundMessage, date))
    {
      var found := Find(repo.rows, ById(id));
      if found.Some? {
        SendSuccess(res, RowJson(found.value), date);
      } else {
        SendNotFound(res, NotFoundMessage, date);
      }
    }

    /** `POST /create`: `create(body)` then `save`, answering with the saved record. */
    method Create(body: map<string, Value>, newId: string, res: Response, date: string)
      requires Find(repo.rows, ById(newId)) == None
      modifies repo, res
      ensures repo.rows == Upsert(old(repo.rows), CreatedRow(body, newId))
      ensures res.reply == Some(Respond(Success, Some(RowJson(CreatedRow(body, newId))), date))
    {
      var created := CreatedRow(body, newId);
      repo.Save(created);
      SendSuccess(res, RowJson(created), date);
    }

    /**
     * `PUT /:id`: `update(parseInt(id), body)`, then a re-read by the raw id decides the
     * answer: 404 exactly when the re-read finds nothing, otherwise 200 with what it found.
     */
    method Update(id: string, patch: map<string, Value>, res: Response, date: string)
      modifies repo, res
      ensures repo.rows == MergeMatching(old(repo.rows), NumericKey(id), patch)
      ensures res.reply == Some(FoundReply(Find(repo.rows, ById(id)), NotFoundMessage, date))
    {
      var _ := repo.Update(NumericKey(id), patch);
      var updated := Find(repo.rows, ById(id));
      if updated.Some? {
        SendSuccess(res, RowJson(updated.value), date);
      } else {
        SendNotFound(res, NotFoundMessage, date);
      }
    }

    /**
     * `update` with the key it evidently means, the raw id, answered with the supplier it
     * found, merged: 200 with the merged record whenever the supplier exists, 404 otherwise.
     */
    method UpdateById(id: string, patch: map<string, Value>, res: Response, date: string)
      modifies repo, res
      ensures repo.rows == MergeMatching(old(repo.rows), ById(id), patch)
      ensures res.reply == Some(FoundReply(
        if Find(old(repo.rows), ById(id)).Some? then Some(Merge(Find(old(repo.rows), ById(id)).value, patch)) else None,
        NotFoundMessage, date))
    {
      var found := Find(repo.rows, ById(id));
      var _ := repo.Update(ById(id), patch);
      if found.Some? {
        SendSuccess(res, RowJson(Merge(found.value, patch)), date);
      } else {
        SendNotFound(res, NotFoundMessage, date);
      }
    }

    /** `DELETE /:id`: `delete(parseInt(id))`, then 204 whether or not a row was removed. */
    method Delete(id: string, res: Response)
      modifies repo, res
      ensures repo.rows == Without(old(repo.rows), NumericKey(id))
      ensures res.reply == Some(Reply(204, None))
    {
      repo.Delete(NumericKey(id));
      SendSuccessEmpty(res);
    }
  }

  /**
   * The re-read of `update` sees the change only when `parseInt(id)` reads back as the id.
   * For a UUID it does not: the supplier is found unchanged and sent with 200.
   */
  lemma UpdateOfUuidLeavesRecord(rows: seq<Row>, id: string, patch: map<string, Value>)
    requires Find(rows, ById(id)).Some?
    requires ParseInt.Parse(id).None? || Text.Decimal(ParseInt.Parse(id).value) != id
    requires !CarriesId(patch) || patch["id"].s != id
    ensures Find(MergeMatching(rows, NumericKey(id), patch), ById(id)) == Find(rows, ById(id))
  {
    var r := Find(rows, ById(id)).value;
    NumericKeyMatches(id, r);
    forall x | Matches(x, NumericKey(id))
      ensures Matches(Merge(x, patch), ById(id)) <==> Matches(x, ById(id))
    {
      NumericKeyMatches(id, x);
    }
    FindAfterMerge(rows, NumericKey(id), patch, ById(id));
  }

  /** A concrete case: a supplier whose id is a UUID is not changed by `PUT /fornecedor/<its id>`. */
  lemma UuidSupplierExample(patch: map<string, Value>)
    ensures var id := ParseInt.DigitLedUuid;
      var rows := [Row(id, map["nome" := Str("A")])];
      Find(MergeMatching(rows, NumericKey(id), patch), ById(id)) == Some(rows[0])
  {
    var id := ParseInt.DigitLedUuid;
    ParseInt.DigitLedUuidReadsAsNine();
    assert Text.Decimal(9) == "9";
    var rows := [Row(id, map["nome" := Str("A")])];
    assert !Matches(rows[0], NumericKey(id));
    UpdateMissingIsNoOp(rows, NumericKey(id), patch);
  }
}

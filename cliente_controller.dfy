/** The client endpoints under `/cliente`, over the client table. */
module ClienteController {
  import opened Wrappers
  import opened Json
  import opened HttpResponses
  import opened Store
  import opened Pagination
  import opened Crud

  const NotFoundMessage := "Classificação não encontrada"

  class Controller {
    const repo: Table

    constructor (repo: Table)
      ensures this.repo == repo
    {
      this.repo := repo;
    }

    /** `GET /list`: one page of clients spread under index keys beside `meta`. */
    method GetAll(pageParam: Option<string>, limitParam: Option<string>, res: Response, date: string)
      modifies res
      ensures res.reply == Some(Respond(Success, Some(SpreadListing(repo.rows, ParseQuery(pageParam, limitParam))), date))
    {
      var q := ParseQuery(pageParam, limitParam);
      var data, total := repo.FindAndCount(q.skip, q.take);
      SendSuccess(res, SpreadPayload(RowsJson(data), Meta(q, total)), date);
    }

    /** `GET /:id`: looked up by the raw id. */
    method GetOne(id: string, res: Response, date: string)
      modifies res
      ensures res.reply == Some(FoundReply(Find(repo.rows, ById(id)), NotFoundMessage, date))
    {
      var found := Find(repo.rows, ById(id));
      if found.Some? {
        SendSuccess(res, RowJson(found.value), date);
      } else {
        SendNotFound(res, NotFoundMessage, date);
      }
    }

    /**
     * `POST /create`: `create(body)` builds the entity and it is sent back, but it is never
     * saved: the table is not changed and the entity has no generated id.
     */
    method Create(body: map<string, Value>, res: Response, date: string)
      modifies res
      ensures res.reply == Some(Respond(Success, Some(Obj(body)), date))
    {
      SendSuccess(res, Obj(body), date);
    }

    /**
     * `PUT /:id`: `update(parseInt(id), body)`; the answer is 200 with the update result when
     * that result is truthy and 404 otherwise.
     */
    method Update(id: string, patch: map<string, Value>, res: Response, date: string)
      modifies repo, res
      ensures repo.rows == MergeMatching(old(repo.rows), NumericKey(id), patch)
      ensures res.reply == Some(TruthyReply(UpdateResultJson(Count(old(repo.rows), NumericKey(id))), NotFoundMessage, date))
    {
      var result := repo.Update(NumericKey(id), patch);
      if Truthy(result) {
        SendSuccess(res, result, date);
      } else {
        SendNotFound(res, NotFoundMessage, date);
      }
    }

    /**
     * `update` answering as evidently intended: 404 when no row has the key, otherwise 200
     * with the updated record.
     */
    method UpdateOrNotFound(id: string, patch: map<string, Value>, res: Response, date: string)
      modifies repo, res
      ensures repo.rows == MergeMatching(old(repo.rows), NumericKey(id), patch)
      ensures res.reply == Some(FoundReply(
        if Find(old(repo.rows), NumericKey(id)).Some? then Some(Merge(Find(old(repo.rows), NumericKey(id)).value, patch)) else None,
        NotFoundMessage, date))
    {
      var found := Find(repo.rows, NumericKey(id));
      var _ := repo.Update(NumericKey(id), patch);
      if found.Some? {
        SendSuccess(res, RowJson(Merge(found.value, patch)), date);
      } else {
        SendNotFound(res, NotFoundMessage, date);
      }
    }

    /** `DELETE /:id`: `delete(parseInt(id))`, then 204 whether or not a row was removed. */
    method Delete(id: string, res: Response)
      modifies repo, res
      ensures repo.rows == Without(old(repo.rows), NumericKey(id))
      ensures res.reply == Some(Reply(204, None))
    {
      repo.Delete(NumericKey(id));
      SendSuccessEmpty(res);
    }
  }
}

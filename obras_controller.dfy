/** The construction-site endpoints under `/obras`, over the site table. */
module ObrasController {
  import opened Wrappers
  import opened Json
  import opened HttpResponses
  import opened Store
  import opened Pagination
  import opened Crud

  const NotFoundMessage := "Classificação não encontrada"

  class Controller {
    const repo: Table

    constructor (repo: Table)
      ensures this.repo == repo
    {
      this.repo := repo;
    }

    /** `GET /list`: one page of sites as `{result, meta}`. */
    method GetAll(pageParam: Option<string>, limitParam: Option<string>, res: Response, date: string)
      modifies res
      ensures res.reply == Some(Respond(Success, Some(ResultListing(repo.rows, ParseQuery(pageParam, limitParam))), date))
    {
      var q := ParseQuery(pageParam, limitParam);
      var data, total := repo.FindAndCount(q.skip, q.take);
      SendSuccess(res, ResultPayload(RowsJson(data), Meta(q, total)), date);
    }

    /** `GET /:id`: looked up by the raw id. */
    method GetOne(id: string, res: Response, date: string)
      modifies res
      ensures res.reply == Some(FoundReply(Find(repo.rows, ById(id)), NotFoundMessage, date))
    {
      var found := Find(repo.rows, ById(id));
      if found.Some? {
        SendSuccess(res, RowJson(found.value), date);
      } else {
        SendNotFound(res, NotFoundMessage, date);
      }
    }

    /** `POST /create`: `create(body)` then `save`, answering with the saved record. */
    method Create(body: map<string, Value>, newId: string, res: Response, date: string)
      requires Find(repo.rows, ById(newId)) == None
      modifies repo, res
      ensures repo.rows == Upsert(old(repo.rows), CreatedRow(body, newId))
      ensures res.reply == Some(Respond(Success, Some(RowJson(CreatedRow(body, newId))), date))
    {
      var created := CreatedRow(body, newId);
      repo.Save(created);
      SendSuccess(res, RowJson(created), date);
    }

    /**
     * `PUT /:id`: `update(id, body)`; the answer is 200 with the update result when
     * that result is truthy and 404 otherwise.
     */
    method Update(id: string, patch: map<string, Value>, res: Response, date: string)
      modifies repo, res
      ensures repo.rows == MergeMatching(old(repo.rows), ById(id), patch)
      ensures res.reply == Some(TruthyReply(UpdateResultJson(Count(old(repo.rows), ById(id))), NotFoundMessage, date))
    {
      var result := repo.Update(ById(id), patch);
      if Truthy(result) {
        SendSuccess(res, result, date);
      } else {
        SendNotFound(res, NotFoundMessage, date);
      }
    }

    /**
     * `update` answering as evidently intended: 404 when no row has the key, otherwise 200
     * with the updated record.
     */
    method UpdateOrNotFound(id: string, patch: map<string, Value>, res: Response, date: string)
      modifies repo, res
      ensures repo.rows == MergeMatching(old(repo.rows), ById(id), patch)
      ensures res.reply == Some(FoundReply(
        if Find(old(repo.rows), ById(id)).Some? then Some(Merge(Find(old(repo.rows), ById(id)).value, patch)) else None,
        NotFoundMessage, date))
    {
      var found := Find(repo.rows, ById(id));
      var _ := repo.Update(ById(id), patch);
      if found.Some? {
        SendSuccess(res, RowJson(Merge(found.value, patch)), date);
      } else {
        SendNotFound(res, NotFoundMessage, date);
      }
    }

    /** `DELETE /:id`: `delete(id)`, then 204 whether or not a row was removed. */
    method Delete(id: string, res: Response)
      modifies repo, res
      ensures repo.rows == Without(old(repo.rows), ById(id))
      ensures res.reply == Some(Reply(204, None))
    {
      repo.Delete(ById(id));
      SendSuccessEmpty(res);
    }
  }
}

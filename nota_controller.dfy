/** The invoice endpoints under `/nota`: the invoice table and its line-item join table. */
module NotaController {
  import opened Wrappers
  import opened Json
  import opened HttpResponses
  import opened Store
  import opened Crud

  const NotFoundMessage := "nota não encontrado"

  class Controller {
    const repo: Table
    const items: ChildTable

    constructor (repo: Table, items: ChildTable)
      ensures this.repo == repo && this.items == items
    {
      this.repo := repo;
      this.items := items;
    }

    /** `GET /list`: every invoice, unpaginated. */
    method GetAll(res: Response, date: string)
      modifies res
      ensures res.reply == Some(Respond(Success, Some(Arr(RowsJson(repo.rows))), date))
    {
      SendSuccess(res, Arr(RowsJson(repo.rows)), date);
    }

    /** `GET /:id`: looked up by `parseInt(id)`. */
    method GetOne(id: string, res: Response, date: string)
      modifies res
      ensures res.reply == Some(FoundReply(Find(repo.rows, NumericKey(id)), NotFoundMessage, date))
    {
      var nota := Find(repo.rows, NumericKey(id));
      if nota.Some? {
        SendSuccess(res, RowJson(nota.value), date);
      } else {
        SendNotFound(res, NotFoundMessage, date);
      }
    }

    /**
     * `POST /create`: save the invoice, then save each submitted product as a line item linked
     * to it; item i gets the generated key `gens[i]` unless it carries a key of its own.
     */
    method Create(body: ParentBody, newId: string, gens: seq<string>, res: Response, date: string)
      requires Find(repo.rows, ById(newId)) == None && |gens| == |body.produtos|
      modifies repo, items, res
      ensures var created := CreatedRow(body.fields, newId);
        && repo.rows == Upsert(old(repo.rows), created)
        && items.rows == SaveAll(old(items.rows), created.id, body.produtos, gens)
        && res.reply == Some(Respond(Success, Some(RowJson(created)), date))
    {
      var nota := CreatedRow(body.fields, newId);
      repo.Save(nota);
      SaveEach(items, nota.id, body.produtos, gens);
      SendSuccess(res, RowJson(nota), date);
    }

    /**
     * `PUT /:id`: 404 and no change when `parseInt(id)` finds no invoice. Otherwise the merged
     * invoice is saved first, then its line items are deleted and each submitted product is saved
     * as a line item.
     */
    method Update(id: string, body: ParentBody, gens: seq<string>, res: Response, date: string)
      requires |gens| == |body.produtos|
      modifies repo, items, res
      ensures var found := Find(old(repo.rows), NumericKey(id));
        && (found.None? ==>
              repo.rows == old(repo.rows) && items.rows == old(items.rows)
              && res.reply == Some(Respond(NotFound, Some(Str(NotFoundMessage)), date)))
        && (found.Some? ==>
              var merged := Merge(found.value, body.fields);
              && repo.rows == Upsert(old(repo.rows), merged)
              && items.rows == SaveAll(OtherParents(old(items.rows), merged.id), merged.id, body.produtos, gens)
              && res.reply == Some(Respond(Success, Some(RowJson(merged)), date)))
    {
      var nota := Find(repo.rows, NumericKey(id));
      if nota.None? {
        SendNotFound(res, NotFoundMessage, date);
        return;
      }
      var merged := Merge(nota.value, body.fields);
      repo.Save(merged);
      items.DeleteByParent(merged.id);
      SaveEach(items, merged.id, body.produtos, gens);
      SendSuccess(res, RowJson(merged), date);
    }

    /** `DELETE /:id`: `delete(parseInt(id))`, then 204 whether or not the invoice existed. */
    method Delete(id: string, res: Response)
      modifies repo, res
      ensures repo.rows == Without(old(repo.rows), NumericKey(id))
      ensures res.reply == Some(Reply(204, None))
    {
      repo.Delete(NumericKey(id));
      SendSuccessEmpty(res);
    }
  }

  /**
   * With a body that carries no id, `merge` keeps the invoice's id, so the saved row takes the
   * place of the one that was found and is what a lookup by that id returns afterwards.
   */
  lemma UpdatedInvoiceIsFound(rows: seq<Row>, id: string, fields: map<string, Value>)
    requires Find(rows, NumericKey(id)).Some?
    ensures var merged := Merge(Find(rows, NumericKey(id)).value, fields);
      !CarriesId(fields) ==>
      Find(Upsert(rows, merged), ById(merged.id)) == Some(merged) && |Upsert(rows, merged)| == |rows|
  {
    var found := Find(rows, NumericKey(id)).value;
    var merged := Merge(found, fields);
    if !CarriesId(fields) {
      assert merged.id == found.id;
      FindFirstOfSameId(rows, NumericKey(id), found);
      SaveOverFound(rows, found, merged);
    }
  }

  lemma SaveOverFound(rows: seq<Row>, found: Row, merged: Row)
    requires Find(rows, ById(found.id)) == Some(found)
    requires merged.id == found.id && found.fields.Keys <= merged.fields.Keys
    ensures Find(Upsert(rows, merged), ById(merged.id)) == Some(merged) && |Upsert(rows, merged)| == |rows|
  {
    OverrideCovered(found.fields, merged.fields);
    FindAfterUpsert(rows, merged);
    assert Row(merged.id, found.fields + merged.fields) == merged;
  }

  lemma OverrideCovered(a: map<string, Value>, b: map<string, Value>)
    requires a.Keys <= b.Keys
    ensures a + b == b
  {
  }

  /**
   * With a body that carries an id no invoice holds, `merge` gives the entity that id and
   * `save` inserts it: the invoice is copied under the new id and the one that was found stays.
   */
  lemma UpdateWithNewIdCopies(rows: seq<Row>, id: string, fields: map<string, Value>)
    requires Find(rows, NumericKey(id)).Some?
    requires CarriesId(fields) && Find(rows, ById(fields["id"].s)) == None
    ensures var found := Find(rows, NumericKey(id)).value;
      && Upsert(rows, Merge(found, fields)) == rows + [Merge(found, fields)]
      && Find(Upsert(rows, Merge(found, fields)), ById(found.id)) == Some(found)
  {
    var found := Find(rows, NumericKey(id)).value;
    SaveUnderNewIdCopies(rows, found, fields);
    FindFirstOfSameId(rows, NumericKey(id), found);
    FindAppend(rows, Merge(found, fields), ById(found.id));
  }
}

/**
 * The rental endpoints under `/aluguel`: the rentals table, its line-item join table (one row
 * per rented product), and the invoice and product tables the listings read.
 */
module AluguelController {
  import opened Wrappers
  import opened Json
  import opened HttpResponses
  import opened Store
  import opened Pagination
  import opened Crud

  const NotFoundMessage := "Aluguel não encontrado"

  /** Whether column `key` refers to the row `id`: the id itself or an object carrying it. */
  predicate RefersTo(fields: map<string, Value>, key: string, id: string) {
    key in fields &&
    (fields[key] == Str(id) || (fields[key].Obj? && "id" in fields[key].members && fields[key].members["id"] == Str(id)))
  }

  /** The product a line-item row refers to through its `produto` column, if any. */
  function ProductOf(c: Child, produtos: seq<Row>): (p: Option<Row>)
    ensures p.Some? ==> p.value in produtos && RefersTo(c.fields, "produto", p.value.id)
  {
    if "produto" !in c.fields then None
    else match c.fields["produto"]
      case Str(pid) => Find(produtos, ById(pid))
      case Obj(m) => if "id" in m && m["id"].Str? then Find(produtos, ById(m["id"].s)) else None
      case _ => None
  }

  /** The product columns a line shows. */
  const ProductColumns: set<string> := {"nome", "preco", "unidade", "indenizacao"}
  /** The line-item columns a line shows. */
  const LineColumns: set<string> := {"quantidade", "preco_unitario"}

  /**
   * One entry of `produtos` in a rental's view: the product's id, nome, preco, unidade and
   * indenizacao with the line's quantidade and preco_unitario. A column the row lacks is left out.
   */
  function Line(c: Child, p: Row): Value {
    Obj(map k | k in {"id"} + (ProductColumns * p.fields.Keys) + (LineColumns * c.fields.Keys) ::
      if k == "id" then Str(p.id) else if k in ProductColumns then p.fields[k] else c.fields[k])
  }

  lemma LineShape(c: Child, p: Row)
    ensures var v := Line(c, p);
      && v.Obj? && v.members["id"] == Str(p.id)
      && v.members.Keys <= {"id"} + ProductColumns + LineColumns
      && (forall k :: k in ProductColumns ==> (k in v.members <==> k in p.fields) && (k in p.fields ==> v.members[k] == p.fields[k]))
      && (forall k :: k in LineColumns ==> (k in v.members <==> k in c.fields) && (k in c.fields ==> v.members[k] == c.fields[k]))
  {
  }

  /**
   * `aluguelProdutos.map(ap => ...)`: one entry per line item, in order. A line whose product
   * does not resolve makes `ap.produto.id` throw, so the whole projection fails (None).
   */
  function Lines(children: seq<Child>, produtos: seq<Row>): (r: Option<seq<Value>>)
    ensures r.Some? <==> forall i :: 0 <= i < |children| ==> ProductOf(children[i], produtos).Some?
    ensures r.Some? ==> (|r.value| == |children| &&
      forall i :: 0 <= i < |children| ==> r.value[i] == Line(children[i], ProductOf(children[i], produtos).value))
  {
    if children == [] then Some([])
    else
      var p := ProductOf(children[0], produtos);
      var rest := Lines(children[1..], produtos);
      if p.None? then None
      else if rest.None? then
        var j :| 0 <= j < |children[1..]| && ProductOf(children[1..][j], produtos).None?;
        assert children[j + 1] == children[1..][j];
        None
      else
        assert forall i :: 1 <= i < |children| ==> children[i] == children[1..][i - 1];
        Some([Line(children[0], p.value)] + rest.value)
  }

  /** `notaRepository.find({where: {aluguel: {id}}})`: the invoices of one rental, in table order. */
  function NotasOf(notas: seq<Row>, id: string): (ns: seq<Row>)
    ensures forall n :: n in ns <==> n in notas && RefersTo(n.fields, "aluguel", id)
  {
    if notas == [] then []
    else (if RefersTo(notas[0].fields, "aluguel", id) then [notas[0]] else []) + NotasOf(notas[1..], id)
  }

  /** A rental as the listings send it: its columns, then `produtos` and `notas`. */
  function RentalView(a: Row, items: seq<Child>, notas: seq<Row>, produtos: seq<Row>): Option<Value> {
    var lines := Lines(ChildrenOf(items, a.id), produtos);
    if lines.None? then None
    else Some(Obj(RowJson(a).members["produtos" := Arr(lines.value)]["notas" := Arr(RowsJson(NotasOf(notas, a.id)))]))
  }

  /**
   * The view keeps the rental's id and every column other than `produtos` and `notas`; it lists
   * one product entry per line item of this rental, and exactly this rental's invoices.
   */
  lemma RentalViewShape(a: Row, items: seq<Child>, notas: seq<Row>, produtos: seq<Row>)
    requires RentalView(a, items, notas, produtos).Some?
    ensures var v := RentalView(a, items, notas, produtos).value;
      && v.Obj?
      && v.members["id"] == Str(a.id)
      && (forall k :: k in a.fields && k != "id" && k != "produtos" && k != "notas" ==> v.members[k] == a.fields[k])
      && v.members["produtos"].Arr? && |v.members["produtos"].items| == |ChildrenOf(items, a.id)|
      && v.members["notas"] == Arr(RowsJson(NotasOf(notas, a.id)))
  {
  }

  /** `Promise.all` over results that are each a value or a failure: all the values, or a failure if any fails. */
  function All<T>(os: seq<Option<T>>): (r: Option<seq<T>>)
    ensures r.Some? ==> |r.value| == |os|
  {
    if os == [] then Some([])
    else
      var rest := All(os[1..]);
      if os[0].None? || rest.None? then None else Some([os[0].value] + rest.value)
  }

  lemma {:induction false} AllShape<T>(os: seq<Option<T>>)
    ensures var r := All(os);
      && (r.Some? <==> forall i :: 0 <= i < |os| ==> os[i].Some?)
      && (r.Some? ==> forall i :: 0 <= i < |os| ==> r.value[i] == os[i].value)
  {
    if os != [] {
      AllShape(os[1..]);
      var r := All(os);
      assert forall i :: 1 <= i < |os| ==> os[i] == os[1..][i - 1];
      if r.Some? {
        forall i | 0 <= i < |os|
          ensures r.value[i] == os[i].value
        {
          if i > 0 {
            assert r.value[i] == All(os[1..]).value[i - 1];
          }
        }
      }
    }
  }

  /** `Promise.all(alugueis.map(...))`: every rental's view, in page order, or a failure if any fails. */
  function Views(page: seq<Row>, items: seq<Child>, notas: seq<Row>, produtos: seq<Row>): (r: Option<seq<Value>>)
    ensures r.Some? ==> |r.value| == |page|
  {
    All(seq(|page|, i requires 0 <= i < |page| => RentalView(page[i], items, notas, produtos)))
  }

  /** The listing has one entry per fetched rental, in order; it fails exactly when one rental's view fails. */
  lemma ViewsShape(page: seq<Row>, items: seq<Child>, notas: seq<Row>, produtos: seq<Row>)
    ensures var r := Views(page, items, notas, produtos);
      && (r.Some? <==> forall i :: 0 <= i < |page| ==> RentalView(page[i], items, notas, produtos).Some?)
      && (r.Some? ==> forall i :: 0 <= i < |page| ==> r.value[i] == RentalView(page[i], items, notas, produtos).value)
  {
    var vs := seq(|page|, i requires 0 <= i < |page| => RentalView(page[i], items, notas, produtos));
    AllShape(vs);
    assert forall i :: 0 <= i < |page| ==> vs[i] == RentalView(page[i], items, notas, produtos);
  }

  class Controller {
    const repo: Table
    const items: ChildTable
    const notas: Table
    const produtos: Table

    constructor (repo: Table, items: ChildTable, notas: Table, produtos: Table)
      ensures this.repo == repo && this.items == items && this.notas == notas && this.produtos == produtos
    {
      this.repo := repo;
      this.items := items;
      this.notas := notas;
      this.produtos := produtos;
    }

    /**
     * `GET /list`: one page of rentals as `{result, meta}`, each with its products and invoices.
     * When a view fails the handler throws and this handler sends nothing.
     */
    method GetAll(pageParam: Option<string>, limitParam: Option<string>, res: Response, date: string)
      modifies res
      ensures var q := ParseQuery(pageParam, limitParam);
        var views := Views(Window(repo.rows, q.skip, q.take), items.rows, notas.rows, produtos.rows);
        && (views.Some? ==> res.reply == Some(Respond(Success, Some(ResultPayload(views.value, Meta(q, |repo.rows|))), date)))
        && (views.None? ==> res.reply == old(res.reply))
    {
      var q := ParseQuery(pageParam, limitParam);
      var alugueis, total := repo.FindAndCount(q.skip, q.take);
      var dados := Views(alugueis, items.rows, notas.rows, produtos.rows);
      if dados.Some? {
        SendSuccess(res, ResultPayload(dados.value, Meta(q, total)), date);
      }
    }

    /** `GET /:id`: 404 when no rental has the id, otherwise its view. */
    method GetOne(id: string, res: Response, date: string)
      modifies res
      ensures var found := Find(repo.rows, ById(id));
        && (found.None? ==> res.reply == Some(Respond(NotFound, Some(Str(NotFoundMessage)), date)))
        && (found.Some? && RentalView(found.value, items.rows, notas.rows, produtos.rows).Some? ==>
              res.reply == Some(Respond(Success, RentalView(found.value, items.rows, notas.rows, produtos.rows), date)))
        && (found.Some? && RentalView(found.value, items.rows, notas.rows, produtos.rows).None? ==>
              res.reply == old(res.reply))
    {
      var aluguel := Find(repo.rows, ById(id));
      if aluguel.None? {
        SendNotFound(res, NotFoundMessage, date);
        return;
      }
      var view := RentalView(aluguel.value, items.rows, notas.rows, produtos.rows);
      if view.Some? {
        SendSuccess(res, view.value, date);
      }
    }

    /** `GET /:id/notas`: 404 when no rental has the id, otherwise its invoices. */
    method GetOneByNotas(id: string, res: Response, date: string)
      modifies res
      ensures var found := Find(repo.rows, ById(id));
        && (found.None? ==> res.reply == Some(Respond(NotFound, Some(Str(NotFoundMessage)), date)))
        && (found.Some? ==> res.reply == Some(Respond(Success, Some(Arr(RowsJson(NotasOf(notas.rows, found.value.id)))), date)))
    {
      var aluguel := Find(repo.rows, ById(id));
      if aluguel.None? {
        SendNotFound(res, NotFoundMessage, date);
        return;
      }
      SendSuccess(res, Arr(RowsJson(NotasOf(notas.rows, aluguel.value.id))), date);
    }

    /**
     * `POST /create`: save the rental, then save each submitted product as a line item linked to
     * its id; item i gets the generated key `gens[i]` unless it carries a key of its own.
     */
    method Create(body: ParentBody, newId: string, gens: seq<string>, res: Response, date: string)
      requires Find(repo.rows, ById(newId)) == None && |gens| == |body.produtos|
      modifies repo, items, res
      ensures var created := CreatedRow(body.fields, newId);
        && repo.rows == Upsert(old(repo.rows), created)
        && items.rows == SaveAll(old(items.rows), created.id, body.produtos, gens)
        && res.reply == Some(Respond(Success, Some(RowJson(created)), date))
    {
      var aluguel := CreatedRow(body.fields, newId);
      repo.Save(aluguel);
      SaveEach(items, aluguel.id, body.produtos, gens);
      SendSuccess(res, RowJson(aluguel), date);
    }

    /**
     * `PUT /:id`: 404 and no change when no rental has the id. Otherwise the merged rental is
     * saved, its line items are deleted and each submitted product is saved as a line item.
     */
    method Update(id: string, body: ParentBody, gens: seq<string>, res: Response, date: string)
      requires |gens| == |body.produtos|
      modifies repo, items, res
      ensures var found := Find(old(repo.rows), ById(id));
        && (found.None? ==>
              repo.rows == old(repo.rows) && items.rows == old(items.rows)
              && res.reply == Some(Respond(NotFound, Some(Str(NotFoundMessage)), date)))
        && (found.Some? ==>
              var merged := Merge(found.value, body.fields);
              && repo.rows == Upsert(old(repo.rows), merged)
              && items.rows == SaveAll(OtherParents(old(items.rows), merged.id), merged.id, body.produtos, gens)
              && res.reply == Some(Respond(Success, Some(RowJson(merged)), date)))
    {
      var aluguel := Find(repo.rows, ById(id));
      if aluguel.None? {
        SendNotFound(res, NotFoundMessage, date);
        return;
      }
      var merged := Merge(aluguel.value, body.fields);
      repo.Save(merged);
      items.DeleteByParent(merged.id);
      SaveEach(items, merged.id, body.produtos, gens);
      SendSuccess(res, RowJson(merged), date);
    }

    /** `DELETE /:id`: remove the rental with the raw id (its line items stay), then 204. */
    method Delete(id: string, res: Response)
      modifies repo, res
      ensures repo.rows == Without(old(repo.rows), ById(id))
      ensures res.reply == Some(Reply(204, None))
    {
      repo.Delete(ById(id));
      SendSuccessEmpty(res);
    }
  }

  /**
   * After an `update` of an existing rental whose submitted items get new keys, its line items
   * are exactly the submitted list, one row per item in order, however many it had before;
   * every other rental keeps its rows.
   */
  lemma UpdateReplacesLineItems(before: seq<Child>, id: string, produtos: seq<map<string, Value>>, gens: seq<string>, other: string)
    requires |gens| == |produtos| && NewKeys(OtherParents(before, id), produtos, gens)
    ensures var after := SaveAll(OtherParents(before, id), id, produtos, gens);
      && ChildrenOf(after, id) == ChildRows(id, produtos, gens)
      && |ChildrenOf(after, id)| == |produtos|
      && (other != id ==> ChildrenOf(after, other) == ChildrenOf(before, other))
  {
    ReplaceChildren(before, id, produtos, gens, other);
  }

  /**
   * `PUT /aluguel/B` with an item that carries the key of a line of rental A moves that line to
   * B: afterwards every row with that key belongs to B, and A's line items have changed.
   */
  lemma UpdateMovesForeignLine(before: seq<Child>, id: string, item: map<string, Value>, gen: string, j: nat)
    requires j < |before| && before[j].parent != id && ItemId(item) == Some(before[j].id)
    ensures var after := SaveAll(OtherParents(before, id), id, [item], [gen]);
      && (forall c :: c in after && c.id == before[j].id ==> c.parent == id)
      && ChildrenOf(after, before[j].parent) != ChildrenOf(before, before[j].parent)
  {
    ReplaceMovesForeignRow(before, id, item, gen, j);
  }
}

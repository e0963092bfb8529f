/**
 * An in-memory stand-in for the TypeORM repositories the controllers call. The ORM is not
 * part of this model; each operation below is the behaviour the controllers rely on:
 * `findAndCount({skip, take})` is a window of the table plus its size, `findOne`/`findOneBy`
 * the first matching row, `save` an insert-or-update by primary key, `update` a merge of every
 * matching row answered by an UpdateResult object (the repositories are the ORM's own, built
 * by `getRepository` in src/repositories, not the protocol of src/common/protocols), and
 * `delete` removes every matching row.
 */
module Store {
  import opened Wrappers
  import opened Json
  import Text
  import ParseInt

  /** A stored record: its generated id and its other columns. */
  datatype Row = Row(id: string, fields: map<string, Value>)

  /**
   * The `id` a query compares against: the raw route parameter, or the result of
   * `parseInt` on it. A number matches a row whose id is its decimal text; `NaN` matches none.
   */
  datatype Key = ById(id: string) | ByNumber(n: int) | NotANumber

  /** The key `parseInt(param)` gives. */
  function NumericKey(param: string): (k: Key)
    ensures k == NotANumber <==> ParseInt.Parse(param) == None
  {
    var parsed := ParseInt.Parse(param);
    if parsed.Some? then ByNumber(parsed.value) else NotANumber
  }

  /**
   * A numeric key finds a row only when the row's id is exactly the decimal text of the number
   * read from the parameter; for a parameter that is itself such an id, it finds that row.
   */
  lemma NumericKeyMatches(param: string, r: Row)
    ensures Matches(r, NumericKey(param)) ==> ParseInt.Parse(param).Some? && r.id == Text.Decimal(ParseInt.Parse(param).value)
    ensures (exists n :: param == Text.Decimal(n)) && r.id == param ==> Matches(r, NumericKey(param))
  {
    if exists n :: param == Text.Decimal(n) {
      var n :| param == Text.Decimal(n);
      ParseInt.ParseDecimal(n);
    }
  }

  predicate Matches(r: Row, k: Key) {
    match k
    case ById(id) => r.id == id
    case ByNumber(n) => r.id == Text.Decimal(n)
    case NotANumber => false
  }

  /** A row as it is sent: its columns with `id` among them. */
  function RowJson(r: Row): Value {
    Obj(r.fields["id" := Str(r.id)])
  }

  function RowsJson(rows: seq<Row>): (vs: seq<Value>)
    ensures |vs| == |rows| && forall i :: 0 <= i < |rows| ==> vs[i] == RowJson(rows[i])
  {
    if rows == [] then [] else [RowJson(rows[0])] + RowsJson(rows[1..])
  }

  /** Whether a request body carries a string `id`, which `merge`, `update` and `create` take as the primary key. */
  predicate CarriesId(patch: map<string, Value>) {
    "id" in patch && patch["id"].Str?
  }

  /**
   * `merge(entity, data)` / `update(id, data)` on rows without a declared schema: every member
   * of the data overwrites or adds a column, and an `id` the data carries becomes the row's id.
   */
  function Merge(r: Row, patch: map<string, Value>): (m: Row)
    ensures m.id == if CarriesId(patch) then patch["id"].s else r.id
  {
    Row(if CarriesId(patch) then patch["id"].s else r.id, r.fields + (patch - {"id"}))
  }

  /** A merge keeps every column the data does not give and takes every one it does. */
  lemma MergeShape(r: Row, patch: map<string, Value>)
    ensures var m := Merge(r, patch);
      && m.fields.Keys == r.fields.Keys + (patch.Keys - {"id"})
      && (forall k :: k in patch && k != "id" ==> m.fields[k] == patch[k])
      && (forall k :: k in r.fields && k !in patch ==> m.fields[k] == r.fields[k])
  {
  }

  /** `findAndCount({skip, take})`: a negative skip counts as 0, and a take of 0 or less means "no limit". */
  function Window<T>(rows: seq<T>, skip: int, take: int): (w: seq<T>)
    ensures var start := if skip <= 0 then 0 else if skip >= |rows| then |rows| else skip;
      && |w| == (if take <= 0 || start + take >= |rows| then |rows| - start else take)
      && forall i :: 0 <= i < |w| ==> w[i] == rows[start + i]
  {
    var start := if skip <= 0 then 0 else if skip >= |rows| then |rows| else skip;
    var end := if take <= 0 || start + take >= |rows| then |rows| else start + take;
    rows[start..end]
  }

  /** `findOne`/`findOneBy`: the first row that matches, if any. */
  function Find(rows: seq<Row>, k: Key): (r: Option<Row>)
    ensures r.Some? ==> r.value in rows && Matches(r.value, k)
    ensures r.None? <==> forall x :: x in rows ==> !Matches(x, k)
  {
    if rows == [] then None
    else if Matches(rows[0], k) then Some(rows[0])
    else Find(rows[1..], k)
  }

  /** The table after `delete(k)`: every row that does not match, in order. */
  function Without(rows: seq<Row>, k: Key): (rs: seq<Row>)
    ensures forall x :: x in rs <==> x in rows && !Matches(x, k)
    ensures |rs| <= |rows|
  {
    if rows == [] then []
    else (if Matches(rows[0], k) then [] else [rows[0]]) + Without(rows[1..], k)
  }

  /** The table after `update(k, patch)`: every matching row merged, the others as they were. */
  function MergeMatching(rows: seq<Row>, k: Key, patch: map<string, Value>): (rs: seq<Row>)
    ensures |rs| == |rows|
    ensures forall i :: 0 <= i < |rows| ==>
      rs[i] == if Matches(rows[i], k) then Merge(rows[i], patch) else rows[i]
  {
    seq(|rows|, i requires 0 <= i < |rows| => if Matches(rows[i], k) then Merge(rows[i], patch) else rows[i])
  }

  /** How many rows match `k`: the `affected` count of an `update` or `delete`. */
  function Count(rows: seq<Row>, k: Key): (n: nat)
    ensures n <= |rows|
    ensures n == 0 <==> Find(rows, k) == None
  {
    if rows == [] then 0 else (if Matches(rows[0], k) then 1 else 0) + Count(rows[1..], k)
  }

  /**
   * What the ORM's `update` resolves to: an UpdateResult object reporting the affected rows,
   * whatever that count is; never null.
   */
  function UpdateResultJson(affected: nat): (v: Value)
    ensures v.Obj? && v.members == map["affected" := Num(affected)]
  {
    Obj(map["affected" := Num(affected)])
  }

  /** An UpdateResult is an object, so it is truthy even when no row was affected. */
  lemma UpdateResultIsTruthy(affected: nat)
    ensures Truthy(UpdateResultJson(affected))
  {
  }

  /** `save(r)` over rows that already hold r's id: r's columns are written over each one's own. */
  function Overwrite(rows: seq<Row>, r: Row): (rs: seq<Row>)
    ensures |rs| == |rows|
    ensures forall i :: 0 <= i < |rows| ==>
      rs[i] == if rows[i].id == r.id then Row(r.id, rows[i].fields + r.fields) else rows[i]
  {
    seq(|rows|, i requires 0 <= i < |rows| => if rows[i].id == r.id then Row(r.id, rows[i].fields + r.fields) else rows[i])
  }

  /**
   * The table after `save(r)`: when a row holds r's id, the columns r gives are written over
   * that row's and the others stay; otherwise r is appended.
   */
  function Upsert(rows: seq<Row>, r: Row): (rs: seq<Row>)
    ensures |rs| == |rows| + (if Find(rows, ById(r.id)).None? then 1 else 0)
  {
    if Find(rows, ById(r.id)).Some? then Overwrite(rows, r) else rows + [r]
  }

  /**
   * Read after write: a lookup by the saved id finds r itself when the id was new, and the old
   * row with r's columns over its own when it was not; no row with another id is new.
   */
  lemma {:induction false} FindAfterUpsert(rows: seq<Row>, r: Row)
    ensures var before := Find(rows, ById(r.id));
      Find(Upsert(rows, r), ById(r.id)) == Some(if before.None? then r else Row(r.id, before.value.fields + r.fields))
    ensures forall x :: x in Upsert(rows, r) && x.id != r.id ==> x in rows
  {
    var rs := Upsert(rows, r);
    if Find(rows, ById(r.id)).Some? {
      FindAfterOverwrite(rows, r);
      forall x | x in rs && x.id != r.id
        ensures x in rows
      {
        var i :| 0 <= i < |rs| && rs[i] == x;
        assert x == rows[i];
      }
    } else {
      assert rs[|rows|] == r;
      FindFirst(rs, ById(r.id), |rows|);
    }
  }

  lemma {:induction false} FindAfterOverwrite(rows: seq<Row>, r: Row)
    ensures var before := Find(rows, ById(r.id));
      Find(Overwrite(rows, r), ById(r.id)) == if before.None? then None else Some(Row(r.id, before.value.fields + r.fields))
  {
    if rows != [] {
      assert Overwrite(rows, r)[1..] == Overwrite(rows[1..], r);
      FindAfterOverwrite(rows[1..], r);
    }
  }

  /**
   * Saving an entity that `merge` gave a new id, held by no row: `save` writes a second row
   * under that id, and the row it was read from stays as it was.
   */
  lemma SaveUnderNewIdCopies(rows: seq<Row>, found: Row, patch: map<string, Value>)
    requires found in rows && CarriesId(patch) && Find(rows, ById(patch["id"].s)) == None
    ensures Upsert(rows, Merge(found, patch)) == rows + [Merge(found, patch)]
    ensures |Upsert(rows, Merge(found, patch))| == |rows| + 1 && found in Upsert(rows, Merge(found, patch))
  {
  }

  /** `Find` returns the first match: all rows before it fail the key, and it is the row at that index. */
  lemma {:induction false} FindFirst(rows: seq<Row>, k: Key, j: nat)
    requires j < |rows| && Matches(rows[j], k)
    requires forall x :: x in rows && Matches(x, k) ==> x == rows[j]
    ensures Find(rows, k) == Some(rows[j])
  {
    if !Matches(rows[0], k) {
      assert rows[j] in rows[1..] by { assert rows[1..][j - 1] == rows[j]; }
      forall x | x in rows[1..] && Matches(x, k) ensures x == rows[1..][j - 1] {
        assert x in rows;
      }
      FindFirst(rows[1..], k, j - 1);
    }
  }

  /** Whether a row matches a key depends on its id alone, so the row a key finds is also the first with its id. */
  lemma {:induction false} FindFirstOfSameId(rows: seq<Row>, k: Key, found: Row)
    requires Find(rows, k) == Some(found)
    ensures Find(rows, ById(found.id)) == Some(found)
  {
    if !Matches(rows[0], k) {
      FindFirstOfSameId(rows[1..], k, found);
    }
  }

  /** A row appended after the first match does not change what a lookup finds. */
  lemma {:induction false} FindAppend(rows: seq<Row>, r: Row, k: Key)
    requires Find(rows, k).Some?
    ensures Find(rows + [r], k) == Find(rows, k)
  {
    assert (rows + [r])[0] == rows[0];
    if !Matches(rows[0], k) {
      assert (rows + [r])[1..] == rows[1..] + [r];
      FindAppend(rows[1..], r, k);
    }
  }

  /** After `delete(k)` nothing matches `k`: a following lookup finds nothing. */
  lemma DeleteThenFind(rows: seq<Row>, k: Key)
    ensures Find(Without(rows, k), k) == None
  {
  }

  /** An `update` whose key matches nothing leaves the table as it was. */
  lemma UpdateMissingIsNoOp(rows: seq<Row>, k: Key, patch: map<string, Value>)
    requires Find(rows, k) == None
    ensures MergeMatching(rows, k, patch) == rows
  {
  }

  /**
   * An `update` whose data carries no id changes no id, so a lookup by id succeeds afterwards
   * exactly when it did before.
   */
  lemma {:induction false} MergeKeepsIds(rows: seq<Row>, k: Key, patch: map<string, Value>, id: string)
    ensures !CarriesId(patch) ==>
      (Find(MergeMatching(rows, k, patch), ById(id)).Some? <==> Find(rows, ById(id)).Some?)
  {
    var rs := MergeMatching(rows, k, patch);
    if CarriesId(patch) {
    } else if Find(rows, ById(id)).Some? {
      var x := Find(rows, ById(id)).value;
      var i :| 0 <= i < |rows| && rows[i] == x;
      assert rs[i] in rs && rs[i].id == id;
    }
    if !CarriesId(patch) && Find(rs, ById(id)).Some? {
      var x := Find(rs, ById(id)).value;
      var i :| 0 <= i < |rs| && rs[i] == x;
      assert rows[i] in rows && rows[i].id == id;
    }
  }

  /**
   * An `update(id, data)` whose data carries another id moves every row it matches to that id:
   * a lookup by the old id finds nothing afterwards.
   */
  lemma MergeMovesRows(rows: seq<Row>, id: string, patch: map<string, Value>)
    requires CarriesId(patch) && patch["id"].s != id
    ensures Find(MergeMatching(rows, ById(id), patch), ById(id)) == None
  {
    var rs := MergeMatching(rows, ById(id), patch);
    forall x | x in rs
      ensures !Matches(x, ById(id))
    {
      var i :| 0 <= i < |rs| && rs[i] == x;
    }
  }

  /** Merging `patch` into a row that `k` matches does not change whether `k2` matches it. */
  ghost predicate KeepsMatch(k: Key, patch: map<string, Value>, k2: Key) {
    forall x :: Matches(x, k) ==> (Matches(Merge(x, patch), k2) <==> Matches(x, k2))
  }

  /** Data without an id keeps every row's id, and so every key's matches. */
  lemma NoIdKeepsMatch(k: Key, patch: map<string, Value>, k2: Key)
    ensures !CarriesId(patch) ==> KeepsMatch(k, patch, k2)
  {
  }

  /**
   * A lookup by `k2` after `update(k, patch)`, when the merge moves no row into or out of
   * `k2`'s matches, finds the row it found before, merged when `k` matches that row and
   * unchanged when it does not.
   */
  lemma {:induction false} FindAfterMerge(rows: seq<Row>, k: Key, patch: map<string, Value>, k2: Key)
    ensures var before := Find(rows, k2);
      KeepsMatch(k, patch, k2) ==>
      Find(MergeMatching(rows, k, patch), k2) ==
        if before.None? then None
        else if Matches(before.value, k) then Some(Merge(before.value, patch))
        else before
  {
    if rows != [] && KeepsMatch(k, patch, k2) {
      var rs := MergeMatching(rows, k, patch);
      assert rs[1..] == MergeMatching(rows[1..], k, patch);
      FindAfterMerge(rows[1..], k, patch, k2);
      assert Matches(rs[0], k2) <==> Matches(rows[0], k2) by {
        if Matches(rows[0], k) {
          assert rs[0] == Merge(rows[0], patch);
        }
      }
    }
  }

  /** One repository: the rows of a table, in the order the database returns them. */
  class Table {
    var rows: seq<Row>

    constructor (rows: seq<Row>)
      ensures this.rows == rows
    {
      this.rows := rows;
    }

    /** `findAndCount({skip, take})`. */
    method FindAndCount(skip: int, take: int) returns (page: seq<Row>, total: nat)
      ensures page == Window(rows, skip, take) && total == |rows|
      ensures skip >= 0 && take > 0 ==> |page| <= take
    {
      page := Window(rows, skip, take);
      total := |rows|;
    }

    /** `save(entity)`. */
    method Save(r: Row)
      modifies this
      ensures rows == Upsert(old(rows), r)
    {
      rows := Upsert(rows, r);
    }

    /** `update(key, patch)`: every matching row is merged; the result counts them. */
    method Update(k: Key, patch: map<string, Value>) returns (result: Value)
      modifies this
      ensures rows == MergeMatching(old(rows), k, patch)
      ensures result == UpdateResultJson(Count(old(rows), k))
    {
      result := UpdateResultJson(Count(rows, k));
      rows := MergeMatching(rows, k, patch);
    }

    /** `delete(key)`. */
    method Delete(k: Key)
      modifies this
      ensures rows == Without(old(rows), k)
    {
      rows := Without(rows, k);
    }
  }

  // ----- join tables of the two aggregates -----

  /** A line-item row: its primary key, the parent it belongs to, and its other columns. */
  datatype Child = Child(id: string, parent: string, fields: map<string, Value>)

  /** `find({where: {parent: {id}}})`: the rows of one parent, in table order. */
  function ChildrenOf(rows: seq<Child>, parent: string): (cs: seq<Child>)
    ensures forall c :: c in cs <==> c in rows && c.parent == parent
  {
    if rows == [] then []
    else (if rows[0].parent == parent then [rows[0]] else []) + ChildrenOf(rows[1..], parent)
  }

  /** `delete({parent})`: the rows of every other parent, in order. */
  function OtherParents(rows: seq<Child>, parent: string): (cs: seq<Child>)
    ensures forall c :: c in cs <==> c in rows && c.parent != parent
  {
    if rows == [] then []
    else (if rows[0].parent != parent then [rows[0]] else []) + OtherParents(rows[1..], parent)
  }

  /**
   * The primary key a submitted item carries: a string (the uuid of `aluguel_produto`) or a
   * number (the generated integer of `produto_nota`, compared as its decimal text); None when
   * it carries none.
   */
  function ItemId(item: map<string, Value>): (k: Option<string>)
    ensures k.Some? ==> "id" in item && (item["id"] == Str(k.value) || item["id"].Num?)
    ensures k.None? <==> "id" !in item || !(item["id"].Str? || item["id"].Num?)
  {
    if "id" !in item then None
    else match item["id"]
      case Str(s) => Some(s)
      case Num(n) => Some(Text.Decimal(n))
      case _ => None
  }

  /** The key `save` gives an item: its own, or the one the database generates (`gen`). */
  function ItemKey(item: map<string, Value>, gen: string): string {
    if ItemId(item).Some? then ItemId(item).value else gen
  }

  /** Whether some row holds primary key `key`. */
  predicate HoldsKey(rows: seq<Child>, key: string) {
    exists c :: c in rows && c.id == key
  }

  /**
   * `save(create({...item, parent}))`: every row that holds the item's key gets the item's
   * columns over its own and is moved to `parent`; when no row holds it, a row is appended.
   */
  function SaveChild(rows: seq<Child>, parent: string, item: map<string, Value>, gen: string): (rs: seq<Child>)
    ensures HoldsKey(rows, ItemKey(item, gen)) ==> |rs| == |rows|
    ensures !HoldsKey(rows, ItemKey(item, gen)) ==> rs == rows + [Child(ItemKey(item, gen), parent, item - {"id"})]
  {
    var key := ItemKey(item, gen);
    if HoldsKey(rows, key)
    then seq(|rows|, i requires 0 <= i < |rows| =>
      if rows[i].id == key then Child(key, parent, rows[i].fields + (item - {"id"})) else rows[i])
    else rows + [Child(key, parent, item - {"id"})]
  }

  /**
   * An item carrying the key of an existing row adds no row: `save` writes the item's columns
   * into that row and moves it to `parent`, whichever parent it had; rows with other keys stay.
   */
  lemma SaveChildMovesRow(rows: seq<Child>, parent: string, item: map<string, Value>, gen: string, j: nat)
    requires j < |rows| && ItemId(item) == Some(rows[j].id)
    ensures var rs := SaveChild(rows, parent, item, gen);
      && |rs| == |rows|
      && rs[j] == Child(rows[j].id, parent, rows[j].fields + (item - {"id"}))
      && forall i :: 0 <= i < |rows| && rows[i].id != rows[j].id ==> rs[i] == rows[i]
  {
    assert HoldsKey(rows, ItemKey(item, gen)) by { assert rows[j] in rows; }
  }

  /** The loop `for (const item of items) save(create({...item, parent}))`, one item after the other. */
  function SaveAll(rows: seq<Child>, parent: string, items: seq<map<string, Value>>, gens: seq<string>): seq<Child>
    requires |gens| == |items|
  {
    if items == [] then rows
    else
      var n := |items| - 1;
      SaveChild(SaveAll(rows, parent, items[..n], gens[..n]), parent, items[n], gens[n])
  }

  /** One new row per submitted item, each under the key `save` gives it and linked to `parent`, in order. */
  function ChildRows(parent: string, items: seq<map<string, Value>>, gens: seq<string>): (cs: seq<Child>)
    requires |gens| == |items|
    ensures |cs| == |items| && forall i :: 0 <= i < |items| ==>
      cs[i] == Child(ItemKey(items[i], gens[i]), parent, items[i] - {"id"})
  {
    seq(|items|, i requires 0 <= i < |items| => Child(ItemKey(items[i], gens[i]), parent, items[i] - {"id"}))
  }

  /** The keys the items get are pairwise distinct, and no row of `rows` holds any of them. */
  predicate NewKeys(rows: seq<Child>, items: seq<map<string, Value>>, gens: seq<string>)
    requires |gens| == |items|
  {
    && (forall i, j :: 0 <= i < j < |items| ==> ItemKey(items[i], gens[i]) != ItemKey(items[j], gens[j]))
    && (forall i :: 0 <= i < |items| ==> !HoldsKey(rows, ItemKey(items[i], gens[i])))
  }

  /** Items whose keys are new each append one row, in order: the loop adds exactly `ChildRows`. */
  lemma {:induction false} SaveAllAppends(rows: seq<Child>, parent: string, items: seq<map<string, Value>>, gens: seq<string>)
    requires |gens| == |items| && NewKeys(rows, items, gens)
    ensures SaveAll(rows, parent, items, gens) == rows + ChildRows(parent, items, gens)
  {
    if items != [] {
      var n := |items| - 1;
      NewKeysPrefix(rows, items, gens, n);
      SaveAllAppends(rows, parent, items[..n], gens[..n]);
      LastKeyIsNew(rows, parent, items, gens);
      ChildRowsSnoc(parent, items, gens);
    }
  }

  lemma NewKeysPrefix(rows: seq<Child>, items: seq<map<string, Value>>, gens: seq<string>, n: nat)
    requires |gens| == |items| && n <= |items| && NewKeys(rows, items, gens)
    ensures NewKeys(rows, items[..n], gens[..n])
  {
    assert forall i :: 0 <= i < n ==> items[..n][i] == items[i] && gens[..n][i] == gens[i];
  }

  /** The last item's key is held neither by `rows` nor by the rows made for the items before it. */
  lemma LastKeyIsNew(rows: seq<Child>, parent: string, items: seq<map<string, Value>>, gens: seq<string>)
    requires |gens| == |items| && |items| > 0 && NewKeys(rows, items, gens)
    ensures var n := |items| - 1;
      !HoldsKey(rows + ChildRows(parent, items[..n], gens[..n]), ItemKey(items[n], gens[n]))
  {
    var n := |items| - 1;
    var front := ChildRows(parent, items[..n], gens[..n]);
    forall c | c in rows + front
      ensures c.id != ItemKey(items[n], gens[n])
    {
      if c !in rows {
        var i :| 0 <= i < n && front[i] == c;
        assert items[..n][i] == items[i] && gens[..n][i] == gens[i];
      }
    }
  }

  lemma ChildRowsSnoc(parent: string, items: seq<map<string, Value>>, gens: seq<string>)
    requires |gens| == |items| && |items| > 0
    ensures var n := |items| - 1;
      ChildRows(parent, items, gens) == ChildRows(parent, items[..n], gens[..n]) + [Child(ItemKey(items[n], gens[n]), parent, items[n] - {"id"})]
  {
  }

  lemma {:induction false} ChildrenOfAppend(a: seq<Child>, b: seq<Child>, parent: string)
    ensures ChildrenOf(a + b, parent) == ChildrenOf(a, parent) + ChildrenOf(b, parent)
    decreases |a|
  {
    if a == [] {
      assert a + b == b;
    } else {
      assert (a + b)[0] == a[0];
      assert (a + b)[1..] == a[1..] + b;
      ChildrenOfAppend(a[1..], b, parent);
    }
  }

  lemma {:induction false} ChildrenOfOtherParents(rows: seq<Child>, parent: string, q: string)
    ensures ChildrenOf(OtherParents(rows, parent), parent) == []
    ensures q != parent ==> ChildrenOf(OtherParents(rows, parent), q) == ChildrenOf(rows, q)
    decreases |rows|
  {
    if rows != [] {
      ChildrenOfOtherParents(rows[1..], parent, q);
      ChildrenOfAppend(if rows[0].parent != parent then [rows[0]] else [], OtherParents(rows[1..], parent), parent);
      ChildrenOfAppend(if rows[0].parent != parent then [rows[0]] else [], OtherParents(rows[1..], parent), q);
    }
  }

  lemma {:induction false} ChildrenOfChildRows(parent: string, items: seq<map<string, Value>>, gens: seq<string>, q: string)
    requires |gens| == |items|
    ensures ChildrenOf(ChildRows(parent, items, gens), parent) == ChildRows(parent, items, gens)
    ensures q != parent ==> ChildrenOf(ChildRows(parent, items, gens), q) == []
    decreases |items|
  {
    if items != [] {
      var cs := ChildRows(parent, items, gens);
      assert cs[1..] == ChildRows(parent, items[1..], gens[1..]);
      ChildrenOfChildRows(parent, items[1..], gens[1..], q);
      assert cs == [cs[0]] + cs[1..];
    }
  }

  /**
   * Delete-then-recreate with items whose keys are new replaces the children of `parent` by
   * exactly the submitted items, however many rows it had before, and leaves every other
   * parent's rows as they were.
   */
  lemma ReplaceChildren(rows: seq<Child>, parent: string, items: seq<map<string, Value>>, gens: seq<string>, q: string)
    requires |gens| == |items| && NewKeys(OtherParents(rows, parent), items, gens)
    ensures var after := SaveAll(OtherParents(rows, parent), parent, items, gens);
      && ChildrenOf(after, parent) == ChildRows(parent, items, gens)
      && |ChildrenOf(after, parent)| == |items|
      && (q != parent ==> ChildrenOf(after, q) == ChildrenOf(rows, q))
  {
    var rest := OtherParents(rows, parent);
    SaveAllAppends(rest, parent, items, gens);
    ChildrenOfAppend(rest, ChildRows(parent, items, gens), parent);
    ChildrenOfAppend(rest, ChildRows(parent, items, gens), q);
    ChildrenOfOtherParents(rows, parent, q);
    ChildrenOfChildRows(parent, items, gens, q);
  }

  /**
   * Delete-then-recreate with an item that carries the key of another parent's row: that row is
   * not left with its parent but moved to `parent`, so the other parent's rows change.
   */
  lemma ReplaceMovesForeignRow(rows: seq<Child>, parent: string, item: map<string, Value>, gen: string, j: nat)
    requires j < |rows| && rows[j].parent != parent && ItemId(item) == Some(rows[j].id)
    ensures var after := SaveAll(OtherParents(rows, parent), parent, [item], [gen]);
      && (forall c :: c in after && c.id == rows[j].id ==> c.parent == parent)
      && ChildrenOf(after, rows[j].parent) != ChildrenOf(rows, rows[j].parent)
  {
    var rest := OtherParents(rows, parent);
    assert rows[j] in rest;
    var k :| 0 <= k < |rest| && rest[k] == rows[j];
    assert [item][..0] == [] && [gen][..0] == [];
    assert SaveAll(rest, parent, [item][..0], [gen][..0]) == rest;
    var after := SaveAll(rest, parent, [item], [gen]);
    assert after == SaveChild(rest, parent, item, gen);
    SaveChildMovesRow(rest, parent, item, gen, k);
    forall c | c in after && c.id == rows[j].id
      ensures c.parent == parent
    {
      var i :| 0 <= i < |after| && after[i] == c;
    }
    assert rows[j] in ChildrenOf(rows, rows[j].parent);
    assert rows[j] !in ChildrenOf(after, rows[j].parent);
  }

  /** One join table. */
  class ChildTable {
    var rows: seq<Child>

    constructor (rows: seq<Child>)
      ensures this.rows == rows
    {
      this.rows := rows;
    }

    /** `save(create({...item, parent}))`, with `gen` the key the database would generate. */
    method Save(parent: string, item: map<string, Value>, gen: string)
      modifies this
      ensures rows == SaveChild(old(rows), parent, item, gen)
    {
      rows := SaveChild(rows, parent, item, gen);
    }

    /** `delete({parent})`. */
    method DeleteByParent(parent: string)
      modifies this
      ensures rows == OtherParents(old(rows), parent)
    {
      rows := OtherParents(rows, parent);
    }
  }

  /**
   * The loop `for (const item of produtos) { save(create({...item, parent})) }`: each item
   * saved in order, item i under `gens[i]` when it carries no key of its own.
   */
  method SaveEach(table: ChildTable, parent: string, items: seq<map<string, Value>>, gens: seq<string>)
    requires |gens| == |items|
    modifies table
    ensures table.rows == SaveAll(old(table.rows), parent, items, gens)
  {
    var i := 0;
    while i < |items|
      invariant 0 <= i <= |items|
      invariant table.rows == SaveAll(old(table.rows), parent, items[..i], gens[..i])
    {
      table.Save(parent, items[i], gens[i]);
      assert items[..i + 1][..i] == items[..i] && gens[..i + 1][..i] == gens[..i];
      i := i + 1;
    }
    assert items[..|items|] == items && gens[..|gens|] == gens;
  }
}

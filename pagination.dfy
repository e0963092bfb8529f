/**
 * The listing arithmetic the `getAll` handlers share: `page`/`limit` from the query string,
 * `skip = (page - 1) * limit`, and the `meta` object with `totalPages = Math.ceil(total / limit)`.
 * A query parameter is a string or absent; `parseInt` of an absent one is NaN.
 */
module Pagination {
  import opened Wrappers
  import opened Json
  import Text
  import opened Store
  import ParseInt

  const DefaultPage := 1
  const DefaultLimit := 10

  /** `parseInt(q) || d`: NaN and 0 are falsy and give the default, every other number is kept. */
  function OrDefault(parsed: Option<int>, d: int): (v: int)
    ensures parsed.Some? && parsed.value != 0 ==> v == parsed.value
    ensures parsed.None? || parsed.value == 0 ==> v == d
  {
    if parsed.Some? && parsed.value != 0 then parsed.value else d
  }

  datatype Query = Query(page: int, limit: int, skip: int, take: int)

  /** `parseInt(req.query.x as string)`; None is NaN. */
  function ReadParam(param: Option<string>): Option<int> {
    if param.Some? then ParseInt.Parse(param.value) else None
  }

  /** The page request of a listing: page and limit with their defaults, then skip and take. */
  function ParseQuery(pageParam: Option<string>, limitParam: Option<string>): (q: Query)
    ensures q.page == OrDefault(ReadParam(pageParam), DefaultPage)
    ensures q.limit == OrDefault(ReadParam(limitParam), DefaultLimit)
    ensures q.page != 0 && q.limit != 0
    ensures q.skip == (q.page - 1) * q.limit && q.take == q.limit
  {
    var page := OrDefault(ReadParam(pageParam), DefaultPage);
    var limit := OrDefault(ReadParam(limitParam), DefaultLimit);
    Query(page, limit, (page - 1) * limit, limit)
  }

  /** With no query string the first ten rows are listed; `?page=3&limit=5` skips ten and takes five. */
  lemma QueryDefaults()
    ensures ParseQuery(None, None) == Query(1, 10, 0, 10)
    ensures ParseQuery(Some("3"), Some("5")) == Query(3, 5, 10, 5)
    ensures ParseQuery(Some("0"), Some("abc")) == Query(1, 10, 0, 10)
  {
    ParseInt.ParseDecimal(3);
    ParseInt.ParseDecimal(5);
    ParseInt.ParseDecimal(0);
    assert Text.Decimal(3) == "3" && Text.Decimal(5) == "5" && Text.Decimal(0) == "0";
    ParseInt.NoDigitIsNaN("abc");
  }

  /** `Math.ceil(a / b)` on exact integers, for a divisor of either sign. */
  function CeilDiv(a: int, b: int): int
    requires b != 0
  {
    if b > 0 then -((-a) / b) else -(a / (-b))
  }

  /** `CeilDiv` is the ceiling: the least integer q with q * b >= a when b > 0 (the greatest with q * b <= a when b < 0). */
  lemma CeilDivIsCeiling(a: int, b: int)
    requires b != 0
    ensures var q := CeilDiv(a, b);
      && (b > 0 ==> (q - 1) * b < a <= q * b)
      && (b < 0 ==> q * b <= a < (q - 1) * b)
  {
    var q := CeilDiv(a, b);
    if b > 0 {
      var t, r := (-a) / b, (-a) % b;
      assert -a == t * b + r && 0 <= r < b;
      assert q * b == -(t * b);
      assert (q - 1) * b == -(t * b) - b;
    } else {
      var t, r := a / (-b), a % (-b);
      assert a == t * (-b) + r && 0 <= r < -b;
      assert q * b == t * (-b);
      assert (q - 1) * b == t * (-b) + (-b);
    }
  }

  /** No rows means no pages; with a positive limit there is never a negative page count. */
  lemma TotalPagesBounds(total: nat, limit: int)
    requires limit > 0
    ensures CeilDiv(total, limit) >= 0
    ensures total == 0 <==> CeilDiv(total, limit) == 0
    ensures total <= limit * CeilDiv(total, limit) < total + limit
  {
    CeilDivIsCeiling(total, limit);
  }

  /**
   * With a positive limit, page p (p >= 1) of a listing holds a row exactly when
   * p <= totalPages: the `meta` the handlers send counts exactly the non-empty pages.
   */
  lemma {:induction false} PageNonEmptyIffWithinTotal<T>(rows: seq<T>, page: int, limit: int)
    requires page >= 1 && limit > 0
    ensures |Window(rows, (page - 1) * limit, limit)| > 0 <==> page <= CeilDiv(|rows|, limit)
  {
    var skip := (page - 1) * limit;
    PageStartsWithinTotal(|rows|, page, limit);
    assert |Window(rows, skip, limit)| > 0 <==> skip < |rows|;
  }

  /** Page p starts before the end of n rows exactly when p <= totalPages. */
  lemma PageStartsWithinTotal(n: nat, page: int, limit: int)
    requires page >= 1 && limit > 0
    ensures (page - 1) * limit >= 0
    ensures (page - 1) * limit < n <==> page <= CeilDiv(n, limit)
  {
    var q := CeilDiv(n, limit);
    CeilDivIsCeiling(n, limit);
    MulNonNegative(page - 1, limit);
    if page <= q {
      MulMonotone(page - 1, q - 1, limit);
    } else {
      MulMonotone(q, page - 1, limit);
    }
  }

  lemma MulNonNegative(a: int, b: int)
    requires a >= 0 && b >= 0
    ensures a * b >= 0
  {
  }

  lemma MulMonotone(a: int, b: int, c: int)
    requires a <= b && c >= 0
    ensures a * c <= b * c
  {
    assert b * c - a * c == (b - a) * c;
    MulNonNegative(b - a, c);
  }

  /** `meta: {page, limit, total, totalPages}`. */
  function Meta(q: Query, total: nat): (v: Value)
    requires q.limit != 0
    ensures v.Obj? && v.members.Keys == {"page", "limit", "total", "totalPages"}
    ensures v.members["page"] == Num(q.page) && v.members["limit"] == Num(q.limit) && v.members["total"] == Num(total)
    ensures v.members["totalPages"] == Num(CeilDiv(total, q.limit))
  {
    Obj(map["page" := Num(q.page), "limit" := Num(q.limit), "total" := Num(total),
            "totalPages" := Num(CeilDiv(total, q.limit))])
  }

  /** The members `"0"`, `"1"`, ... that spreading an array into an object literal produces. */
  function Spread(items: seq<Value>): map<string, Value> {
    if items == [] then map[] else Spread(items[..|items| - 1])[Text.Decimal(|items| - 1) := items[|items| - 1]]
  }

  /** The keys are exactly the index texts. */
  lemma {:induction false} SpreadKeys(items: seq<Value>)
    ensures Spread(items).Keys == set i | 0 <= i < |items| :: Text.Decimal(i)
  {
    if items != [] {
      var n := |items| - 1;
      var front := items[..n];
      SpreadKeys(front);
      assert Spread(items) == Spread(front)[Text.Decimal(n) := items[n]];
      IndexKeysStep(n);
    }
  }

  /** The index keys of n + 1 items are those of n items and the text of n. */
  lemma IndexKeysStep(n: nat)
    ensures (set i | 0 <= i < n + 1 :: Text.Decimal(i))
      == (set i | 0 <= i < n :: Text.Decimal(i)) + {Text.Decimal(n)}
  {
    var all := set i | 0 <= i < n + 1 :: Text.Decimal(i);
    var front := set i | 0 <= i < n :: Text.Decimal(i);
    forall k | k in all
      ensures k in front + {Text.Decimal(n)}
    {
      var i :| 0 <= i < n + 1 && k == Text.Decimal(i);
      if i < n {
        assert k in front;
      }
    }
  }

  /** `{...data, meta}`: the page's records under their index keys, and `meta`. */
  function SpreadPayload(items: seq<Value>, meta: Value): Value {
    Obj(Spread(items)["meta" := meta])
  }

  /** `{result: data, meta}`. */
  function ResultPayload(items: seq<Value>, meta: Value): Value {
    Obj(map["result" := Arr(items), "meta" := meta])
  }

  /** Every record is found again under its index, and nothing but the records and `meta` is present. */
  lemma {:induction false} SpreadIndexes(items: seq<Value>, i: nat)
    requires i < |items|
    ensures Text.Decimal(i) in Spread(items) && Spread(items)[Text.Decimal(i)] == items[i]
    decreases |items|
  {
    var n := |items| - 1;
    var front := items[..n];
    assert Spread(items) == Spread(front)[Text.Decimal(n) := items[n]];
    if i < n {
      SpreadIndexes(front, i);
      assert front[i] == items[i];
      if Text.Decimal(i) == Text.Decimal(n) {
        Text.DecimalInjective(i, n);
      }
    }
  }

  lemma SpreadPayloadShape(items: seq<Value>, meta: Value, i: nat)
    requires i < |items|
    ensures var v := SpreadPayload(items, meta);
      && v.Obj? && v.members["meta"] == meta && "result" !in v.members
      && v.members.Keys == (set j | 0 <= j < |items| :: Text.Decimal(j)) + {"meta"}
      && v.members[Text.Decimal(i)] == items[i]
  {
    SpreadKeys(items);
    SpreadIndexes(items, i);
    assert Text.Decimal(i) != "meta" by { Text.DecimalDigits(i); assert Text.Decimal(i)[0] != 'm'; }
  }
}

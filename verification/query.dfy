/** The list queries every service builds: a `where` condition made of an
    optional case-insensitive search over a fixed set of fields and an equality
    conjunct per filter key, followed by skip/take paging and a count of all
    matches. A record is seen by the query as a `Row`: its column names mapped to
    the column values as strings; a null column is absent from the row. */
module Query {
  import opened Common
  import opened Pagination

  type Row = map<string, string>

  /** The condition tree handed to the database. `Empty` is the empty object `{}`. */
  datatype Cond =
    | Empty
    | And(conds: seq<Cond>)
    | Or(conds: seq<Cond>)
    | Contains(field: string, term: string)
    | Equals(field: string, value: string)

  /** How the database evaluates a condition on one row. */
  predicate Eval(c: Cond, row: Row)
    decreases c
  {
    match c
    case Empty => true
    case And(cs) => forall i | 0 <= i < |cs| :: Eval(cs[i], row)
    case Or(cs) => exists i | 0 <= i < |cs| :: Eval(cs[i], row)
    case Contains(f, t) => f in row && ContainsInsensitive(row[f], t)
    case Equals(f, v) => f in row && row[f] == v
  }

  /** Some searchable field of the row contains the term, ignoring case. */
  predicate SearchHit(term: string, searchable: seq<string>, row: Row) {
    exists i | 0 <= i < |searchable| :: searchable[i] in row && ContainsInsensitive(row[searchable[i]], term)
  }

  /** Every filter key is a column of the row holding exactly the filter value. */
  predicate FiltersHold(filters: seq<(string, string)>, row: Row) {
    forall j | 0 <= j < |filters| :: filters[j].0 in row && row[filters[j].0] == filters[j].1
  }

  /** The rows a list request asks for: a search hit when a search term is given,
      and every filter satisfied. */
  predicate Selected(searchTerm: Option<string>, searchable: seq<string>, filters: seq<(string, string)>, row: Row) {
    (Truthy(searchTerm) ==> SearchHit(searchTerm.value, searchable, row)) && FiltersHold(filters, row)
  }

  /** `{ OR: searchable.map(field => contains term) }` */
  function SearchCond(term: string, searchable: seq<string>): (c: Cond)
    ensures forall row :: Eval(c, row) <==> SearchHit(term, searchable, row)
  {
    var c := Or(seq(|searchable|, i requires 0 <= i < |searchable| => Contains(searchable[i], term)));
    assert forall row :: SearchHit(term, searchable, row) ==> Eval(c, row) by {
      forall row | SearchHit(term, searchable, row) ensures Eval(c, row) {
        var i :| 0 <= i < |searchable| && searchable[i] in row && ContainsInsensitive(row[searchable[i]], term);
        assert Eval(c.conds[i], row);
      }
    }
    c
  }

  /** `{ AND: keys.map(key => equals value) }` */
  function FilterCond(filters: seq<(string, string)>): (c: Cond)
    ensures forall row :: Eval(c, row) <==> FiltersHold(filters, row)
  {
    var c := And(seq(|filters|, j requires 0 <= j < |filters| => Equals(filters[j].0, filters[j].1)));
    assert forall row :: Eval(c, row) ==> FiltersHold(filters, row) by {
      forall row | Eval(c, row) ensures FiltersHold(filters, row) {
        forall j | 0 <= j < |filters| ensures filters[j].0 in row && row[filters[j].0] == filters[j].1 {
          assert Eval(c.conds[j], row);
        }
      }
    }
    c
  }

  /** The condition a list request is translated into: the search and filter
      conditions that apply, under `AND`, or the empty condition when none does. */
  function WhereFor(searchTerm: Option<string>, searchable: seq<string>, filters: seq<(string, string)>): (c: Cond)
    ensures !Truthy(searchTerm) && |filters| == 0 ==> c == Empty
    ensures Truthy(searchTerm) || |filters| > 0 ==> c.And?
    ensures forall row :: Eval(c, row) <==> Selected(searchTerm, searchable, filters, row)
  {
    var sc := if Truthy(searchTerm) then [SearchCond(searchTerm.value, searchable)] else [];
    var fc := if |filters| > 0 then [FilterCond(filters)] else [];
    var cs := sc + fc;
    var c := if |cs| > 0 then And(cs) else Empty;
    assert forall row :: Eval(c, row) <==> Selected(searchTerm, searchable, filters, row) by {
      forall row ensures Eval(c, row) <==> Selected(searchTerm, searchable, filters, row) {
        if Truthy(searchTerm) && |filters| > 0 {
          assert Eval(c, row) <==> Eval(cs[0], row) && Eval(cs[1], row);
        } else if Truthy(searchTerm) || |filters| > 0 {
          assert Eval(c, row) <==> Eval(cs[0], row);
        }
      }
    }
    c
  }

  /** The where-builder: up to two conditions pushed onto `andConditions`, then
      wrapped in `AND`, or the empty condition when nothing was pushed. */
  method BuildWhere(searchTerm: Option<string>, searchable: seq<string>, filters: seq<(string, string)>)
    returns (where: Cond)
    ensures where == WhereFor(searchTerm, searchable, filters)
    ensures forall row :: Eval(where, row) <==> Selected(searchTerm, searchable, filters, row)
  {
    var andConditions: seq<Cond> := [];
    if Truthy(searchTerm) {
      andConditions := andConditions + [SearchCond(searchTerm.value, searchable)];
    }
    if |filters| > 0 {
      andConditions := andConditions + [FilterCond(filters)];
    }
    where := if |andConditions| > 0 then And(andConditions) else Empty;
  }

  /** `xs` is `ys` with some elements left out, the rest kept in order. */
  predicate IsSubsequence<T(==)>(xs: seq<T>, ys: seq<T>)
    decreases |ys|
  {
    |xs| == 0 ||
    (|ys| > 0 && ((xs[0] == ys[0] && IsSubsequence(xs[1..], ys[1..])) || IsSubsequence(xs, ys[1..])))
  }

  /** The rows of `items` (in the database's order) that the condition selects:
      a subsequence of `items` holding every selected row as often as `items`
      does and no other row. */
  function Select<T(!new)>(items: seq<T>, row: T -> Row, c: Cond): (r: seq<T>)
    ensures |r| <= |items|
    ensures IsSubsequence(r, items)
    ensures forall x :: multiset(r)[x] == if Eval(c, row(x)) then multiset(items)[x] else 0
    ensures forall x :: x in r <==> x in items && Eval(c, row(x))
  {
    if |items| == 0 then []
    else
      var rest := Select(items[1..], row, c);
      assert items == [items[0]] + items[1..];
      assert forall x :: x in items <==> x == items[0] || x in items[1..];
      if Eval(c, row(items[0])) then
        var r := [items[0]] + rest;
        assert r[1..] == rest;
        r
      else rest
  }

  /** The empty condition selects the whole table, so the count is the table size. */
  lemma {:induction false} SelectEmpty<T(!new)>(items: seq<T>, row: T -> Row)
    ensures Select(items, row, Empty) == items
  {
    if |items| > 0 {
      SelectEmpty(items[1..], row);
      assert [items[0]] + items[1..] == items;
    }
  }

  /** `skip`/`take` paging. The database refuses a negative skip; a negative
      take is treated as a refusal too. */
  function Page<T>(items: seq<T>, skip: int, take: int): (r: Result<seq<T>>)
    ensures r.Err? <==> skip < 0 || take < 0
    ensures r.Ok? ==> |r.value| <= take
    ensures r.Ok? ==> forall k :: 0 <= k < |r.value| ==> skip + k < |items| && r.value[k] == items[skip + k]
    ensures r.Ok? && skip + take <= |items| ==> |r.value| == take
    ensures r.Ok? && skip + take > |items| ==> |r.value| == (if skip < |items| then |items| - skip else 0)
  {
    if skip < 0 || take < 0 then Err(StoreError("negative skip or take"))
    else if skip >= |items| then Ok([])
    else Ok(items[skip .. if skip + take <= |items| then skip + take else |items|])
  }

  /** `meta` of a list response without a page count. */
  datatype ListMeta = ListMeta(page: int, limit: int, total: nat)

  datatype Listing<T> = Listing(meta: ListMeta, data: seq<T>)

  /** `findMany` with the window and `count` with the same condition. */
  function FindMany<T(!new)>(ordered: seq<T>, row: T -> Row, where: Cond, w: Window): (r: Result<Listing<T>>)
    ensures r.Ok? ==> r.value.meta == ListMeta(w.page, w.limit, |Select(ordered, row, where)|)
    ensures r.Ok? ==> Page(Select(ordered, row, where), w.skip, w.limit) == Ok(r.value.data)
    ensures r.Ok? ==> |r.value.data| <= w.limit
    ensures r.Ok? ==> forall x :: x in r.value.data ==> x in ordered && Eval(where, row(x))
    ensures r.Err? <==> w.skip < 0 || w.limit < 0
  {
    var matches := Select(ordered, row, where);
    match Page(matches, w.skip, w.limit)
    case Err(e) => Err(e)
    case Ok(data) =>
      assert forall x :: x in data ==> x in matches by {
        forall x | x in data ensures x in matches {
          var k :| 0 <= k < |data| && data[k] == x;
        }
      }
      Ok(Listing(ListMeta(w.page, w.limit, |matches|), data))
  }
}

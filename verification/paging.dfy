/**
 * Arithmetic and query-building patterns shared by the web handlers
 * (webapp/web/handlers/sales.go and inventory.go): page offsets, the page
 * count computed with Go's truncating integer division, and the numbering
 * of `$n` placeholders as optional filters are appended to a query.
 *
 * A query is modelled by the list of conditions it appends after
 * `WHERE 1=1`: each condition records which fragment was appended (its kind)
 * and the placeholder indices written into it, in order.  The SQL text
 * itself is not rendered.
 */
module Paging {
  import opened Wrappers

  // ---------------------------------------------------------------------
  // Pagination

  /** Go's `/` on integers: the quotient truncated toward zero. */
  function GoDiv(a: int, b: int): (q: int)
    requires b != 0
    ensures a >= 0 && b > 0 ==> q * b <= a < q * b + b
    ensures a < 0 && b > 0 ==> q * b - b < a <= q * b
  {
    var n := if a < 0 then -a else a;
    var d := if b < 0 then -b else b;
    if (a < 0) != (b < 0) then -(n / d) else n / d
  }

  /** `offset := (page - 1) * limit`; no bounds are applied to either query parameter. */
  function Offset(page: int, limit: int): int {
    (page - 1) * limit
  }

  /** Page 1 starts at row 0 and each page starts `limit` rows after the previous one. */
  lemma OffsetPages(page: int, limit: int)
    ensures Offset(1, limit) == 0
    ensures Offset(page + 1, limit) == Offset(page, limit) + limit
  {
  }

  /** A page number below 1 gives a negative offset when the limit is positive. */
  lemma OffsetBelowFirstPage(page: int, limit: int)
    requires page < 1 && limit > 0
    ensures Offset(page, limit) < 0
  {
    assert Offset(page, limit) == (page - 1) * limit;
    assert (page - 1) * limit <= -limit by {
      assert (page - 1) * limit + limit == page * limit;
      assert page * limit <= 0;
    }
  }

  /**
   * `totalPages := (totalCount + limit - 1) / limit`.  A zero limit is an
   * integer division by zero, which panics in Go: that outcome is `None`.
   */
  function TotalPages(total: int, limit: int): (r: Option<int>)
    ensures r.None? <==> limit == 0
  {
    if limit == 0 then None else Some(GoDiv(total + limit - 1, limit))
  }

  /** For a positive limit the page count is the ceiling of `total / limit`. */
  lemma TotalPagesIsCeiling(total: int, limit: int)
    requires total >= 0 && limit > 0
    ensures TotalPages(total, limit).Some?
    ensures var p := TotalPages(total, limit).value;
            p >= 0 && total <= p * limit && (p - 1) * limit < total
  {
    var p := TotalPages(total, limit).value;
    assert p * limit <= total + limit - 1 < p * limit + limit;
    assert (p - 1) * limit == p * limit - limit;
  }

  /** The page count is the only number of pages that covers `total` rows with no empty page. */
  lemma {:induction false} TotalPagesUnique(total: int, limit: int, p: int)
    requires total >= 0 && limit > 0
    requires total <= p * limit && (p - 1) * limit < total
    ensures TotalPages(total, limit) == Some(p)
  {
    TotalPagesIsCeiling(total, limit);
    var q := TotalPages(total, limit).value;
    if q > p {
      MulMonotone(p, q - 1, limit);
    } else if q < p {
      MulMonotone(q, p - 1, limit);
    }
  }

  lemma MulMonotone(a: int, b: int, c: int)
    requires a <= b && c >= 0
    ensures a * c <= b * c
  {
    assert b * c - a * c == (b - a) * c;
  }

  /** Every page from 1 to the page count starts inside the result set. */
  lemma {:induction false} PageStartsInside(total: int, limit: int, page: int)
    requires total >= 0 && limit > 0
    requires 1 <= page <= TotalPages(total, limit).value
    ensures 0 <= Offset(page, limit) < total
  {
    TotalPagesIsCeiling(total, limit);
    var p := TotalPages(total, limit).value;
    assert (page - 1) * limit <= (p - 1) * limit by {
      assert (p - 1) * limit - (page - 1) * limit == (p - page) * limit;
    }
    assert 0 <= (page - 1) * limit;
  }

  // ---------------------------------------------------------------------
  // Placeholder numbering

  /** A bound value passed with the query: a form string or an integer. */
  datatype Arg = Text(s: string) | Int(n: int)

  /**
   * A filter whose query parameter was non-empty: the fragment it appends,
   * the one argument it binds, and how many times the fragment writes its
   * placeholder (a search over three columns writes the same `$n` three times).
   */
  datatype Filter<K> = Filter(kind: K, arg: Arg, uses: nat)

  /** One appended fragment and the placeholder numbers written into it. */
  datatype Condition<K> = Condition(kind: K, placeholders: seq<int>)

  /** The filter list contributed by one query parameter: nothing when it is empty. */
  function When<K>(param: string, f: Filter<K>): (r: seq<Filter<K>>)
    ensures |r| == (if param == "" then 0 else 1)
  {
    if param == "" then [] else [f]
  }

  function Repeat(x: int, n: nat): (r: seq<int>)
    ensures |r| == n && forall i :: 0 <= i < n ==> r[i] == x
  {
    seq(n, _ => x)
  }

  /** The conditions written for `fs` when the first one gets placeholder `$first`. */
  function Numbered<K>(fs: seq<Filter<K>>, first: int): (r: seq<Condition<K>>)
    ensures |r| == |fs|
  {
    seq(|fs|, i requires 0 <= i < |fs| => Condition(fs[i].kind, Repeat(first + i, fs[i].uses)))
  }

  function ArgsOf<K>(fs: seq<Filter<K>>): (r: seq<Arg>)
    ensures |r| == |fs|
  {
    seq(|fs|, i requires 0 <= i < |fs| => fs[i].arg)
  }

  /**
   * Condition `i` is filter `i`'s fragment, every placeholder in it is `$i+1`,
   * and `$i+1` binds filter `i`'s argument.
   */
  lemma NumberedBinds<K>(fs: seq<Filter<K>>, i: int)
    requires 0 <= i < |fs|
    ensures Numbered(fs, 1)[i].kind == fs[i].kind
    ensures |Numbered(fs, 1)[i].placeholders| == fs[i].uses
    ensures forall p :: p in Numbered(fs, 1)[i].placeholders ==> p == i + 1 && ArgsOf(fs)[p - 1] == fs[i].arg
  {
  }

  /** Placeholder `$n` is written somewhere in `conds`. */
  predicate Mentions<K>(conds: seq<Condition<K>>, n: int) {
    exists i, j :: 0 <= i < |conds| && 0 <= j < |conds[i].placeholders| && conds[i].placeholders[j] == n
  }

  /** The placeholders used are exactly `$1..$n` for `n` arguments: none missing, none out of range. */
  lemma PlaceholdersExact<K>(fs: seq<Filter<K>>, n: int)
    requires forall i :: 0 <= i < |fs| ==> fs[i].uses >= 1
    ensures Mentions(Numbered(fs, 1), n) <==> 1 <= n <= |ArgsOf(fs)|
  {
    if 1 <= n <= |fs| {
      assert Numbered(fs, 1)[n - 1].placeholders[0] == n;
    }
  }

  /** Appending one more filter numbers it after all the earlier ones. */
  lemma NumberedStep<K>(fs: seq<Filter<K>>, f: Filter<K>)
    ensures Numbered(fs + [f], 1) == Numbered(fs, 1) + [Condition(f.kind, Repeat(|fs| + 1, f.uses))]
    ensures ArgsOf(fs + [f]) == ArgsOf(fs) + [f.arg]
  {
  }
}

/**
 * The pure logic inside the sales handlers (webapp/web/handlers/sales.go):
 * the comma-separated form lists of `parseStringArray`, the filter and
 * pagination part of `SalesList`, and the input checks `SalesCreate` makes
 * before and while it inserts the invoice lines.
 */
module SalesHandlers {
  import opened Wrappers
  import opened Text
  import opened Paging

  // ---------------------------------------------------------------------
  // parseStringArray

  /**
   * The pieces mapped through `trim`, keeping only the non-empty results, in
   * order.  The trimming function is a parameter so that reasoning about the
   * list structure does not unfold the trimming itself.
   */
  function KeptBy(pieces: seq<string>, trim: string -> string): (r: seq<string>)
    ensures |r| <= |pieces|
  {
    if |pieces| == 0 then []
    else
      var t := trim(pieces[|pieces| - 1]);
      KeptBy(pieces[..|pieces| - 1], trim) + (if t != "" then [t] else [])
  }

  /** What `parseStringArray(str)` returns. */
  function ParseList(str: string): (r: seq<string>)
    ensures str == "" ==> r == []
  {
    if str == "" then [] else KeptBy(SplitOn(str, ','), GoTrimSpace)
  }

  method ParseStringArray(str: string) returns (result: seq<string>)
    ensures result == ParseList(str)
  {
    if str == "" {
      return [];
    }
    var pieces := SplitOn(str, ',');
    var trim: string -> string := GoTrimSpace;
    result := [];
    var i := 0;
    while i < |pieces|
      invariant 0 <= i <= |pieces|
      invariant result == KeptBy(pieces[..i], trim)
    {
      var s := trim(pieces[i]);
      PrefixSnoc(pieces, i);
      KeptByStep(pieces[..i], pieces[i], trim);
      if s != "" {
        result := result + [s];
      }
      i := i + 1;
    }
    PrefixAll(pieces);
  }

  lemma KeptByStep(pieces: seq<string>, p: string, trim: string -> string)
    ensures KeptBy(pieces + [p], trim) == KeptBy(pieces, trim) + (if trim(p) != "" then [trim(p)] else [])
  {
    assert (pieces + [p])[..|pieces|] == pieces;
  }

  /** The empty-string test in `parseStringArray` changes nothing: the general path agrees. */
  lemma ParseListSplit(str: string)
    ensures ParseList(str) == KeptBy(SplitOn(str, ','), GoTrimSpace)
  {
    if str == "" {
      assert SplitOn(str, ',') == [""];
      assert [""][..0] == [];
    }
  }

  /** An element that is kept is non-empty, trimmed, and free of commas. */
  predicate Clean(s: string) {
    s != "" && IsTrimmedBy(s, IsGoSpace) && forall k :: 0 <= k < |s| ==> s[k] != ','
  }

  lemma {:induction false} KeptTrimmedClean(pieces: seq<string>)
    requires forall i, k :: 0 <= i < |pieces| && 0 <= k < |pieces[i]| ==> pieces[i][k] != ','
    ensures forall i :: 0 <= i < |KeptBy(pieces, GoTrimSpace)| ==> Clean(KeptBy(pieces, GoTrimSpace)[i])
  {
    if |pieces| > 0 {
      var last := pieces[|pieces| - 1];
      KeptTrimmedClean(pieces[..|pieces| - 1]);
      TrimKeepsChars(last, IsGoSpace, ',');
    }
  }

  /** Every element of the parsed list is non-empty, trimmed and comma-free. */
  lemma ParsedElementsClean(str: string)
    ensures forall i :: 0 <= i < |ParseList(str)| ==> Clean(ParseList(str)[i])
  {
    ParseListSplit(str);
    SplitOnShape(str, ',');
    KeptTrimmedClean(SplitOn(str, ','));
  }

  /** There are at most as many elements as commas plus one. */
  lemma ParsedLengthBound(str: string)
    ensures |ParseList(str)| <= CountChar(str, ',') + 1
  {
    ParseListSplit(str);
    SplitOnShape(str, ',');
  }

  lemma {:induction false} KeptByAppend(a: seq<string>, b: seq<string>, trim: string -> string)
    ensures KeptBy(a + b, trim) == KeptBy(a, trim) + KeptBy(b, trim)
    decreases |b|
  {
    if |b| == 0 {
      assert a + b == a;
    } else {
      var b' := b[..|b| - 1];
      var x := b[|b| - 1];
      KeptByAppend(a, b', trim);
      assert (a + b)[..|a + b| - 1] == a + b';
      assert (a + b)[|a + b| - 1] == x;
    }
  }

  lemma {:induction false} SplitOnConcat(s: string, t: string, c: char)
    ensures SplitOn(s + [c] + t, c) == SplitOn(s, c) + SplitOn(t, c)
    decreases |t|
  {
    if |t| == 0 {
      assert s + [c] + t == s + [c];
      SplitOnSnoc(s, c, c);
      assert SplitOn(t, c) == [""];
    } else {
      var t' := t[..|t| - 1];
      var x := t[|t| - 1];
      SplitOnConcat(s, t', c);
      assert s + [c] + t == (s + [c] + t') + [x];
      assert t == t' + [x];
      SplitOnConcatStep(s, t', x, c);
    }
  }

  lemma SplitOnConcatStep(s: string, t': string, x: char, c: char)
    requires SplitOn(s + [c] + t', c) == SplitOn(s, c) + SplitOn(t', c)
    ensures SplitOn((s + [c] + t') + [x], c) == SplitOn(s, c) + SplitOn(t' + [x], c)
  {
    SplitOnSnoc(s + [c] + t', x, c);
    SplitOnSnoc(t', x, c);
    ExtendLastPiece(SplitOn(s, c), SplitOn(t', c), x, c);
  }

  /** Extending the pieces of `A + B` by one character only touches the pieces of `B`. */
  lemma ExtendLastPiece(A: seq<string>, B: seq<string>, x: char, c: char)
    requires |B| >= 1
    ensures var AB := A + B;
            (if x == c then AB + [""] else AB[..|AB| - 1] + [AB[|AB| - 1] + [x]])
            == A + (if x == c then B + [""] else B[..|B| - 1] + [B[|B| - 1] + [x]])
  {
    var AB := A + B;
    if x == c {
      assert AB + [""] == A + (B + [""]);
    } else {
      assert AB[..|AB| - 1] == A + B[..|B| - 1];
      assert AB[|AB| - 1] == B[|B| - 1];
      assert A + B[..|B| - 1] + [B[|B| - 1] + [x]] == A + (B[..|B| - 1] + [B[|B| - 1] + [x]]);
    }
  }

  /** Splitting after one more character, read off the definition. */
  lemma SplitOnSnoc(u: string, x: char, c: char)
    ensures SplitOn(u + [x], c) ==
            (var init := SplitOn(u, c);
             if x == c then init + [""] else init[..|init| - 1] + [init[|init| - 1] + [x]])
  {
    assert (u + [x])[..|u|] == u;
  }

  /** Elements keep their input order: parsing `s,t` is parsing `s` followed by parsing `t`. */
  lemma ParseListConcat(s: string, t: string)
    ensures ParseList(s + "," + t) == ParseList(s) + ParseList(t)
  {
    ParseListSplit(s + "," + t);
    ParseListSplit(s);
    ParseListSplit(t);
    SplitOnConcat(s, t, ',');
    KeptByAppend(SplitOn(s, ','), SplitOn(t, ','), GoTrimSpace);
  }

  /** Pieces that `trim` leaves as they are, and that are not empty, are all kept. */
  lemma {:induction false} KeptByFixed(xs: seq<string>, trim: string -> string)
    requires forall i :: 0 <= i < |xs| ==> xs[i] != "" && trim(xs[i]) == xs[i]
    ensures KeptBy(xs, trim) == xs
  {
    if |xs| > 0 {
      KeptByFixed(xs[..|xs| - 1], trim);
    }
  }

  lemma KeptTrimmedOfClean(xs: seq<string>)
    requires forall i :: 0 <= i < |xs| ==> Clean(xs[i])
    ensures KeptBy(xs, GoTrimSpace) == xs
  {
    forall i | 0 <= i < |xs|
      ensures GoTrimSpace(xs[i]) == xs[i]
    {
      TrimOfTrimmed(xs[i], IsGoSpace);
    }
    KeptByFixed(xs, GoTrimSpace);
  }

  /** Re-parsing the comma-join of a parsed list gives the same list. */
  lemma ReparseJoined(str: string)
    ensures ParseList(Join(ParseList(str), ",")) == ParseList(str)
  {
    var r := ParseList(str);
    ParsedElementsClean(str);
    if |r| > 0 {
      SplitOnJoin(r, ',');
      KeptTrimmedOfClean(r);
      ParseListSplit(Join(r, ","));
    }
  }

  // ---------------------------------------------------------------------
  // SalesList: filters, placeholders and pagination

  /** The fragments `SalesList` may append after `WHERE 1=1`. */
  datatype SalesCondition =
    | InvoiceSearch     // invoice number, customer or employee name ILIKE one pattern
    | CustomerIs
    | EmployeeIs
    | DateFrom
    | DateTo
    | LimitOffset       // only in the list query

  datatype SalesParams = SalesParams(
    search: string,
    customerId: string,
    employeeId: string,
    dateFrom: string,
    dateTo: string)

  /** The filters in the order the handler tests them; the search pattern is written three times. */
  function SalesFilters(p: SalesParams): seq<Filter<SalesCondition>> {
    When(p.search, Filter(InvoiceSearch, Text("%" + p.search + "%"), 3))
    + When(p.customerId, Filter(CustomerIs, Text(p.customerId), 1))
    + When(p.employeeId, Filter(EmployeeIs, Text(p.employeeId), 1))
    + When(p.dateFrom, Filter(DateFrom, Text(p.dateFrom), 1))
    + When(p.dateTo, Filter(DateTo, Text(p.dateTo), 1))
  }

  /** One filter step: append the condition numbered `argIndex` and its argument. */
  method AddFilter(conds: seq<Condition<SalesCondition>>, args: seq<Arg>, argIndex: int,
                   ghost fs: seq<Filter<SalesCondition>>, param: string, f: Filter<SalesCondition>)
    returns (conds': seq<Condition<SalesCondition>>, args': seq<Arg>, argIndex': int)
    requires conds == Numbered(fs, 1) && args == ArgsOf(fs) && argIndex == |fs| + 1
    ensures conds' == Numbered(fs + When(param, f), 1) && args' == ArgsOf(fs + When(param, f))
    ensures argIndex' == |fs + When(param, f)| + 1
  {
    conds', args', argIndex' := conds, args, argIndex;
    if param != "" {
      NumberedStep(fs, f);
      conds' := conds' + [Condition(f.kind, Repeat(argIndex, f.uses))];
      args' := args' + [f.arg];
      argIndex' := argIndex' + 1;
    } else {
      assert fs + When(param, f) == fs;
    }
  }

  /**
   * The list query: the filters numbered from `$1`, then `LIMIT $k+1 OFFSET $k+2`
   * bound to the limit and the offset of the requested page.
   */
  method SalesListQuery(p: SalesParams, page: int, limit: int)
    returns (conds: seq<Condition<SalesCondition>>, args: seq<Arg>)
    ensures var fs := SalesFilters(p);
            conds == Numbered(fs, 1) + [Condition(LimitOffset, [|fs| + 1, |fs| + 2])]
            && args == ArgsOf(fs) + [Int(limit), Int(Offset(page, limit))]
  {
    var offset := (page - 1) * limit;
    var argIndex := 1;
    conds, args := [], [];
    ghost var fs: seq<Filter<SalesCondition>> := [];
    conds, args, argIndex := AddFilter(conds, args, argIndex, fs, p.search, Filter(InvoiceSearch, Text("%" + p.search + "%"), 3));
    fs := fs + When(p.search, Filter(InvoiceSearch, Text("%" + p.search + "%"), 3));
    conds, args, argIndex := AddFilter(conds, args, argIndex, fs, p.customerId, Filter(CustomerIs, Text(p.customerId), 1));
    fs := fs + When(p.customerId, Filter(CustomerIs, Text(p.customerId), 1));
    conds, args, argIndex := AddFilter(conds, args, argIndex, fs, p.employeeId, Filter(EmployeeIs, Text(p.employeeId), 1));
    fs := fs + When(p.employeeId, Filter(EmployeeIs, Text(p.employeeId), 1));
    conds, args, argIndex := AddFilter(conds, args, argIndex, fs, p.dateFrom, Filter(DateFrom, Text(p.dateFrom), 1));
    fs := fs + When(p.dateFrom, Filter(DateFrom, Text(p.dateFrom), 1));
    conds, args, argIndex := AddFilter(conds, args, argIndex, fs, p.dateTo, Filter(DateTo, Text(p.dateTo), 1));
    fs := fs + When(p.dateTo, Filter(DateTo, Text(p.dateTo), 1));
    assert fs == SalesFilters(p);
    conds := conds + [Condition(LimitOffset, [argIndex, argIndex + 1])];
    args := args + [Int(limit), Int(offset)];
  }

  /** The count query: the same filters, numbered the same way, and no `LIMIT`. */
  method SalesCountQuery(p: SalesParams) returns (conds: seq<Condition<SalesCondition>>, args: seq<Arg>)
    ensures conds == Numbered(SalesFilters(p), 1) && args == ArgsOf(SalesFilters(p))
  {
    var argIndex := 1;
    conds, args := [], [];
    ghost var fs: seq<Filter<SalesCondition>> := [];
    conds, args, argIndex := AddFilter(conds, args, argIndex, fs, p.search, Filter(InvoiceSearch, Text("%" + p.search + "%"), 3));
    fs := fs + When(p.search, Filter(InvoiceSearch, Text("%" + p.search + "%"), 3));
    conds, args, argIndex := AddFilter(conds, args, argIndex, fs, p.customerId, Filter(CustomerIs, Text(p.customerId), 1));
    fs := fs + When(p.customerId, Filter(CustomerIs, Text(p.customerId), 1));
    conds, args, argIndex := AddFilter(conds, args, argIndex, fs, p.employeeId, Filter(EmployeeIs, Text(p.employeeId), 1));
    fs := fs + When(p.employeeId, Filter(EmployeeIs, Text(p.employeeId), 1));
    conds, args, argIndex := AddFilter(conds, args, argIndex, fs, p.dateFrom, Filter(DateFrom, Text(p.dateFrom), 1));
    fs := fs + When(p.dateFrom, Filter(DateFrom, Text(p.dateFrom), 1));
    conds, args, argIndex := AddFilter(conds, args, argIndex, fs, p.dateTo, Filter(DateTo, Text(p.dateTo), 1));
    fs := fs + When(p.dateTo, Filter(DateTo, Text(p.dateTo), 1));
    assert fs == SalesFilters(p);
  }

  /** How many of the five filter parameters are non-empty. */
  function FilledParams(p: SalesParams): nat {
    (if p.search != "" then 1 else 0) + (if p.customerId != "" then 1 else 0)
    + (if p.employeeId != "" then 1 else 0) + (if p.dateFrom != "" then 1 else 0)
    + (if p.dateTo != "" then 1 else 0)
  }

  /**
   * Both queries of one request: the count query is the list query without its
   * last condition and its last two arguments, the list query binds one argument
   * per non-empty filter plus the limit and the offset, and `$k+1`/`$k+2` bind them.
   */
  method SalesListQueries(p: SalesParams, page: int, limit: int)
    returns (conds: seq<Condition<SalesCondition>>, args: seq<Arg>,
             countConds: seq<Condition<SalesCondition>>, countArgs: seq<Arg>)
    ensures |args| == FilledParams(p) + 2 && |countArgs| == FilledParams(p)
    ensures |conds| == FilledParams(p) + 1
    ensures countConds == conds[..|conds| - 1] && countArgs == args[..|args| - 2]
    ensures conds[|conds| - 1] == Condition(LimitOffset, [|args| - 1, |args|])
    ensures args[|args| - 2] == Int(limit) && args[|args| - 1] == Int(Offset(page, limit))
  {
    conds, args := SalesListQuery(p, page, limit);
    countConds, countArgs := SalesCountQuery(p);
    assert conds[..|conds| - 1] == Numbered(SalesFilters(p), 1);
    assert args[..|args| - 2] == ArgsOf(SalesFilters(p));
  }

  // ---------------------------------------------------------------------
  // Decimal integers as strconv reads them

  function DigitsValue(s: string): nat
    requires AllDigits(s)
  {
    if |s| == 0 then 0 else 10 * DigitsValue(s[..|s| - 1]) + (s[|s| - 1] as int - '0' as int)
  }

  const MaxUint64: int := 0xFFFF_FFFF_FFFF_FFFF
  const MinInt64: int := -0x8000_0000_0000_0000
  const MaxInt64: int := 0x7FFF_FFFF_FFFF_FFFF

  /** `strconv.ParseUint(s, 10, 64)`: one or more ASCII digits, no sign, at most 2^64-1. */
  function ParseUint64(s: string): (r: Option<nat>)
    ensures r.Some? <==> |s| > 0 && AllDigits(s) && DigitsValue(s) <= MaxUint64
    ensures r.Some? ==> r.value == DigitsValue(s)
  {
    if |s| > 0 && AllDigits(s) && DigitsValue(s) <= MaxUint64 then Some(DigitsValue(s)) else None
  }

  /** `strconv.Atoi(s)` on a 64-bit platform: an optional sign, one or more digits, in int64 range. */
  function Atoi(s: string): (r: Option<int>)
    ensures r.Some? ==> MinInt64 <= r.value <= MaxInt64
    ensures r.Some? ==> |s| > 0
  {
    if |s| == 0 then None
    else
      var body := if s[0] == '+' || s[0] == '-' then s[1..] else s;
      if |body| == 0 || !AllDigits(body) then None
      else
        var v: int := if s[0] == '-' then -(DigitsValue(body) as int) else DigitsValue(body);
        if MinInt64 <= v <= MaxInt64 then Some(v) else None
  }

  /** The decimal spelling of `n`, as `strconv.Itoa` writes it. */
  function Decimal(n: nat): (s: string)
    ensures |s| >= 1 && AllDigits(s)
  {
    if n < 10 then [('0' as int + n) as char] else Decimal(n / 10) + [('0' as int + n % 10) as char]
  }

  lemma {:induction false} DecimalValue(n: nat)
    ensures DigitsValue(Decimal(n)) == n
  {
    if n >= 10 {
      DecimalValue(n / 10);
      var s := Decimal(n);
      assert s[..|s| - 1] == Decimal(n / 10);
    }
  }

  /** Both parsers read back what `Decimal` writes, within their ranges. */
  lemma ParseDecimal(n: nat)
    ensures n <= MaxUint64 ==> ParseUint64(Decimal(n)) == Some(n)
    ensures n <= MaxInt64 ==> Atoi(Decimal(n)) == Some(n)
    ensures n <= -MinInt64 ==> Atoi("-" + Decimal(n)) == Some(-(n as int))
  {
    DecimalValue(n);
    assert ("-" + Decimal(n))[1..] == Decimal(n);
  }

  // ---------------------------------------------------------------------
  // SalesCreate: input validation

  /** The form fields `SalesCreate` reads, as raw strings. */
  datatype SaleForm = SaleForm(
    customerId: string,
    employeeId: string,
    paymentMethod: string,
    pointsUsed: string,
    notes: string,
    productIds: string,
    quantities: string,
    unitPrices: string,
    discountPercentages: string)

  /** The reasons for a 400 reply, in the order the handler checks them. */
  datatype SaleError =
    | MissingEmployee
    | InvalidEmployee
    | InvalidPoints
    | NoProducts
    | MismatchedLists
    | InvalidProduct(productText: string)
    | InvalidQuantity(quantityText: string)
    | InvalidPrice(priceText: string)
    | InvalidDiscount(discountText: string)

  /** What passes the checks made before the invoice is inserted. */
  datatype SaleHeader = SaleHeader(
    employeeId: nat,
    pointsUsed: int,
    products: seq<string>,
    quantities: seq<string>,
    unitPrices: seq<string>,
    discounts: seq<string>)

  predicate SameLengths(h: SaleHeader) {
    |h.quantities| == |h.products| && |h.unitPrices| == |h.products|
  }

  /** The employee field is present and reads as an unsigned 64-bit number. */
  predicate EmployeeAccepted(f: SaleForm) {
    f.employeeId != "" && ParseUint64(f.employeeId).Some?
  }

  /** The points field is absent, or reads as a non-negative `int`. */
  predicate PointsAccepted(f: SaleForm) {
    f.pointsUsed == "" || (Atoi(f.pointsUsed).Some? && Atoi(f.pointsUsed).value >= 0)
  }

  /** The three required list fields are non-empty strings. */
  predicate ListsGiven(f: SaleForm) {
    f.productIds != "" && f.quantities != "" && f.unitPrices != ""
  }

  /** The parsed product, quantity and price lists have the same length. */
  predicate ListsMatch(f: SaleForm) {
    |ParseList(f.productIds)| == |ParseList(f.quantities)| && |ParseList(f.productIds)| == |ParseList(f.unitPrices)|
  }

  /** The checks of `SalesCreate` before the invoice number is generated, each error under its exact condition. */
  function CheckHeader(f: SaleForm): (r: Result<SaleHeader, SaleError>)
    ensures r == Failure(MissingEmployee) <==> f.employeeId == ""
    ensures r == Failure(InvalidEmployee) <==> f.employeeId != "" && ParseUint64(f.employeeId).None?
    ensures r == Failure(InvalidPoints) <==> EmployeeAccepted(f) && !PointsAccepted(f)
    ensures r == Failure(NoProducts) <==> EmployeeAccepted(f) && PointsAccepted(f) && !ListsGiven(f)
    ensures r == Failure(MismatchedLists) <==> EmployeeAccepted(f) && PointsAccepted(f) && ListsGiven(f) && !ListsMatch(f)
    ensures r.Success? <==> EmployeeAccepted(f) && PointsAccepted(f) && ListsGiven(f) && ListsMatch(f)
    ensures r.Success? ==> ParseUint64(f.employeeId) == Some(r.value.employeeId)
    ensures r.Success? ==> r.value.pointsUsed >= 0 && (f.pointsUsed == "" ==> r.value.pointsUsed == 0)
                           && (f.pointsUsed != "" ==> Atoi(f.pointsUsed) == Some(r.value.pointsUsed))
    ensures r.Success? ==> SameLengths(r.value)
    ensures r.Success? ==> r.value.products == ParseList(f.productIds) && r.value.quantities == ParseList(f.quantities)
                           && r.value.unitPrices == ParseList(f.unitPrices)
                           && r.value.discounts == ParseList(f.discountPercentages)
  {
    if f.employeeId == "" then Failure(MissingEmployee)
    else if ParseUint64(f.employeeId).None? then Failure(InvalidEmployee)
    else if f.pointsUsed != "" && (Atoi(f.pointsUsed).None? || Atoi(f.pointsUsed).value < 0) then Failure(InvalidPoints)
    else if f.productIds == "" || f.quantities == "" || f.unitPrices == "" then Failure(NoProducts)
    else
      var products := ParseList(f.productIds);
      var quantities := ParseList(f.quantities);
      var prices := ParseList(f.unitPrices);
      if |products| != |quantities| || |products| != |prices| then Failure(MismatchedLists)
      else
        var points := if f.pointsUsed == "" then 0 else Atoi(f.pointsUsed).value;
        Success(SaleHeader(ParseUint64(f.employeeId).value, points, products, quantities, prices,
                           ParseList(f.discountPercentages)))
  }

  /** Negative points and a list-length mismatch are rejected; the discount list is not length-checked. */
  lemma CheckHeaderRejects(f: SaleForm)
    requires f.employeeId != "" && ParseUint64(f.employeeId).Some?
    ensures Atoi(f.pointsUsed).Some? && Atoi(f.pointsUsed).value < 0 ==> CheckHeader(f) == Failure(InvalidPoints)
    ensures f.pointsUsed == "" && f.productIds != "" && f.quantities != "" && f.unitPrices != ""
            && |ParseList(f.productIds)| == |ParseList(f.quantities)| == |ParseList(f.unitPrices)|
            ==> CheckHeader(f).Success?
  {
  }

  /**
   * A float64 as `strconv.ParseFloat(_, 64)` returns it: a finite value, NaN,
   * or an infinity (it accepts the spellings "NaN", "Inf", "+Inf", "-Inf" and
   * "Infinity").  The rounding of finite values is not modelled.
   */
  datatype Float = Finite(value: real) | NaN | PosInf | NegInf

  /** Go's `x <= c`: false when `x` is NaN. */
  predicate AtMost(x: Float, c: real) {
    match x
    case Finite(v) => v <= c
    case NaN => false
    case PosInf => false
    case NegInf => true
  }

  /** Go's `x < c`: false when `x` is NaN. */
  predicate Below(x: Float, c: real) {
    match x
    case Finite(v) => v < c
    case NaN => false
    case PosInf => false
    case NegInf => true
  }

  /** Go's `x > c`: false when `x` is NaN. */
  predicate Above(x: Float, c: real) {
    match x
    case Finite(v) => v > c
    case NaN => false
    case PosInf => true
    case NegInf => false
  }

  /** A sale line as inserted: quantity and prices already parsed. */
  datatype SaleLine = SaleLine(productId: nat, quantity: int, unitPrice: Float, discount: Float)

  predicate QuantityRejected(quantity: string) {
    Atoi(quantity).None? || Atoi(quantity).value <= 0
  }

  predicate PriceRejected(price: string, ParseFloat: string -> Option<Float>) {
    ParseFloat(price).None? || AtMost(ParseFloat(price).value, 0.0)
  }

  /** Line `i` has a non-blank discount entry. */
  predicate HasDiscount(discounts: seq<string>, i: nat) {
    i < |discounts| && discounts[i] != ""
  }

  predicate DiscountRejected(discounts: seq<string>, i: nat, ParseFloat: string -> Option<Float>) {
    HasDiscount(discounts, i)
    && (ParseFloat(discounts[i]).None? || Below(ParseFloat(discounts[i]).value, 0.0)
        || Above(ParseFloat(discounts[i]).value, 100.0))
  }

  /**
   * The checks on line `i`, each error under its exact condition.  `ParseFloat`
   * stands for `strconv.ParseFloat(_, 64)`.
   */
  function CheckLine(product: string, quantity: string, price: string, discounts: seq<string>, i: nat,
                     ParseFloat: string -> Option<Float>): (r: Result<SaleLine, SaleError>)
    ensures r == Failure(InvalidProduct(product)) <==> ParseUint64(product).None?
    ensures r == Failure(InvalidQuantity(quantity)) <==> ParseUint64(product).Some? && QuantityRejected(quantity)
    ensures r == Failure(InvalidPrice(price)) <==>
              ParseUint64(product).Some? && !QuantityRejected(quantity) && PriceRejected(price, ParseFloat)
    ensures r.Failure? && r.error.InvalidDiscount? <==>
              ParseUint64(product).Some? && !QuantityRejected(quantity) && !PriceRejected(price, ParseFloat)
              && DiscountRejected(discounts, i, ParseFloat)
    ensures r.Failure? && r.error.InvalidDiscount? ==> i < |discounts| && r.error == InvalidDiscount(discounts[i])
    ensures r.Success? ==> ParseUint64(product) == Some(r.value.productId)
    ensures r.Success? ==> Atoi(quantity) == Some(r.value.quantity) && r.value.quantity > 0
    ensures r.Success? ==> ParseFloat(price) == Some(r.value.unitPrice) && !AtMost(r.value.unitPrice, 0.0)
    ensures r.Success? ==> !Below(r.value.discount, 0.0) && !Above(r.value.discount, 100.0)
    ensures r.Success? && !HasDiscount(discounts, i) ==> r.value.discount == Finite(0.0)
    ensures r.Success? && HasDiscount(discounts, i) ==> ParseFloat(discounts[i]) == Some(r.value.discount)
  {
    if ParseUint64(product).None? then Failure(InvalidProduct(product))
    else if Atoi(quantity).None? || Atoi(quantity).value <= 0 then Failure(InvalidQuantity(quantity))
    else if ParseFloat(price).None? || AtMost(ParseFloat(price).value, 0.0) then Failure(InvalidPrice(price))
    else if i < |discounts| && discounts[i] != ""
            && (ParseFloat(discounts[i]).None? || Below(ParseFloat(discounts[i]).value, 0.0)
                || Above(ParseFloat(discounts[i]).value, 100.0))
    then Failure(InvalidDiscount(discounts[i]))
    else
      var discount := if i < |discounts| && discounts[i] != "" then ParseFloat(discounts[i]).value else Finite(0.0);
      Success(SaleLine(ParseUint64(product).value, Atoi(quantity).value, ParseFloat(price).value, discount))
  }

  function LineAt(h: SaleHeader, i: nat, ParseFloat: string -> Option<Float>): Result<SaleLine, SaleError>
    requires SameLengths(h) && i < |h.products|
  {
    CheckLine(h.products[i], h.quantities[i], h.unitPrices[i], h.discounts, i, ParseFloat)
  }

  /** The first `n` lines checked in order; the first failing line decides the reply. */
  function CheckedLines(h: SaleHeader, n: nat, ParseFloat: string -> Option<Float>): (r: Result<seq<SaleLine>, SaleError>)
    requires SameLengths(h) && n <= |h.products|
    ensures r.Success? ==> |r.value| == n
  {
    if n == 0 then Success([])
    else
      match CheckedLines(h, n - 1, ParseFloat)
      case Failure(e) => Failure(e)
      case Success(lines) =>
        match LineAt(h, n - 1, ParseFloat)
        case Failure(e) => Failure(e)
        case Success(line) => Success(lines + [line])
  }

  /** All lines pass exactly when each line passes, and line `k` of the result is line `k` checked. */
  lemma CheckedLinesAll(h: SaleHeader, n: nat, ParseFloat: string -> Option<Float>)
    requires SameLengths(h) && n <= |h.products|
    ensures CheckedLines(h, n, ParseFloat).Success? <==> forall k :: 0 <= k < n ==> LineAt(h, k, ParseFloat).Success?
    ensures CheckedLines(h, n, ParseFloat).Success? ==>
              forall k :: 0 <= k < n ==> CheckedLines(h, n, ParseFloat).value[k] == LineAt(h, k, ParseFloat).value
  {
    CheckedLinesPass(h, n, ParseFloat);
    if CheckedLines(h, n, ParseFloat).Success? {
      CheckedLinesValues(h, n, ParseFloat);
    }
  }

  lemma {:induction false} CheckedLinesPass(h: SaleHeader, n: nat, ParseFloat: string -> Option<Float>)
    requires SameLengths(h) && n <= |h.products|
    ensures CheckedLines(h, n, ParseFloat).Success? <==> forall k :: 0 <= k < n ==> LineAt(h, k, ParseFloat).Success?
  {
    if n > 0 {
      CheckedLinesPass(h, n - 1, ParseFloat);
    }
  }

  lemma {:induction false} CheckedLinesValues(h: SaleHeader, n: nat, ParseFloat: string -> Option<Float>)
    requires SameLengths(h) && n <= |h.products|
    requires CheckedLines(h, n, ParseFloat).Success?
    ensures forall k :: 0 <= k < n ==> LineAt(h, k, ParseFloat) == Success(CheckedLines(h, n, ParseFloat).value[k])
  {
    if n > 0 {
      var prev := CheckedLines(h, n - 1, ParseFloat);
      CheckedLinesValues(h, n - 1, ParseFloat);
      var r := CheckedLines(h, n, ParseFloat).value;
      CheckedLinesStep(h, n - 1, ParseFloat, prev.value);
      assert r == prev.value + [LineAt(h, n - 1, ParseFloat).value];
      forall k | 0 <= k < n - 1
        ensures LineAt(h, k, ParseFloat) == Success(r[k])
      {
        assert r[k] == prev.value[k];
      }
    }
  }

  /** When lines before `k` pass and line `k` fails, the reply is line `k`'s error. */
  lemma {:induction false} CheckedLinesFirstError(h: SaleHeader, n: nat, k: nat, ParseFloat: string -> Option<Float>)
    requires SameLengths(h) && k < n <= |h.products|
    requires CheckedLines(h, k, ParseFloat).Success? && LineAt(h, k, ParseFloat).Failure?
    ensures CheckedLines(h, n, ParseFloat) == Failure(LineAt(h, k, ParseFloat).error)
  {
    if n > k + 1 {
      CheckedLinesFirstError(h, n - 1, k, ParseFloat);
    }
  }

  /** A failing check of the lines reports the error of the first line that fails. */
  lemma {:induction false} CheckedLinesFailure(h: SaleHeader, n: nat, ParseFloat: string -> Option<Float>)
    requires SameLengths(h) && n <= |h.products|
    requires CheckedLines(h, n, ParseFloat).Failure?
    ensures exists k :: 0 <= k < n && CheckedLines(h, k, ParseFloat).Success? && LineAt(h, k, ParseFloat).Failure?
                        && CheckedLines(h, n, ParseFloat).error == LineAt(h, k, ParseFloat).error
  {
    if CheckedLines(h, n - 1, ParseFloat).Failure? {
      CheckedLinesFailure(h, n - 1, ParseFloat);
    } else {
      assert CheckedLines(h, n - 1, ParseFloat).Success? && LineAt(h, n - 1, ParseFloat).Failure?;
    }
  }

  lemma CheckedLinesStep(h: SaleHeader, i: nat, ParseFloat: string -> Option<Float>, lines: seq<SaleLine>)
    requires SameLengths(h) && i < |h.products|
    requires CheckedLines(h, i, ParseFloat) == Success(lines)
    ensures var line := CheckLine(h.products[i], h.quantities[i], h.unitPrices[i], h.discounts, i, ParseFloat);
      line.Success? ==> CheckedLines(h, i + 1, ParseFloat) == Success(lines + [line.value])
  {
  }

  /** The loop over the lines of `SalesCreate`: it stops at the first line that fails a check. */
  method CheckLines(h: SaleHeader, ParseFloat: string -> Option<Float>) returns (r: Result<seq<SaleLine>, SaleError>)
    requires SameLengths(h)
    ensures r == CheckedLines(h, |h.products|, ParseFloat)
  {
    var lines: seq<SaleLine> := [];
    var i := 0;
    while i < |h.products|
      invariant 0 <= i <= |h.products|
      invariant CheckedLines(h, i, ParseFloat) == Success(lines)
    {
      var line := CheckLine(h.products[i], h.quantities[i], h.unitPrices[i], h.discounts, i, ParseFloat);
      CheckedLinesStep(h, i, ParseFloat, lines);
      if line.Failure? {
        CheckedLinesFirstError(h, |h.products|, i, ParseFloat);
        return Failure(line.error);
      }
      lines := lines + [line.value];
      i := i + 1;
    }
    r := Success(lines);
  }

  datatype Sale = Sale(employeeId: nat, pointsUsed: int, lines: seq<SaleLine>)

  /**
   * Every check `SalesCreate` makes on its input, in order: a header error is
   * the reply; otherwise the sale is accepted exactly when every line passes,
   * and line `k` of the sale is line `k` checked.
   */
  function ValidateSale(f: SaleForm, ParseFloat: string -> Option<Float>): (r: Result<Sale, SaleError>)
    ensures CheckHeader(f).Failure? ==> r == Failure(CheckHeader(f).error)
    ensures CheckHeader(f).Success? ==>
              var h := CheckHeader(f).value;
              (r.Success? <==> forall k :: 0 <= k < |h.products| ==> LineAt(h, k, ParseFloat).Success?)
    ensures r.Success? ==>
              var h := CheckHeader(f).value;
              r.value.employeeId == h.employeeId && r.value.pointsUsed == h.pointsUsed
              && |r.value.lines| == |h.products|
              && forall k :: 0 <= k < |h.products| ==> r.value.lines[k] == LineAt(h, k, ParseFloat).value
  {
    match CheckHeader(f)
    case Failure(e) => Failure(e)
    case Success(h) =>
      CheckedLinesAll(h, |h.products|, ParseFloat);
      match CheckedLines(h, |h.products|, ParseFloat)
      case Failure(e) => Failure(e)
      case Success(lines) => Success(Sale(h.employeeId, h.pointsUsed, lines))
  }

  /** A sale that passes the header checks and is refused carries the error of its first failing line. */
  lemma ValidateSaleFirstError(f: SaleForm, ParseFloat: string -> Option<Float>)
    requires CheckHeader(f).Success? && ValidateSale(f, ParseFloat).Failure?
    ensures var h := CheckHeader(f).value;
            exists k :: 0 <= k < |h.products| && (forall j :: 0 <= j < k ==> LineAt(h, j, ParseFloat).Success?)
                        && LineAt(h, k, ParseFloat).Failure?
                        && ValidateSale(f, ParseFloat).error == LineAt(h, k, ParseFloat).error
  {
    var h := CheckHeader(f).value;
    CheckedLinesFailure(h, |h.products|, ParseFloat);
    var k :| 0 <= k < |h.products| && CheckedLines(h, k, ParseFloat).Success? && LineAt(h, k, ParseFloat).Failure?
             && CheckedLines(h, |h.products|, ParseFloat).error == LineAt(h, k, ParseFloat).error;
    CheckedLinesPass(h, k, ParseFloat);
  }

  /**
   * Every line of an accepted sale has a positive quantity, and its price and
   * discount pass Go's comparisons `price <= 0`, `discount < 0` and
   * `discount > 100`: a finite price is positive and a finite discount lies in
   * [0, 100], but NaN passes all three and +Inf passes the price check.
   */
  lemma SaleLinesValid(f: SaleForm, ParseFloat: string -> Option<Float>, k: int)
    requires ValidateSale(f, ParseFloat).Success?
    requires 0 <= k < |ValidateSale(f, ParseFloat).value.lines|
    ensures var line := ValidateSale(f, ParseFloat).value.lines[k];
            line.quantity > 0 && !AtMost(line.unitPrice, 0.0)
            && !Below(line.discount, 0.0) && !Above(line.discount, 100.0)
    ensures var line := ValidateSale(f, ParseFloat).value.lines[k];
            (line.unitPrice.Finite? ==> line.unitPrice.value > 0.0)
            && (line.discount.Finite? ==> 0.0 <= line.discount.value <= 100.0)
            && line.unitPrice != NegInf && (line.discount.Finite? || line.discount.NaN?)
  {
    var h := CheckHeader(f).value;
    CheckedLinesAll(h, |h.products|, ParseFloat);
    var line := ValidateSale(f, ParseFloat).value.lines[k];
    assert LineAt(h, k, ParseFloat) == Success(line);
    PassedComparisons(line.unitPrice, line.discount);
  }

  /** What a price and a discount that passed the three comparisons can be. */
  lemma PassedComparisons(price: Float, discount: Float)
    requires !AtMost(price, 0.0) && !Below(discount, 0.0) && !Above(discount, 100.0)
    ensures price.Finite? ==> price.value > 0.0
    ensures discount.Finite? ==> 0.0 <= discount.value <= 100.0
    ensures price != NegInf && (discount.Finite? || discount.NaN?)
  {
  }

  // ---------------------------------------------------------------------
  // Three places where the checks do not do what their messages promise

  /**
   * A form whose lists hold only separators passes every check and yields a
   * sale with no lines, although the emptiness check is meant to demand
   * at least one product.
   */
  lemma ZeroLineSaleAccepted(ParseFloat: string -> Option<Float>)
    ensures var f := SaleForm("", "1", "", "", "", ",", ",", ",", "");
            ValidateSale(f, ParseFloat).Success? && ValidateSale(f, ParseFloat).value.lines == []
  {
    var f := SaleForm("", "1", "", "", "", ",", ",", ",", "");
    SeparatorOnly();
    OneDigit(1);
    var h := SaleHeader(1, 0, [], [], [], []);
    assert CheckHeader(f) == Success(h);
    assert CheckedLines(h, 0, ParseFloat) == Success([]);
  }

  /** A lone comma parses to the empty list. */
  lemma SeparatorOnly()
    ensures ParseList(",") == []
  {
    SplitOnSnoc("", ',', ',');
    assert "" + [','] == ",";
    assert SplitOn("", ',') == [""];
    assert SplitOn(",", ',') == ["", ""];
    assert GoTrimSpace("") == "";
    assert ["", ""][..1] == [""];
    assert [""][..0] == [];
  }

  /** A single digit is read as its value by both parsers. */
  lemma OneDigit(n: nat)
    requires n < 10
    ensures ParseUint64([('0' as int + n) as char]) == Some(n)
    ensures Atoi([('0' as int + n) as char]) == Some(n)
  {
    ParseDecimal(n);
  }

  /** The comma fields of a list, trimmed, with empty fields kept in place. */
  function DiscountFields(s: string): (r: seq<string>)
    ensures s != "" ==> |r| == |SplitOn(s, ',')|
  {
    if s == "" then []
    else
      var pieces := SplitOn(s, ',');
      seq(|pieces|, i requires 0 <= i < |pieces| => GoTrimSpace(pieces[i]))
  }

  /**
   * Dropping empty discount fields shifts the later ones onto earlier lines:
   * with discounts `",d"` for two lines (for instance `",10"`), the discount
   * `d` lands on the first line and the second line gets none.
   */
  lemma BlankDiscountShifts(ParseFloat: string -> Option<Float>, products: seq<string>, quantities: seq<string>,
                            prices: seq<string>, d: string)
    requires |products| == |quantities| == |prices| == 2
    requires forall i :: 0 <= i < 2 ==> ParseUint64(products[i]).Some?
    requires forall i :: 0 <= i < 2 ==> Atoi(quantities[i]).Some? && Atoi(quantities[i]).value > 0
    requires forall i :: 0 <= i < 2 ==> ParseFloat(prices[i]).Some? && !AtMost(ParseFloat(prices[i]).value, 0.0)
    requires Clean(d) && ParseFloat(d).Some? && !Below(ParseFloat(d).value, 0.0) && !Above(ParseFloat(d).value, 100.0)
    ensures var h := SaleHeader(1, 0, products, quantities, prices, ParseList("," + d));
            CheckedLines(h, 2, ParseFloat).Success?
            && CheckedLines(h, 2, ParseFloat).value[0].discount == ParseFloat(d).value
            && CheckedLines(h, 2, ParseFloat).value[1].discount == Finite(0.0)
  {
    LeadingBlankDropped(d);
    DiscountOnFirstOfTwo(ParseFloat, products, quantities, prices, d);
  }

  /** Two valid lines and the single discount field `d`: the first line gets `d`, the second none. */
  lemma DiscountOnFirstOfTwo(ParseFloat: string -> Option<Float>, products: seq<string>, quantities: seq<string>,
                             prices: seq<string>, d: string)
    requires |products| == |quantities| == |prices| == 2
    requires forall i :: 0 <= i < 2 ==> ParseUint64(products[i]).Some?
    requires forall i :: 0 <= i < 2 ==> Atoi(quantities[i]).Some? && Atoi(quantities[i]).value > 0
    requires forall i :: 0 <= i < 2 ==> ParseFloat(prices[i]).Some? && !AtMost(ParseFloat(prices[i]).value, 0.0)
    requires d != "" && ParseFloat(d).Some? && !Below(ParseFloat(d).value, 0.0) && !Above(ParseFloat(d).value, 100.0)
    ensures var h := SaleHeader(1, 0, products, quantities, prices, [d]);
            CheckedLines(h, 2, ParseFloat).Success?
            && CheckedLines(h, 2, ParseFloat).value[0].discount == ParseFloat(d).value
            && CheckedLines(h, 2, ParseFloat).value[1].discount == Finite(0.0)
  {
    var h := SaleHeader(1, 0, products, quantities, prices, [d]);
    assert ParseUint64(products[0]).Some? && Atoi(quantities[0]).Some? && ParseFloat(prices[0]).Some?;
    var l0 := LineAt(h, 0, ParseFloat);
    assert l0.Success? && l0.value.discount == ParseFloat(d).value;
    assert ParseUint64(products[1]).Some? && Atoi(quantities[1]).Some? && ParseFloat(prices[1]).Some?;
    var l1 := LineAt(h, 1, ParseFloat);
    assert l1.Success? && l1.value.discount == Finite(0.0);
    assert CheckedLines(h, 0, ParseFloat) == Success([]);
    assert CheckedLines(h, 1, ParseFloat) == Success([] + [l0.value]);
    assert [] + [l0.value] == [l0.value];
    assert CheckedLines(h, 2, ParseFloat) == Success([l0.value] + [l1.value]);
  }

  /** The blank first field of `",d"` is dropped. */
  lemma LeadingBlankDropped(d: string)
    requires Clean(d)
    ensures ParseList("," + d) == [d]
  {
    SplitLeadingComma(d);
    TrimOfTrimmed(d, IsGoSpace);
    BlankThenKept(d, GoTrimSpace);
  }

  /** Splitting `",d"` gives a blank piece and then `d`. */
  lemma SplitLeadingComma(d: string)
    requires forall k :: 0 <= k < |d| ==> d[k] != ','
    ensures SplitOn("," + d, ',') == ["", d]
  {
    SplitAfterSeparator(d, ',');
  }

  lemma SplitAfterSeparator(w: string, c: char)
    requires forall k :: 0 <= k < |w| ==> w[k] != c
    ensures SplitOn([c] + w, c) == ["", w]
  {
    var e: string := [];
    SplitOnAppend(e, w, c);
    assert e + [c] + w == [c] + w;
  }

  /** A blank piece followed by a piece the trimming keeps as it is. */
  lemma BlankThenKept(d: string, trim: string -> string)
    requires trim("") == "" && d != "" && trim(d) == d
    ensures KeptBy(["", d], trim) == [d]
  {
    assert ["", d][..1] == [""];
    assert [""][..0] == [];
  }

  /** The header check as intended: a sale needs at least one product, and discount fields stay in place. */
  function CheckHeaderIntended(f: SaleForm): (r: Result<SaleHeader, SaleError>)
    ensures r.Success? ==> SameLengths(r.value) && |r.value.products| >= 1
    ensures r.Success? ==> r.value.discounts == DiscountFields(f.discountPercentages)
  {
    match CheckHeader(f)
    case Failure(e) => Failure(e)
    case Success(h) =>
      if |h.products| == 0 then Failure(NoProducts)
      else Success(h.(discounts := DiscountFields(f.discountPercentages)))
  }

  /**
   * The price and discount checks compare with `<=`, `<` and `>`, which are all
   * false for NaN, and +Inf is above 0: with Go's readings of "NaN" and "Inf",
   * a NaN price, an infinite price and a NaN discount all pass.
   */
  lemma NonFiniteValuesAccepted(ParseFloat: string -> Option<Float>)
    requires ParseFloat("1") == Some(Finite(1.0)) && ParseFloat("NaN") == Some(NaN) && ParseFloat("Inf") == Some(PosInf)
    ensures CheckLine("1", "1", "NaN", [], 0, ParseFloat) == Success(SaleLine(1, 1, NaN, Finite(0.0)))
    ensures CheckLine("1", "1", "Inf", [], 0, ParseFloat) == Success(SaleLine(1, 1, PosInf, Finite(0.0)))
    ensures CheckLine("1", "1", "1", ["NaN"], 0, ParseFloat) == Success(SaleLine(1, 1, Finite(1.0), NaN))
  {
    OneDigit(1);
  }

  /** The float reading as intended: only finite values count as numbers. */
  function FiniteOnly(ParseFloat: string -> Option<Float>): (r: string -> Option<Float>)
    ensures forall s :: r(s).Some? ==> r(s).value.Finite? && ParseFloat(s) == r(s)
    ensures forall s :: ParseFloat(s).Some? && ParseFloat(s).value.Finite? ==> r(s) == ParseFloat(s)
  {
    s => if ParseFloat(s).Some? && ParseFloat(s).value.Finite? then ParseFloat(s) else None
  }

  /** The checks as intended: at least one product, discount fields in place, and finite prices and discounts. */
  function ValidateSaleIntended(f: SaleForm, ParseFloat: string -> Option<Float>): (r: Result<Sale, SaleError>)
    ensures CheckHeaderIntended(f).Failure? ==> r == Failure(CheckHeaderIntended(f).error)
    ensures r.Success? ==> CheckHeaderIntended(f).Success?
                           && |r.value.lines| == |CheckHeaderIntended(f).value.products| >= 1
  {
    match CheckHeaderIntended(f)
    case Failure(e) => Failure(e)
    case Success(h) =>
      match CheckedLines(h, |h.products|, FiniteOnly(ParseFloat))
      case Failure(e) => Failure(e)
      case Success(lines) => Success(Sale(h.employeeId, h.pointsUsed, lines))
  }

  /** With `",d"`, the intended parse keeps the blank first field, so `d` stays with the second line. */
  lemma IntendedKeepsBlank(d: string)
    requires Clean(d)
    ensures DiscountFields("," + d) == ["", d]
  {
    var pieces := SplitOn("," + d, ',');
    SplitLeadingComma(d);
    var e := "";
    TrimOfTrimmed(e, IsGoSpace);
    TrimOfTrimmed(d, IsGoSpace);
    assert DiscountFields("," + d) == [GoTrimSpace(pieces[0]), GoTrimSpace(pieces[1])];
  }

  /** Every accepted sale has at least one line. */
  lemma IntendedSaleHasLines(f: SaleForm, ParseFloat: string -> Option<Float>)
    ensures ValidateSaleIntended(f, ParseFloat).Success? ==> |ValidateSaleIntended(f, ParseFloat).value.lines| >= 1
  {
  }

  /** The discount of line `k` comes from the `k`-th comma field; a blank field means no discount. */
  lemma IntendedDiscountPositional(f: SaleForm, ParseFloat: string -> Option<Float>, k: int)
    requires ValidateSaleIntended(f, ParseFloat).Success?
    requires 0 <= k < |ValidateSaleIntended(f, ParseFloat).value.lines|
    ensures var d := DiscountFields(f.discountPercentages);
            var line := ValidateSaleIntended(f, ParseFloat).value.lines[k];
            (k < |d| && d[k] != "" ==> ParseFloat(d[k]) == Some(line.discount))
            && (k >= |d| || d[k] == "" ==> line.discount == Finite(0.0))
  {
    var h := CheckHeaderIntended(f).value;
    var pf := FiniteOnly(ParseFloat);
    CheckedLinesAll(h, |h.products|, pf);
    var line := ValidateSaleIntended(f, ParseFloat).value.lines[k];
    assert LineAt(h, k, pf) == Success(line);
    assert h.discounts == DiscountFields(f.discountPercentages);
  }

  /** Every line of an intended-accepted sale has a finite positive price and a finite discount in [0, 100]. */
  lemma IntendedLinesFinite(f: SaleForm, ParseFloat: string -> Option<Float>, k: int)
    requires ValidateSaleIntended(f, ParseFloat).Success?
    requires 0 <= k < |ValidateSaleIntended(f, ParseFloat).value.lines|
    ensures var line := ValidateSaleIntended(f, ParseFloat).value.lines[k];
            line.quantity > 0 && line.unitPrice.Finite? && line.unitPrice.value > 0.0
            && line.discount.Finite? && 0.0 <= line.discount.value <= 100.0
  {
    var h := CheckHeaderIntended(f).value;
    var pf := FiniteOnly(ParseFloat);
    CheckedLinesAll(h, |h.products|, pf);
    assert LineAt(h, k, pf) == Success(ValidateSaleIntended(f, ParseFloat).value.lines[k]);
  }
}

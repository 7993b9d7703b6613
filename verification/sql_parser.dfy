/**
 * The SQL schema parser of DBML/sql_parser.py: CREATE TABLE bodies become
 * `Table` records, foreign keys are copied back onto their columns, and
 * CREATE INDEX column lists are attached to known tables.  The parser's
 * dictionary of tables is a sequence with unique names, kept in insertion
 * order as a Python `dict` is.
 */
module SqlParser {
  import opened Wrappers
  import opened Text
  import opened Schema
  import opened SqlLexer

  // =====================================================================
  // Splitting a table body at top-level commas (sql_parser.py:172-195)

  /** The running parenthesis level after reading `t`: one up per `(`, one down per `)`. */
  function Depth(t: string): int {
    if |t| == 0 then 0
    else
      var c := t[|t| - 1];
      Depth(t[..|t| - 1]) + (if c == '(' then 1 else if c == ')' then -1 else 0)
  }

  /** The number of commas read at parenthesis level 0. */
  function TopCount(s: string): nat {
    if |s| == 0 then 0
    else
      var t := s[..|s| - 1];
      TopCount(t) + (if s[|s| - 1] == ',' && Depth(t) == 0 then 1 else 0)
  }

  /**
   * The text between top-level commas, before stripping: the values
   * `current_part` takes, the last one still being built.
   */
  function Pieces(s: string): (r: seq<string>)
    ensures |r| >= 1
  {
    if |s| == 0 then [""]
    else
      var t := s[..|s| - 1];
      var p := Pieces(t);
      var c := s[|s| - 1];
      if c == ',' && Depth(t) == 0 then p + [""]
      else p[..|p| - 1] + [p[|p| - 1] + [c]]
  }

  /** The pieces joined with commas give the text back: splitting loses only the separators. */
  lemma {:induction false} PiecesJoin(s: string)
    ensures Join(Pieces(s), ",") == s
  {
    if |s| > 0 {
      var t := s[..|s| - 1];
      var c := s[|s| - 1];
      PiecesJoin(t);
      assert s == t + [c];
      if c == ',' && Depth(t) == 0 {
        JoinAppendPart(Pieces(t), "", ",");
      } else {
        JoinExtendLast(Pieces(t), [c], ",");
      }
    }
  }

  /** There is one piece more than there are commas at level 0. */
  lemma {:induction false} PiecesCount(s: string)
    ensures |Pieces(s)| == TopCount(s) + 1
  {
    if |s| > 0 {
      PiecesCount(s[..|s| - 1]);
    }
  }

  /** Without a comma at level 0 (as in `a NUMERIC(10,2)`) the whole text is one piece. */
  lemma {:induction false} NoTopCommaOnePiece(s: string)
    requires TopCount(s) == 0
    ensures Pieces(s) == [s]
  {
    if |s| > 0 {
      var t := s[..|s| - 1];
      var c := s[|s| - 1];
      assert s == t + [c];
      assert TopCount(t) == 0 && !(c == ',' && Depth(t) == 0);
      NoTopCommaOnePiece(t);
      PiecesSnoc(t, c);
      assert [t][..0] + [t + [c]] == [s];
    }
  }

  function Last<T>(xs: seq<T>): T
    requires |xs| > 0
  {
    xs[|xs| - 1]
  }

  function AllButLast<T>(xs: seq<T>): seq<T>
    requires |xs| > 0
  {
    xs[..|xs| - 1]
  }

  /** Strip every piece and drop the ones left empty, keeping the order. */
  function Clean(ps: seq<string>): (r: seq<string>)
    ensures |r| <= |ps|
    ensures forall k :: 0 <= k < |r| ==> r[k] != "" && IsTrimmedBy(r[k], IsPySpace)
  {
    if |ps| == 0 then []
    else
      var p := PyStrip(ps[|ps| - 1]);
      Clean(ps[..|ps| - 1]) + (if p != "" then [p] else [])
  }

  /** Reading one more character. */
  lemma PiecesSnoc(s: string, c: char)
    ensures Depth(s + [c]) == Depth(s) + (if c == '(' then 1 else if c == ')' then -1 else 0)
    ensures Pieces(s + [c]) ==
      var p := Pieces(s);
      if c == ',' && Depth(s) == 0 then p + [""] else p[..|p| - 1] + [p[|p| - 1] + [c]]
  {
    assert (s + [c])[..|s|] == s;
  }

  lemma CleanSnoc(ps: seq<string>, x: string)
    ensures Clean(ps + [x]) == Clean(ps) + (if PyStrip(x) != "" then [PyStrip(x)] else [])
  {
    assert (ps + [x])[..|ps|] == ps;
  }

  /** The loop state of `_smart_split_columns` after reading `s`. */
  predicate SplitState(s: string, level: int, current: string, parts: seq<string>) {
    var p := Pieces(s);
    level == Depth(s) && current == Last(p) && parts == Clean(AllButLast(p))
  }

  /** One character read: a top-level comma closes the current part, anything else extends it. */
  lemma SplitStep(s: string, c: char, level: int, current: string, parts: seq<string>)
    requires SplitState(s, level, current, parts)
    ensures c == '(' ==> SplitState(s + [c], level + 1, current + [c], parts)
    ensures c == ')' ==> SplitState(s + [c], level - 1, current + [c], parts)
    ensures c == ',' && level == 0 ==>
      SplitState(s + [c], level, "", parts + (if PyStrip(current) != "" then [PyStrip(current)] else []))
    ensures c != '(' && c != ')' && !(c == ',' && level == 0) ==> SplitState(s + [c], level, current + [c], parts)
  {
    var p := Pieces(s);
    PiecesSnoc(s, c);
    assert AllButLast(p) + [current] == p;
    if c == ',' && level == 0 {
      CleanSnoc(AllButLast(p), current);
      assert AllButLast(p + [""]) == p;
    } else {
      assert AllButLast(AllButLast(p) + [current + [c]]) == AllButLast(p);
    }
  }

  /** After the last character the current part is added like the others. */
  lemma SplitFinish(s: string, current: string, parts: seq<string>)
    requires SplitState(s, Depth(s), current, parts)
    ensures parts + (if PyStrip(current) != "" then [PyStrip(current)] else []) == SmartSplit(s)
  {
    var p := Pieces(s);
    var init := AllButLast(p);
    assert init + [Last(p)] == p;
    CleanSnoc(init, current);
    assert SmartSplit(s) == Clean(init + [current]);
  }

  /** What `_smart_split_columns` returns. */
  function SmartSplit(s: string): (r: seq<string>)
    ensures |r| <= TopCount(s) + 1
    ensures forall k :: 0 <= k < |r| ==> r[k] != "" && IsTrimmedBy(r[k], IsPySpace)
  {
    PiecesCount(s);
    Clean(Pieces(s))
  }

  /** A single piece is kept, stripped, exactly when it is not blank. */
  lemma CleanOne(x: string)
    ensures Clean([x]) == (if PyStrip(x) != "" then [PyStrip(x)] else [])
  {
    CleanSnoc([], x);
    assert [] + [x] == [x];
  }

  /**
   * Cleaning works piece by piece: the kept pieces of `a` come first, then
   * those of `b`.  With `CleanOne` this pins `Clean` down completely: the
   * stripped non-blank pieces, in input order.
   */
  lemma {:induction false} CleanAppend(a: seq<string>, b: seq<string>)
    ensures Clean(a + b) == Clean(a) + Clean(b)
    decreases |b|
  {
    if |b| == 0 {
      assert a + b == a;
    } else {
      var b', x := b[..|b| - 1], b[|b| - 1];
      LastSplit(b);
      CleanAppend(a, b');
      AppendAssoc(a, b', [x]);
      CleanSnoc(a + b', x);
      CleanSnoc(b', x);
      AppendAssoc(Clean(a), Clean(b'), if PyStrip(x) != "" then [PyStrip(x)] else []);
    }
  }

  /** Nothing is kept exactly when every piece is blank. */
  lemma {:induction false} CleanEmpty(ps: seq<string>)
    ensures Clean(ps) == [] <==> forall k :: 0 <= k < |ps| ==> PyStrip(ps[k]) == ""
  {
    if |ps| > 0 {
      var init, x := ps[..|ps| - 1], ps[|ps| - 1];
      LastSplit(ps);
      CleanSnoc(init, x);
      CleanEmpty(init);
      assert forall k :: 0 <= k < |init| ==> init[k] == ps[k];
    }
  }

  /** The parenthesis level is additive over concatenation. */
  lemma {:induction false} DepthAppend(x: string, y: string)
    ensures Depth(x + y) == Depth(x) + Depth(y)
    decreases |y|
  {
    if |y| == 0 {
      assert x + y == x;
    } else {
      var y', c := y[..|y| - 1], y[|y| - 1];
      LastSplit(y);
      AppendAssoc(x, y', [c]);
      assert (x + y)[..|x + y| - 1] == x + y';
      DepthAppend(x, y');
    }
  }

  /** After a comma at level 0 the pieces start afresh. */
  lemma {:induction false} PiecesAfterComma(a: string, y: string)
    requires Depth(a) == 0
    ensures Pieces(a + "," + y) == Pieces(a) + Pieces(y)
    decreases |y|
  {
    PiecesSnoc(a, ',');
    if |y| == 0 {
      assert a + "," + y == a + ",";
    } else {
      var y', c := y[..|y| - 1], y[|y| - 1];
      var z := a + "," + y';
      LastSplit(y);
      assert a + "," + y == z + [c];
      PiecesAfterComma(a, y');
      DepthAppend(a + ",", y');
      assert Depth(a + ",") == 0;
      PiecesSnoc(z, c);
      PiecesSnoc(y', c);
      var pa, py := Pieces(a), Pieces(y');
      assert Pieces(z) == pa + py;
      assert Depth(z) == Depth(y');
      if c == ',' && Depth(y') == 0 {
        assert Pieces(z + [c]) == (pa + py) + [""];
        assert Pieces(y) == py + [""];
        AppendAssoc(pa, py, [""]);
      } else {
        var pq := pa + py;
        assert Pieces(z + [c]) == pq[..|pq| - 1] + [pq[|pq| - 1] + [c]];
        assert Pieces(y) == py[..|py| - 1] + [py[|py| - 1] + [c]];
        PiecesExtend(pa, py, c);
      }
    }
  }

  /** Extending the last piece of `p + q` extends the last piece of `q`. */
  lemma PiecesExtend(p: seq<string>, q: seq<string>, c: char)
    requires |q| >= 1
    ensures var pq := p + q;
      pq[..|pq| - 1] + [pq[|pq| - 1] + [c]] == p + (q[..|q| - 1] + [q[|q| - 1] + [c]])
  {
    var pq := p + q;
    assert pq[..|pq| - 1] == p + q[..|q| - 1];
  }

  /** Text without a comma at level 0 gives its stripped self, unless it is blank. */
  lemma SmartSplitWhole(s: string)
    requires TopCount(s) == 0
    ensures SmartSplit(s) == (if PyStrip(s) != "" then [PyStrip(s)] else [])
  {
    NoTopCommaOnePiece(s);
    CleanOne(s);
  }

  /**
   * A comma at level 0 separates parts: splitting `a,b` gives the parts of
   * `a` followed by the parts of `b`.  With `SmartSplitWhole` (take `a` up
   * to the first such comma) this determines `SmartSplit` on every input.
   */
  lemma SmartSplitAtComma(a: string, b: string)
    requires Depth(a) == 0
    ensures SmartSplit(a + "," + b) == SmartSplit(a) + SmartSplit(b)
  {
    PiecesAfterComma(a, b);
    CleanAppend(Pieces(a), Pieces(b));
  }

  // =====================================================================
  // One column fragment (sql_parser.py:197-236)

  /** The text `re.search(r'CHECK\s*\([^)]+\)', ...)` finds, from the first position. */
  predicate IsCheckText(x: string) {
    |x| > 0 && KeywordAt(x, 0, "CHECK") && x[|x| - 1] == ')' && forall k :: 0 <= k < |x| - 1 ==> x[k] != ')'
  }

  /**
   * The `constraints` list of a column: `UNIQUE` when the upper-cased fragment
   * contains it, then the first `CHECK(...)` text when there is one.
   */
  function ColumnConstraints(line: string): (r: seq<string>)
    ensures |r| <= 2
    ensures Contains(Upper(line), "UNIQUE") <==> |r| > 0 && r[0] == "UNIQUE"
    ensures forall k :: 0 <= k < |r| && r[k] != "UNIQUE" ==> k == |r| - 1 && IsCheckText(r[k])
    ensures (forall k :: 0 <= k < |r| ==> r[k] == "UNIQUE") ==> forall q :: 0 <= q <= |line| ==> MatchCheckAt(line, q).None?
    ensures |r| > 0 && r[|r| - 1] != "UNIQUE" ==>
              exists q :: 0 <= q <= |line| && MatchCheckAt(line, q) == Some(r[|r| - 1])
                && forall k :: 0 <= k < q ==> MatchCheckAt(line, k).None?
  {
    var unique := if Contains(Upper(line), "UNIQUE") then ["UNIQUE"] else [];
    var check := SearchCheck(line, 0);
    if check.Some? then
      assert check.value != "UNIQUE" by {
        assert UpperChar(check.value[0]) == "CHECK"[0] == 'C';
        assert UpperChar("UNIQUE"[0]) == 'U';
      }
      assert IsCheckText(check.value);
      var r := unique + [check.value];
      assert r[|r| - 1] == check.value;
      r
    else unique
  }

  /** `_parse_column_definition`: `None` unless the fragment starts with a name and a type. */
  function ParseColumnDefinition(line: string): (r: Option<Column>)
    ensures r.Some? <==> StartsWithNameAndType(line)
    ensures r.Some? ==> IsWord(r.value.name) && r.value.name == line[..WordEnd(line, 0)]
    ensures r.Some? ==> IsTypeToken(r.value.dataType) && MatchAt(line, SkipSpace(line, |r.value.name|), r.value.dataType)
    ensures r.Some? ==> var j := SkipSpace(line, |r.value.name|);
      j < |line| && r.value.dataType == line[j..TypeTokenEnd(line, j)]
    ensures r.Some? ==> IsUnannotated(r.value)
    ensures r.Some? ==> (r.value.isPrimaryKey <==> Contains(Upper(line), "PRIMARY KEY"))
    ensures r.Some? ==> (r.value.isNotNull <==> Contains(Upper(line), "NOT NULL"))
    ensures r.Some? && r.value.defaultValue.Some? ==>
      var v := r.value.defaultValue.value;
      |v| > 0 && forall k :: 0 <= k < |v| ==> v[k] != ',' && !IsPySpace(v[k])
    ensures r.Some? && r.value.defaultValue.Some? ==>
              exists q :: 0 <= q <= |line| && MatchDefaultAt(line, q) == r.value.defaultValue
                && forall k :: 0 <= k < q ==> MatchDefaultAt(line, k).None?
    ensures r.Some? && r.value.defaultValue.None? ==> forall q :: 0 <= q <= |line| ==> MatchDefaultAt(line, q).None?
    ensures r.Some? ==> r.value.constraints == ColumnConstraints(line)
  {
    match MatchColumnHead(line)
    case None => None
    case Some(head) =>
      var up := Upper(line);
      Some(Column(head.name, head.dataType, Contains(up, "PRIMARY KEY"), false, Contains(up, "NOT NULL"),
                  SearchDefault(line, 0), ColumnConstraints(line), None, None))
  }

  // =====================================================================
  // A table body (sql_parser.py:105-170)

  /** The foreign key a CONSTRAINT clause declares, searched in its stripped definition. */
  function ClauseForeignKey(m: ConstraintMatch): (r: Option<ForeignKey>)
    ensures r.Some? ==> r.value.constraintName == m.name
    ensures r.Some? ==> IsWord(r.value.column) && IsWord(r.value.referencesTable) && IsWord(r.value.referencesColumn)
    ensures r.Some? ==> var d := PyStrip(m.definition);
      exists q :: 0 <= q <= |d|
        && MatchForeignKeyAt(d, q) == Some(ForeignKeyParts(r.value.column, r.value.referencesTable, r.value.referencesColumn))
        && forall k :: 0 <= k < q ==> MatchForeignKeyAt(d, k).None?
    ensures r.None? ==> var d := PyStrip(m.definition); forall q :: 0 <= q <= |d| ==> MatchForeignKeyAt(d, q).None?
  {
    match SearchForeignKey(PyStrip(m.definition), 0)
    case None => None
    case Some(p) => Some(ForeignKey(p.column, p.referencesTable, p.referencesColumn, m.name))
  }

  /** How a clause that is not a foreign key is kept in `table.constraints`. */
  function ClauseText(m: ConstraintMatch): string {
    "CONSTRAINT " + m.name + " " + PyStrip(m.definition)
  }

  function ForeignKeysOf(clauses: seq<ConstraintMatch>): (r: seq<ForeignKey>)
    ensures |r| <= |clauses|
  {
    Collected(clauses, ClauseForeignKey)
  }

  function ConstraintTextsOf(clauses: seq<ConstraintMatch>): (r: seq<string>)
    ensures |r| <= |clauses|
  {
    Rejected(clauses, ClauseForeignKey, ClauseText)
  }

  /** Every CONSTRAINT clause ends up in exactly one of the two lists. */
  lemma ClausesAccounted(clauses: seq<ConstraintMatch>)
    ensures |ForeignKeysOf(clauses)| + |ConstraintTextsOf(clauses)| == |clauses|
  {
    CollectedRejected(clauses, ClauseForeignKey, ClauseText);
  }

  /** Each foreign key comes from a clause that declares it, in clause order. */
  lemma ForeignKeysOrigin(clauses: seq<ConstraintMatch>, k: nat)
    requires k < |ForeignKeysOf(clauses)|
    ensures exists j :: 0 <= j < |clauses| && ClauseForeignKey(clauses[j]) == Some(ForeignKeysOf(clauses)[k])
  {
    CollectedOrigin(clauses, ClauseForeignKey, k);
  }

  /** Each kept constraint text comes from a clause that declares no foreign key. */
  lemma ConstraintTextsOrigin(clauses: seq<ConstraintMatch>, k: nat)
    requires k < |ConstraintTextsOf(clauses)|
    ensures exists j :: 0 <= j < |clauses| && ClauseForeignKey(clauses[j]).None? && ClauseText(clauses[j]) == ConstraintTextsOf(clauses)[k]
  {
    RejectedOrigin(clauses, ClauseForeignKey, ClauseText, k);
  }

  /** A fragment the column loop skips: empty once stripped, or starting with CONSTRAINT. */
  predicate IsSkipped(part: string) {
    var p := PyStrip(part);
    p == "" || KeywordAt(p, 0, "CONSTRAINT")
  }

  /** The column a fragment yields, if the loop keeps it. */
  function ColumnOfPart(part: string): (r: Option<Column>)
    ensures r.Some? ==> IsUnannotated(r.value) && IsWord(r.value.name)
  {
    if IsSkipped(part) then None else ParseColumnDefinition(PyStrip(part))
  }

  /**
   * The values `f` yields for the fragments, in fragment order, skipping the
   * fragments it rejects.  The per-fragment function is a parameter so that
   * reasoning about the list does not unfold the column parser.
   */
  function Collected<S, T>(parts: seq<S>, f: S -> Option<T>): (r: seq<T>)
    ensures |r| <= |parts|
  {
    if |parts| == 0 then []
    else
      var init := Collected(parts[..|parts| - 1], f);
      match f(parts[|parts| - 1])
      case Some(c) => init + [c]
      case None => init
  }

  /** Every collected value was yielded by some fragment. */
  lemma {:induction false} CollectedOrigin<S, T>(parts: seq<S>, f: S -> Option<T>, k: nat)
    requires k < |Collected(parts, f)|
    ensures exists j :: 0 <= j < |parts| && f(parts[j]) == Some(Collected(parts, f)[k])
  {
    var init := parts[..|parts| - 1];
    var prev := Collected(init, f);
    if k < |prev| {
      CollectedOrigin(init, f, k);
      var j :| 0 <= j < |init| && f(init[j]) == Some(prev[k]);
      assert parts[j] == init[j];
    }
  }

  /** A property every yielded value has holds of every collected value. */
  lemma {:induction false} CollectedAll<S, T>(parts: seq<S>, f: S -> Option<T>, P: T -> bool)
    requires forall k :: 0 <= k < |parts| && f(parts[k]).Some? ==> P(f(parts[k]).value)
    ensures forall k :: 0 <= k < |Collected(parts, f)| ==> P(Collected(parts, f)[k])
  {
    if |parts| > 0 {
      var init := parts[..|parts| - 1];
      assert forall k :: 0 <= k < |init| ==> init[k] == parts[k];
      CollectedAll(init, f, P);
    }
  }

  /** The items `f` rejects, each turned into `other` of it, in order. */
  function Rejected<S, T, U>(parts: seq<S>, f: S -> Option<T>, other: S -> U): (r: seq<U>)
    ensures |r| <= |parts|
  {
    if |parts| == 0 then []
    else
      var init := Rejected(parts[..|parts| - 1], f, other);
      if f(parts[|parts| - 1]).None? then init + [other(parts[|parts| - 1])] else init
  }

  /** Every item is either collected or rejected, never both. */
  lemma {:induction false} CollectedRejected<S, T, U>(parts: seq<S>, f: S -> Option<T>, other: S -> U)
    ensures |Collected(parts, f)| + |Rejected(parts, f, other)| == |parts|
  {
    if |parts| > 0 {
      CollectedRejected(parts[..|parts| - 1], f, other);
    }
  }

  /** Every rejected value comes from an item `f` rejects. */
  lemma {:induction false} RejectedOrigin<S, T, U>(parts: seq<S>, f: S -> Option<T>, other: S -> U, k: nat)
    requires k < |Rejected(parts, f, other)|
    ensures exists j :: 0 <= j < |parts| && f(parts[j]).None? && other(parts[j]) == Rejected(parts, f, other)[k]
  {
    var init := parts[..|parts| - 1];
    var prev := Rejected(init, f, other);
    if k < |prev| {
      RejectedOrigin(init, f, other, k);
      var j :| 0 <= j < |init| && f(init[j]).None? && other(init[j]) == prev[k];
      assert parts[j] == init[j];
    }
  }

  /** One more item, collected or rejected. */
  lemma SortedStep<S, T, U>(parts: seq<S>, x: S, f: S -> Option<T>, other: S -> U)
    ensures Collected(parts + [x], f) == Collected(parts, f) + (match f(x) case Some(v) => [v] case None => [])
    ensures Rejected(parts + [x], f, other) == Rejected(parts, f, other) + (if f(x).None? then [other(x)] else [])
  {
    assert (parts + [x])[..|parts|] == parts;
  }

  /**
   * One pass over `parts` that appends what `f` yields to one list and
   * `other` of every item it rejects to the other.
   */
  method Partition<S, T, U>(parts: seq<S>, f: S -> Option<T>, other: S -> U) returns (found: seq<T>, rest: seq<U>)
    ensures found == Collected(parts, f)
    ensures rest == Rejected(parts, f, other)
  {
    found, rest := [], [];
    for k := 0 to |parts|
      invariant found == Collected(parts[..k], f)
      invariant rest == Rejected(parts[..k], f, other)
    {
      PrefixSnoc(parts, k);
      SortedStep(parts[..k], parts[k], f, other);
      match f(parts[k])
      case Some(v) =>
        found := found + [v];
      case None =>
        rest := rest + [other(parts[k])];
    }
    PrefixAll(parts);
  }

  /** The columns built from the fragments, in fragment order. */
  function ColumnsOf(parts: seq<string>): (r: seq<Column>)
    ensures |r| <= |parts|
    ensures forall k :: 0 <= k < |r| ==> IsUnannotated(r[k])
  {
    CollectedAll(parts, ColumnOfPart, IsUnannotated);
    Collected(parts, ColumnOfPart)
  }

  /** Every column comes from a fragment that was neither empty nor a CONSTRAINT clause. */
  lemma ColumnsOrigin(parts: seq<string>, k: nat)
    requires k < |ColumnsOf(parts)|
    ensures exists j :: 0 <= j < |parts| && ColumnOfPart(parts[j]) == Some(ColumnsOf(parts)[k])
  {
    CollectedOrigin(parts, ColumnOfPart, k);
  }

  /** `primary_keys`: the names of the primary-key columns, in column order. */
  function PrimaryKeysOf(cols: seq<Column>): (r: seq<string>)
    ensures |r| <= |cols|
  {
    if |cols| == 0 then []
    else
      var c := cols[|cols| - 1];
      PrimaryKeysOf(cols[..|cols| - 1]) + (if c.isPrimaryKey then [c.name] else [])
  }

  /** Every primary-key column's name is listed, and only those names are. */
  lemma {:induction false} PrimaryKeysExactly(cols: seq<Column>, n: string)
    ensures n in PrimaryKeysOf(cols) <==> exists j :: 0 <= j < |cols| && cols[j].isPrimaryKey && cols[j].name == n
  {
    if |cols| > 0 {
      var init := cols[..|cols| - 1];
      PrimaryKeysExactly(init, n);
      if exists j :: 0 <= j < |init| && init[j].isPrimaryKey && init[j].name == n {
        var j :| 0 <= j < |init| && init[j].isPrimaryKey && init[j].name == n;
        assert cols[j] == init[j];
      }
      if exists j :: 0 <= j < |cols| && cols[j].isPrimaryKey && cols[j].name == n {
        var j :| 0 <= j < |cols| && cols[j].isPrimaryKey && cols[j].name == n;
        if j < |init| {
          assert init[j] == cols[j];
        }
      }
    }
  }

  /** Taking the key names of two column lists one after the other keeps both in order. */
  lemma {:induction false} PrimaryKeysOfConcat(a: seq<Column>, b: seq<Column>)
    ensures PrimaryKeysOf(a + b) == PrimaryKeysOf(a) + PrimaryKeysOf(b)
    decreases |b|
  {
    if |b| == 0 {
      assert a + b == a;
    } else {
      var b', x := b[..|b| - 1], b[|b| - 1];
      LastSplit(b);
      PrimaryKeysOfConcat(a, b');
      AppendAssoc(a, b', [x]);
      PrimaryKeyStep(a + b', x);
      PrimaryKeyStep(b', x);
      AppendAssoc(PrimaryKeysOf(a), PrimaryKeysOf(b'), if x.isPrimaryKey then [x.name] else []);
    }
  }

  /** One more fragment read by the column loop. */
  lemma ColumnStep(parts: seq<string>, part: string)
    ensures ColumnsOf(parts + [part]) == ColumnsOf(parts) + (match ColumnOfPart(part) case Some(c) => [c] case None => [])
  {
    CollectedStep(parts, part, ColumnOfPart);
  }

  lemma CollectedStep<S, T>(parts: seq<S>, x: S, f: S -> Option<T>)
    ensures Collected(parts + [x], f) == Collected(parts, f) + (match f(x) case Some(c) => [c] case None => [])
  {
    assert (parts + [x])[..|parts|] == parts;
  }

  lemma PrimaryKeyStep(cols: seq<Column>, c: Column)
    ensures PrimaryKeysOf(cols + [c]) == PrimaryKeysOf(cols) + (if c.isPrimaryKey then [c.name] else [])
  {
    assert (cols + [c])[..|cols|] == cols;
  }

  /** The table `_parse_table_definition` builds from a CREATE TABLE body. */
  function TableOf(name: string, definition: string): (t: Table)
    ensures t.name == name && t.indexes == []
    ensures |t.foreignKeys| + |t.constraints| == |ScanConstraints(NormalizeBody(definition), 0).clauses|
    ensures forall k :: 0 <= k < |t.columns| ==> IsUnannotated(t.columns[k])
  {
    var scan := ScanConstraints(NormalizeBody(definition), 0);
    var cols := ColumnsOf(SmartSplit(scan.rest));
    ClausesAccounted(scan.clauses);
    Table(name, cols, PrimaryKeysOf(cols), ForeignKeysOf(scan.clauses), [], ConstraintTextsOf(scan.clauses))
  }

  // =====================================================================
  // Foreign-key back-fill (sql_parser.py:238-249)

  /** The index of the first column at or after `i` called `name`. */
  function FirstNamedFrom(cols: seq<Column>, name: string, i: nat): (r: Option<nat>)
    requires i <= |cols|
    ensures r.Some? ==> i <= r.value < |cols| && cols[r.value].name == name
    ensures r.Some? ==> forall k :: i <= k < r.value ==> cols[k].name != name
    ensures r.None? ==> forall k :: i <= k < |cols| ==> cols[k].name != name
    decreases |cols| - i
  {
    if i == |cols| then None
    else if cols[i].name == name then Some(i)
    else FirstNamedFrom(cols, name, i + 1)
  }

  function FirstNamed(cols: seq<Column>, name: string): Option<nat> {
    FirstNamedFrom(cols, name, 0)
  }

  /** Two column lists with the same names find the same first column for every name. */
  lemma {:induction false} FirstNamedSameNames(a: seq<Column>, b: seq<Column>, name: string, i: nat)
    requires |a| == |b| && i <= |a|
    requires forall k :: 0 <= k < |a| ==> a[k].name == b[k].name
    ensures FirstNamedFrom(a, name, i) == FirstNamedFrom(b, name, i)
    decreases |a| - i
  {
    if i < |a| && a[i].name != name {
      FirstNamedSameNames(a, b, name, i + 1);
    }
  }

  /** The column with its foreign-key fields set from `fk`. */
  function Annotate(c: Column, fk: ForeignKey): Column {
    c.(isForeignKey := true, referencesTable := Some(fk.referencesTable), referencesColumn := Some(fk.referencesColumn))
  }

  /** `a` and `b` differ at most in the three foreign-key fields. */
  predicate SameBesidesReference(a: Column, b: Column) {
    a.name == b.name && a.dataType == b.dataType && a.isPrimaryKey == b.isPrimaryKey
    && a.isNotNull == b.isNotNull && a.defaultValue == b.defaultValue && a.constraints == b.constraints
  }

  /** One foreign key: annotate the first column with its name, if there is one. */
  function ApplyForeignKey(cols: seq<Column>, fk: ForeignKey): (r: seq<Column>)
    ensures |r| == |cols|
    ensures FirstNamed(cols, fk.column).None? ==> r == cols
    ensures forall k :: 0 <= k < |cols| && Some(k) != FirstNamed(cols, fk.column) ==> r[k] == cols[k]
    ensures forall k :: 0 <= k < |cols| && Some(k) == FirstNamed(cols, fk.column) ==> r[k] == Annotate(cols[k], fk)
  {
    match FirstNamed(cols, fk.column)
    case None => cols
    case Some(i) => cols[i := Annotate(cols[i], fk)]
  }

  /** The foreign keys applied in declaration order. */
  function ApplyForeignKeys(cols: seq<Column>, fks: seq<ForeignKey>): (r: seq<Column>)
    ensures |r| == |cols|
    ensures forall k :: 0 <= k < |cols| ==> SameBesidesReference(r[k], cols[k])
  {
    if |fks| == 0 then cols
    else ApplyForeignKey(ApplyForeignKeys(cols, fks[..|fks| - 1]), fks[|fks| - 1])
  }

  lemma ApplyForeignKeysStep(cols: seq<Column>, fks: seq<ForeignKey>, fk: ForeignKey)
    ensures ApplyForeignKeys(cols, fks + [fk]) == ApplyForeignKey(ApplyForeignKeys(cols, fks), fk)
  {
    assert (fks + [fk])[..|fks|] == fks;
  }

  /** The last foreign key (by position in `fks`) whose column name first names column `i`. */
  function LastForeignKeyFor(cols: seq<Column>, fks: seq<ForeignKey>, i: nat): (r: Option<nat>)
    ensures r.Some? ==> r.value < |fks| && FirstNamed(cols, fks[r.value].column) == Some(i)
    ensures r.Some? ==> forall k :: r.value < k < |fks| ==> FirstNamed(cols, fks[k].column) != Some(i)
    ensures r.None? ==> forall k :: 0 <= k < |fks| ==> FirstNamed(cols, fks[k].column) != Some(i)
  {
    if |fks| == 0 then None
    else if FirstNamed(cols, fks[|fks| - 1].column) == Some(i) then Some(|fks| - 1)
    else LastForeignKeyFor(cols, fks[..|fks| - 1], i)
  }

  /**
   * Column by column: a column is annotated by the last foreign key that
   * picks it as the first column of that name, and is otherwise left as it was.
   */
  lemma {:induction false} ApplyForeignKeysPerColumn(cols: seq<Column>, fks: seq<ForeignKey>, i: nat)
    requires i < |cols|
    ensures ApplyForeignKeys(cols, fks)[i] ==
      match LastForeignKeyFor(cols, fks, i)
      case None => cols[i]
      case Some(k) => Annotate(cols[i], fks[k])
  {
    if |fks| > 0 {
      var init := fks[..|fks| - 1];
      var fk := fks[|fks| - 1];
      var mid := ApplyForeignKeys(cols, init);
      ApplyForeignKeysPerColumn(cols, init, i);
      FirstNamedSameNames(mid, cols, fk.column, 0);
      if FirstNamed(cols, fk.column) != Some(i) {
        assert LastForeignKeyFor(cols, fks, i) == LastForeignKeyFor(cols, init, i);
        match LastForeignKeyFor(cols, init, i)
        case None =>
        case Some(k) => assert fks[k] == init[k];
      }
    }
  }

  /**
   * For a freshly parsed table, whose columns carry no reference yet, a column
   * ends up a foreign key exactly when some foreign key names it first.
   */
  lemma BackFillMarksExactly(cols: seq<Column>, fks: seq<ForeignKey>, i: nat)
    requires i < |cols| && IsUnannotated(cols[i])
    ensures ApplyForeignKeys(cols, fks)[i].isForeignKey <==>
      exists k :: 0 <= k < |fks| && FirstNamed(cols, fks[k].column) == Some(i)
  {
    ApplyForeignKeysPerColumn(cols, fks, i);
    match LastForeignKeyFor(cols, fks, i)
    case None =>
    case Some(k) =>
  }

  /** A foreign key whose column no column is called changes nothing. */
  lemma {:induction false} UnmatchedForeignKeyChangesNothing(cols: seq<Column>, fks: seq<ForeignKey>, fk: ForeignKey)
    requires forall k :: 0 <= k < |cols| ==> cols[k].name != fk.column
    ensures ApplyForeignKeys(cols, fks + [fk]) == ApplyForeignKeys(cols, fks)
  {
    var mid := ApplyForeignKeys(cols, fks);
    ApplyForeignKeysStep(cols, fks, fk);
    assert forall k :: 0 <= k < |mid| ==> mid[k].name != fk.column;
    assert FirstNamed(mid, fk.column).None?;
  }

  function BackFillTable(t: Table): (r: Table)
    ensures r == t.(columns := r.columns)
  {
    t.(columns := ApplyForeignKeys(t.columns, t.foreignKeys))
  }

  function BackFillAll(ts: seq<Table>): (r: seq<Table>)
    ensures |r| == |ts| && forall k :: 0 <= k < |ts| ==> r[k] == BackFillTable(ts[k])
  {
    seq(|ts|, k requires 0 <= k < |ts| => BackFillTable(ts[k]))
  }

  // =====================================================================
  // The dictionary of tables (sql_parser.py:60, 87, 251-266)

  /** Where the dictionary holds the key `name`. */
  function IndexOfName(ts: seq<Table>, name: string): (r: Option<nat>)
    ensures r.Some? ==> r.value < |ts| && ts[r.value].name == name
    ensures r.Some? ==> forall k :: 0 <= k < r.value ==> ts[k].name != name
    ensures r.None? ==> forall k :: 0 <= k < |ts| ==> ts[k].name != name
  {
    if |ts| == 0 then None
    else if ts[|ts| - 1].name == name then
      match IndexOfName(ts[..|ts| - 1], name)
      case Some(i) => Some(i)
      case None => Some(|ts| - 1)
    else IndexOfName(ts[..|ts| - 1], name)
  }

  /** `self.tables[t.name] = t`: an existing entry is replaced where it stands, a new one goes last. */
  function PutTable(ts: seq<Table>, t: Table): (r: seq<Table>)
    ensures DistinctNames(ts) ==> DistinctNames(r)
    ensures |ts| <= |r| <= |ts| + 1
    ensures forall k :: 0 <= k < |ts| && ts[k].name != t.name ==> r[k] == ts[k]
    ensures (exists k :: 0 <= k < |ts| && ts[k].name == t.name) ==>
      |r| == |ts| && forall k :: 0 <= k < |ts| && ts[k].name == t.name && DistinctNames(ts) ==> r[k] == t
    ensures (forall k :: 0 <= k < |ts| ==> ts[k].name != t.name) ==> r == ts + [t]
  {
    match IndexOfName(ts, t.name)
    case Some(i) => ts[i := t]
    case None => ts + [t]
  }

  /** The tables found in one text, each put into the dictionary in turn. */
  function PutAll(ts: seq<Table>, found: seq<CreateTable>): (r: seq<Table>)
    ensures DistinctNames(ts) ==> DistinctNames(r)
  {
    if |found| == 0 then ts
    else
      var c := found[|found| - 1];
      PutTable(PutAll(ts, found[..|found| - 1]), TableOf(c.name, c.body))
  }

  lemma PutAllStep(ts: seq<Table>, found: seq<CreateTable>, c: CreateTable)
    ensures PutAll(ts, found + [c]) == PutTable(PutAll(ts, found), TableOf(c.name, c.body))
  {
    assert (found + [c])[..|found|] == found;
  }

  /** `self.tables[m.table].indexes.append(...)` when the table is known. */
  function AttachIndex(ts: seq<Table>, m: IndexMatch): (r: seq<Table>)
    ensures |r| == |ts|
    ensures forall k :: 0 <= k < |ts| ==> r[k].name == ts[k].name
  {
    match IndexOfName(ts, m.table)
    case None => ts
    case Some(i) => ts[i := ts[i].(indexes := ts[i].indexes + [PyStrip(m.columns)])]
  }

  function AttachIndexes(ts: seq<Table>, ms: seq<IndexMatch>): (r: seq<Table>)
    ensures |r| == |ts|
    ensures forall k :: 0 <= k < |ts| ==> r[k].name == ts[k].name
  {
    if |ms| == 0 then ts
    else AttachIndex(AttachIndexes(ts, ms[..|ms| - 1]), ms[|ms| - 1])
  }

  lemma AttachIndexesStep(ts: seq<Table>, ms: seq<IndexMatch>, m: IndexMatch)
    ensures AttachIndexes(ts, ms + [m]) == AttachIndex(AttachIndexes(ts, ms), m)
  {
    assert (ms + [m])[..|ms|] == ms;
  }

  /** The stripped column lists of the indexes on table `name`, in source order. */
  function IndexesFor(ms: seq<IndexMatch>, name: string): (r: seq<string>)
    ensures |r| <= |ms|
  {
    if |ms| == 0 then []
    else IndexesFor(ms[..|ms| - 1], name) + (if ms[|ms| - 1].table == name then [PyStrip(ms[|ms| - 1].columns)] else [])
  }

  lemma {:induction false} IndexOfNameSameNames(a: seq<Table>, b: seq<Table>, name: string)
    requires |a| == |b|
    requires forall k :: 0 <= k < |a| ==> a[k].name == b[k].name
    ensures IndexOfName(a, name) == IndexOfName(b, name)
  {
    if |a| > 0 {
      IndexOfNameSameNames(a[..|a| - 1], b[..|b| - 1], name);
    }
  }

  /**
   * Each table gets exactly the indexes declared on its name, appended in
   * source order; indexes on unknown tables are dropped, and nothing else changes.
   */
  lemma {:induction false} AttachIndexesPerTable(ts: seq<Table>, ms: seq<IndexMatch>, i: nat)
    requires DistinctNames(ts) && i < |ts|
    ensures AttachIndexes(ts, ms)[i] == ts[i].(indexes := ts[i].indexes + IndexesFor(ms, ts[i].name))
  {
    if |ms| == 0 {
      assert ts[i].indexes + [] == ts[i].indexes;
    } else {
      var init := ms[..|ms| - 1];
      var m := ms[|ms| - 1];
      var mid := AttachIndexes(ts, init);
      AttachIndexesPerTable(ts, init, i);
      IndexOfNameSameNames(mid, ts, m.table);
      AttachIndexAt(mid, ts, m, i);
      assert init + [m] == ms;
      IndexesForStep(init, m, ts[i].name);
      AppendAssoc(ts[i].indexes, IndexesFor(init, ts[i].name), IndexAdded(m, ts[i].name));
    }
  }

  /** The column list `m` adds to table `name`: one entry when it is declared on that table. */
  function IndexAdded(m: IndexMatch, name: string): (r: seq<string>)
    ensures |r| <= 1
  {
    if m.table == name then [PyStrip(m.columns)] else []
  }

  lemma IndexesForStep(ms: seq<IndexMatch>, m: IndexMatch, name: string)
    ensures IndexesFor(ms + [m], name) == IndexesFor(ms, name) + IndexAdded(m, name)
  {
    assert (ms + [m])[..|ms|] == ms;
  }

  /** Attaching one index touches only the table of that name, when the names are distinct. */
  lemma AttachIndexAt(mid: seq<Table>, ts: seq<Table>, m: IndexMatch, i: nat)
    requires DistinctNames(ts) && i < |ts| == |mid|
    requires forall k :: 0 <= k < |ts| ==> mid[k].name == ts[k].name
    requires IndexOfName(mid, m.table) == IndexOfName(ts, m.table)
    ensures AttachIndex(mid, m)[i] == mid[i].(indexes := mid[i].indexes + IndexAdded(m, ts[i].name))
  {
    if ts[i].name == m.table {
      assert IndexOfName(ts, m.table) == Some(i);
    } else {
      assert mid[i].indexes + [] == mid[i].indexes;
    }
  }

  /** Everything `parse_sql_content` leaves in the dictionary, starting from `ts`. */
  function ParsedTables(ts: seq<Table>, content: string): (r: seq<Table>)
    ensures DistinctNames(ts) ==> DistinctNames(r)
  {
    var text := RemoveComments(content);
    var filled := BackFillAll(PutAll(ts, FindCreateTables(text, 0)));
    var r := AttachIndexes(filled, FindCreateIndexes(text, 0));
    assert forall i, j :: 0 <= i < j < |r| ==> r[i].name == filled[i].name && r[j].name == filled[j].name;
    r
  }

  // =====================================================================
  // Relationships (sql_parser.py:268-283)

  function RelationshipsOfTable(t: Table): (r: seq<Relationship>)
    ensures |r| == |t.foreignKeys|
    ensures forall k :: 0 <= k < |r| ==> r[k] == Relationship(t.name, t.foreignKeys[k].column,
      t.foreignKeys[k].referencesTable, t.foreignKeys[k].referencesColumn, t.foreignKeys[k].constraintName)
  {
    seq(|t.foreignKeys|, k requires 0 <= k < |t.foreignKeys| =>
      var fk := t.foreignKeys[k];
      Relationship(t.name, fk.column, fk.referencesTable, fk.referencesColumn, fk.constraintName))
  }

  function ForeignKeyCount(ts: seq<Table>): nat {
    if |ts| == 0 then 0 else ForeignKeyCount(ts[..|ts| - 1]) + |ts[|ts| - 1].foreignKeys|
  }

  /** `get_relationships`: one entry per foreign key, table by table. */
  function Relationships(ts: seq<Table>): (r: seq<Relationship>)
    ensures |r| == ForeignKeyCount(ts)
  {
    if |ts| == 0 then [] else Relationships(ts[..|ts| - 1]) + RelationshipsOfTable(ts[|ts| - 1])
  }

  /**
   * The entry for foreign key `k` of table `i` sits after the entries of all
   * earlier tables and the earlier keys of the same table.
   */
  lemma {:induction false} RelationshipAt(ts: seq<Table>, i: nat, k: nat)
    requires i < |ts| && k < |ts[i].foreignKeys|
    ensures ForeignKeyCount(ts[..i]) + k < |Relationships(ts)|
    ensures Relationships(ts)[ForeignKeyCount(ts[..i]) + k] == Relationship(ts[i].name, ts[i].foreignKeys[k].column,
      ts[i].foreignKeys[k].referencesTable, ts[i].foreignKeys[k].referencesColumn, ts[i].foreignKeys[k].constraintName)
  {
    var init := ts[..|ts| - 1];
    if i == |ts| - 1 {
      assert ts[..i] == init;
    } else {
      RelationshipAt(init, i, k);
      assert init[..i] == ts[..i];
      assert init[i] == ts[i];
      ForeignKeyCountPrefix(init, i);
    }
  }

  lemma {:induction false} ForeignKeyCountPrefix(ts: seq<Table>, i: nat)
    requires i < |ts|
    ensures ForeignKeyCount(ts[..i]) + |ts[i].foreignKeys| <= ForeignKeyCount(ts)
    decreases |ts|
  {
    var init := ts[..|ts| - 1];
    if i < |ts| - 1 {
      ForeignKeyCountPrefix(init, i);
      assert init[..i] == ts[..i];
    } else {
      assert ts[..i] == init;
    }
  }

  // =====================================================================
  // The parser object

  class SQLParser {
    /** `self.tables`, in dictionary order. */
    var tables: seq<Table>

    predicate Valid()
      reads this
    {
      DistinctNames(tables)
    }

    constructor()
      ensures tables == [] && Valid()
    {
      tables := [];
    }

    /**
     * `parse_sql_content`: comments are removed, every CREATE TABLE is parsed
     * into the dictionary, foreign keys are back-filled over ALL tables held,
     * and index column lists are attached.
     */
    method ParseSqlContent(content: string) returns (result: seq<Table>)
      requires Valid()
      modifies this
      ensures Valid()
      ensures tables == ParsedTables(old(tables), content) && result == tables
    {
      var text := RemoveComments(content);
      var found := FindCreateTables(text, 0);
      for i := 0 to |found|
        invariant tables == PutAll(old(tables), found[..i])
        invariant Valid()
      {
        var table := ParseTableDefinition(found[i].name, found[i].body);
        PrefixSnoc(found, i);
        PutAllStep(old(tables), found[..i], found[i]);
        tables := PutTable(tables, table);
      }
      PrefixAll(found);
      BackFill();
      AddIndexes(text);
      result := tables;
    }

    /** `_parse_table_definition`. */
    method ParseTableDefinition(name: string, definition: string) returns (t: Table)
      ensures t == TableOf(name, definition)
      ensures t.primaryKeys == PrimaryKeysOf(t.columns)
    {
      var scan := ScanConstraints(NormalizeBody(definition), 0);
      var foreignKeys, constraints := Partition(scan.clauses, ClauseForeignKey, ClauseText);
      var parts := SmartSplitColumns(scan.rest);
      var columns, primaryKeys := ParseColumns(parts);
      t := Table(name, columns, primaryKeys, foreignKeys, [], constraints);
    }

    /** The loop over the column fragments, collecting primary-key names as it goes. */
    method ParseColumns(parts: seq<string>) returns (columns: seq<Column>, primaryKeys: seq<string>)
      ensures columns == ColumnsOf(parts)
      ensures primaryKeys == PrimaryKeysOf(columns)
    {
      columns, primaryKeys := [], [];
      for k := 0 to |parts|
        invariant columns == ColumnsOf(parts[..k])
        invariant primaryKeys == PrimaryKeysOf(columns)
      {
        PrefixSnoc(parts, k);
        ColumnStep(parts[..k], parts[k]);
        var part := PyStrip(parts[k]);
        if part != "" && !KeywordAt(part, 0, "CONSTRAINT") {
          match ParseColumnDefinition(part)
          case Some(column) =>
            PrimaryKeyStep(columns, column);
            columns := columns + [column];
            if column.isPrimaryKey {
              primaryKeys := primaryKeys + [column.name];
            }
          case None =>
        }
      }
      PrefixAll(parts);
    }

    /** `_smart_split_columns`: one pass keeping the level, the current part and the parts so far. */
    method SmartSplitColumns(definition: string) returns (parts: seq<string>)
      ensures parts == SmartSplit(definition)
    {
      parts := [];
      var current := "";
      var level := 0;
      for i := 0 to |definition|
        invariant SplitState(definition[..i], level, current, parts)
      {
        var c := definition[i];
        PrefixSnoc(definition, i);
        SplitStep(definition[..i], c, level, current, parts);
        if c == '(' {
          level := level + 1;
        } else if c == ')' {
          level := level - 1;
        } else if c == ',' && level == 0 {
          var stripped := PyStrip(current);
          if stripped != "" {
            parts := parts + [stripped];
          }
          current := "";
          continue;
        }
        current := current + [c];
      }
      PrefixAll(definition);
      SplitFinish(definition, current, parts);
      var stripped := PyStrip(current);
      if stripped != "" {
        parts := parts + [stripped];
      }
    }

    /** `_parse_foreign_keys`: every table's foreign keys, applied to its own columns in place. */
    method BackFill()
      requires Valid()
      modifies this
      ensures tables == BackFillAll(old(tables)) && Valid()
    {
      ghost var start := tables;
      for ti := 0 to |tables|
        invariant |tables| == |start|
        invariant forall k :: 0 <= k < ti ==> tables[k] == BackFillTable(start[k])
        invariant forall k :: ti <= k < |tables| ==> tables[k] == start[k]
      {
        var table := tables[ti];
        var columns := table.columns;
        for f := 0 to |table.foreignKeys|
          modifies {}
          invariant columns == ApplyForeignKeys(table.columns, table.foreignKeys[..f])
        {
          var fk := table.foreignKeys[f];
          PrefixSnoc(table.foreignKeys, f);
          ApplyForeignKeysStep(table.columns, table.foreignKeys[..f], fk);
          var j := 0;
          while j < |columns| && columns[j].name != fk.column
            invariant 0 <= j <= |columns|
            invariant FirstNamedFrom(columns, fk.column, j) == FirstNamed(columns, fk.column)
          {
            j := j + 1;
          }
          if j < |columns| {
            columns := columns[j := Annotate(columns[j], fk)];
          }
        }
        PrefixAll(table.foreignKeys);
        tables := tables[ti := table.(columns := columns)];
      }
      assert forall i, j :: 0 <= i < j < |tables| ==> tables[i].name == start[i].name && tables[j].name == start[j].name;
    }

    /** `_parse_indexes` over the comment-free text. */
    method AddIndexes(text: string)
      requires Valid()
      modifies this
      ensures tables == AttachIndexes(old(tables), FindCreateIndexes(text, 0)) && Valid()
    {
      var found := FindCreateIndexes(text, 0);
      for k := 0 to |found|
        invariant tables == AttachIndexes(old(tables), found[..k])
      {
        PrefixSnoc(found, k);
        AttachIndexesStep(old(tables), found[..k], found[k]);
        var m := found[k];
        match IndexOfName(tables, m.table)
        case Some(i) =>
          tables := tables[i := tables[i].(indexes := tables[i].indexes + [PyStrip(m.columns)])];
        case None =>
      }
      PrefixAll(found);
      assert forall i, j :: 0 <= i < j < |tables| ==> tables[i].name == old(tables)[i].name && tables[j].name == old(tables)[j].name;
    }

    /** `get_relationships` over the tables held. */
    function GetRelationships(): (r: seq<Relationship>)
      reads this
      ensures |r| == ForeignKeyCount(tables)
    {
      Relationships(tables)
    }
  }
}

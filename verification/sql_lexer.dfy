/**
 * The regular expressions of the SQL parser (DBML/sql_parser.py), each written
 * as an explicit scanner.  A `Match...At(s, i)` function says what the pattern
 * matches when the regex engine tries it at position `i`; a `Find...`/`Search...`
 * function walks the positions from left to right as `re.finditer`,
 * `re.search` and `re.sub` do.  Where the pattern backtracks, the scanners
 * take the one outcome the backtracking can reach (the comments say why).
 */
module SqlLexer {
  import opened Wrappers
  import opened Text

  // =====================================================================
  // Comment removal (sql_parser.py:97-103)

  /** A `--` starts at position `i`. */
  predicate LineCommentAt(s: string, i: int) {
    0 <= i && i + 1 < |s| && s[i] == '-' && s[i + 1] == '-'
  }

  predicate HasLineComment(s: string) {
    exists i :: 0 <= i < |s| && LineCommentAt(s, i)
  }

  // A block-comment opener (slash, star) starts at position `i`.
  predicate BlockOpenAt(s: string, i: int) {
    0 <= i && i + 1 < |s| && s[i] == '/' && s[i + 1] == '*'
  }

  predicate HasBlockOpen(s: string) {
    exists i :: 0 <= i < |s| && BlockOpenAt(s, i)
  }

  /** Position of the line break that ends the line holding `i`, or `|s|`: where `.*$` stops under MULTILINE. */
  function LineEnd(s: string, i: nat): (j: nat)
    requires i <= |s|
    ensures i <= j <= |s|
    ensures forall k :: i <= k < j ==> s[k] != '\n'
    ensures j < |s| ==> s[j] == '\n'
  {
    match FindChar(s, i, '\n')
    case Some(j) => j
    case None => |s|
  }

  /**
   * `re.sub(r'--.*$', '', s, flags=re.MULTILINE)`: every `--` is removed together
   * with the rest of its line, but not the line break.
   */
  function StripLineComments(s: string): (r: string)
    ensures |r| <= |s|
    ensures |r| > 0 ==> r[0] == '\n' || (r[0] == s[0] && !LineCommentAt(s, 0))
    ensures !HasLineComment(r)
    ensures multiset(r)['\n'] == multiset(s)['\n']
    ensures !HasLineComment(s) ==> r == s
    decreases |s|
  {
    if |s| == 0 then ""
    else if LineCommentAt(s, 0) then
      var j := LineEnd(s, 0);
      NoBreakBefore(s, j);
      StripLineComments(s[j..])
    else
      var rest := StripLineComments(s[1..]);
      NoCommentInTail(s);
      NoCommentAfterHead(s, rest);
      assert s == [s[0]] + s[1..];
      [s[0]] + rest
  }

  lemma NoBreakBefore(s: string, j: nat)
    requires j <= |s|
    requires forall k :: 0 <= k < j ==> s[k] != '\n'
    ensures multiset(s[j..])['\n'] == multiset(s)['\n']
  {
    assert s == s[..j] + s[j..];
    assert '\n' !in multiset(s[..j]);
  }

  lemma NoCommentInTail(s: string)
    requires |s| > 0
    ensures !HasLineComment(s) ==> !HasLineComment(s[1..])
  {
    forall i | LineCommentAt(s[1..], i) ensures LineCommentAt(s, i + 1) { }
  }

  lemma NoCommentAfterHead(s: string, rest: string)
    requires |s| > 0 && !LineCommentAt(s, 0) && !HasLineComment(rest)
    requires |rest| > 0 ==> rest[0] == '\n' || (|s| > 1 && rest[0] == s[1])
    ensures !HasLineComment([s[0]] + rest)
  {
    var r := [s[0]] + rest;
    forall i | 0 <= i ensures !LineCommentAt(r, i) {
      if i > 0 && LineCommentAt(r, i) {
        assert LineCommentAt(rest, i - 1);
      }
    }
  }

  /** A block-comment closer (star, slash) starts at `k`. */
  predicate BlockCloseAt(s: string, k: int) {
    0 <= k && k + 1 < |s| && s[k] == '*' && s[k + 1] == '/'
  }

  // Position of the first block-comment closer at or after `i`, if any.
  function BlockCloseFrom(s: string, i: nat): (r: Option<nat>)
    requires i <= |s|
    ensures r.Some? ==> i <= r.value && BlockCloseAt(s, r.value)
    ensures r.Some? ==> forall k :: i <= k < r.value ==> !BlockCloseAt(s, k)
    ensures r.None? ==> forall k :: i <= k ==> !BlockCloseAt(s, k)
    decreases |s| - i
  {
    if i + 1 >= |s| then None
    else if BlockCloseAt(s, i) then Some(i)
    else BlockCloseFrom(s, i + 1)
  }

  /** A block comment the pattern matches starts at `q`: an opener with a closer after it. */
  predicate CommentAt(s: string, q: nat) {
    BlockOpenAt(s, q) && BlockCloseFrom(s, q + 2).Some?
  }

  /**
   * The block-comment pattern as a matcher over positions: a comment runs
   * from its opener (slash, star) to the nearest following closer (star,
   * slash), across lines; an opener without a closer does not match.
   */
  function CommentMatcher(s: string): nat -> Option<((), nat)> {
    (k: nat) => if k <= |s| && CommentAt(s, k) then Some(((), BlockCloseFrom(s, k + 2).value + 2)) else None
  }

  /** The block-comment substitution applied to `s` from position `i`: the text outside the comments. */
  function StripCommentsFrom(s: string, i: nat): (r: string)
    requires i <= |s|
    ensures |r| <= |s| - i
  {
    assert Advances(CommentMatcher(s), i, |s|);
    ScanAll(CommentMatcher(s), s, i).1
  }

  // `re.sub(r'/\*.*?\*/', '', s, flags=re.DOTALL)`.
  function StripBlockComments(s: string): (r: string)
    ensures |r| <= |s|
  {
    StripCommentsFrom(s, 0)
  }

  /** `_remove_comments`: line comments first, then block comments. */
  function RemoveComments(s: string): (r: string)
    ensures !HasLineComment(s) && !HasBlockOpen(s) ==> r == s
  {
    var t := StripLineComments(s);
    StripBlockCommentsNoOpen(t);
    StripBlockComments(t)
  }

  /**
   * Comment removal scans left to right: the text before the leftmost
   * complete comment is kept as it is, the comment up to its nearest closer
   * goes, and removal resumes after the closer.
   */
  lemma StripCommentsLeftmost(s: string, i: nat, q: nat)
    requires i <= q < |s| && CommentAt(s, q)
    requires forall k :: i <= k < q ==> !CommentAt(s, k)
    ensures StripCommentsFrom(s, i) == s[i..q] + StripCommentsFrom(s, BlockCloseFrom(s, q + 2).value + 2)
  {
    var m := CommentMatcher(s);
    assert Advances(m, i, |s|);
    assert forall k :: i <= k < q ==> m(k).None?;
    StripCommentsStep(s, i, q, BlockCloseFrom(s, q + 2).value + 2);
  }

  lemma StripCommentsStep(s: string, i: nat, q: nat, e: nat)
    requires i <= q < |s| && Advances(CommentMatcher(s), i, |s|)
    requires CommentMatcher(s)(q) == Some(((), e))
    requires forall k :: i <= k < q ==> CommentMatcher(s)(k).None?
    ensures e <= |s| && StripCommentsFrom(s, i) == s[i..q] + StripCommentsFrom(s, e)
  {
    ScanAllLeftmost(CommentMatcher(s), s, i, q);
  }

  /** Text holding no complete comment comes out unchanged, unclosed openers included. */
  lemma StripCommentsNone(s: string, i: nat)
    requires i <= |s|
    requires forall k :: i <= k < |s| ==> !CommentAt(s, k)
    ensures StripCommentsFrom(s, i) == s[i..]
  {
    var m := CommentMatcher(s);
    assert Advances(m, i, |s|);
    assert forall k :: i <= k < |s| ==> m(k).None?;
    ScanAllSkip(m, s, i, |s|);
    assert s[i..|s|] + "" == s[i..];
  }

  /** Text without a comment opener comes out unchanged. */
  lemma StripBlockCommentsNoOpen(s: string)
    ensures !HasBlockOpen(s) ==> StripBlockComments(s) == s
  {
    if !HasBlockOpen(s) {
      forall k | 0 <= k < |s|
        ensures !CommentAt(s, k)
      {
        assert !BlockOpenAt(s, k);
      }
      StripCommentsNone(s, 0);
    }
  }

  // =====================================================================
  // CREATE TABLE statements (sql_parser.py:76-87)

  /** `\s*\);` matches at `k`. */
  predicate ClosesAt(s: string, k: nat)
    requires k <= |s|
  {
    var j := SkipSpace(s, k);
    j + 1 < |s| && s[j] == ')' && s[j + 1] == ';'
  }

  /** The least `k >= b` at which `\s*\);` matches: where the lazy `(.*?)` stops. */
  function FirstClose(s: string, b: nat): (r: Option<nat>)
    requires b <= |s|
    ensures r.Some? ==> b <= r.value <= |s| && ClosesAt(s, r.value)
    ensures r.Some? ==> forall k :: b <= k < r.value ==> !ClosesAt(s, k)
    ensures r.None? ==> forall k :: b <= k <= |s| ==> !ClosesAt(s, k)
    decreases |s| - b
  {
    if ClosesAt(s, b) then Some(b)
    else if b == |s| then None
    else FirstClose(s, b + 1)
  }

  /**
   * `kw1\s+kw2\s+` tried at `i` (IGNORECASE): the position after the spaces
   * that follow the second keyword.
   */
  function KeywordsAt(s: string, i: nat, kw1: string, kw2: string): (r: Option<nat>)
    requires i <= |s|
    ensures r.Some? ==> i + |kw1| + |kw2| + 2 <= r.value <= |s|
  {
    if !KeywordAt(s, i, kw1) then None
    else
      var a := SkipSpace(s, i + |kw1|);
      if a == i + |kw1| || !KeywordAt(s, a, kw2) then None
      else
        var b := SkipSpace(s, a + |kw2|);
        if b == a + |kw2| then None
        else Some(b)
  }

  datatype TableMatch = TableMatch(name: string, body: string, end: nat)

  /**
   * `CREATE\s+TABLE\s+(\w+)\s*\(\s*(.*?)\s*\);` tried at `i` (IGNORECASE, DOTALL).
   * `\w+` must be followed by a space or `(`, so it takes the whole word; the
   * greedy `\s*` after `(` never has to give back, since `(.*?)` can start later.
   */
  function MatchCreateTableAt(s: string, i: nat): (r: Option<TableMatch>)
    requires i <= |s|
    ensures r.Some? ==> i + 2 <= r.value.end <= |s| && s[r.value.end - 2..r.value.end] == ");"
    ensures r.Some? ==> |r.value.name| > 0 && forall k :: 0 <= k < |r.value.name| ==> IsWordChar(r.value.name[k])
    ensures r.Some? ==> forall k :: 0 <= k < |r.value.body| - 1 ==> !(r.value.body[k] == ')' && r.value.body[k + 1] == ';')
    ensures KeywordsAt(s, i, "CREATE", "TABLE").None? ==> r.None?
    ensures KeywordsAt(s, i, "CREATE", "TABLE").Some? ==> r == TableBodyAt(s, KeywordsAt(s, i, "CREATE", "TABLE").value)
  {
    match KeywordsAt(s, i, "CREATE", "TABLE")
    case None => None
    case Some(b) => TableBodyAt(s, b)
  }

  /** The rest of the table pattern, `(\w+)\s*\(\s*(.*?)\s*\);`, tried at `b`. */
  function TableBodyAt(s: string, b: nat): (r: Option<TableMatch>)
    requires b <= |s|
    ensures r.Some? ==> b + 2 <= r.value.end <= |s| && s[r.value.end - 2..r.value.end] == ");"
    ensures r.Some? ==> |r.value.name| > 0 && forall k :: 0 <= k < |r.value.name| ==> IsWordChar(r.value.name[k])
    ensures r.Some? ==> forall k :: 0 <= k < |r.value.body| - 1 ==> !(r.value.body[k] == ')' && r.value.body[k + 1] == ';')
  {
    var e := WordEnd(s, b);
    if e == b then None
    else
      var p := SkipSpace(s, e);
      if p == |s| || s[p] != '(' then None
      else
        var q := SkipSpace(s, p + 1);
        match FirstClose(s, q)
        case None => None
        case Some(k) =>
          BodyHasNoCloser(s, q, k);
          Some(TableMatch(s[b..e], s[q..k], SkipSpace(s, k) + 2))
  }

  /** The captures of `TableBodyAt`, as slices of the text. */
  lemma TableBodySpans(s: string, b: nat)
    requires b <= |s|
    ensures var e := WordEnd(s, b); var p := SkipSpace(s, e);
      TableBodyAt(s, b).Some? <==> e > b && p < |s| && s[p] == '(' && FirstClose(s, SkipSpace(s, p + 1)).Some?
    ensures TableBodyAt(s, b).Some? ==>
      var r := TableBodyAt(s, b).value; var e := WordEnd(s, b); var p := SkipSpace(s, e);
      p < |s| && var q := SkipSpace(s, p + 1);
      FirstClose(s, q).Some? && var k := FirstClose(s, q).value;
      r.name == s[b..e] && r.body == s[q..k] && r.end == SkipSpace(s, k) + 2
  {
  }

  /** The text before the first `\s*\);` holds no `);` of its own. */
  lemma BodyHasNoCloser(s: string, q: nat, k: nat)
    requires q <= k <= |s|
    requires forall t :: q <= t < k ==> !ClosesAt(s, t)
    ensures forall t :: 0 <= t < k - q - 1 ==> !(s[q..k][t] == ')' && s[q..k][t + 1] == ';')
  {
    forall t | 0 <= t < k - q - 1
      ensures !(s[q..k][t] == ')' && s[q..k][t + 1] == ';')
    {
      if s[q + t] == ')' && s[q + t + 1] == ';' {
        assert SkipSpace(s, q + t) == q + t;
        assert ClosesAt(s, q + t);
      }
    }
  }

  datatype CreateTable = CreateTable(name: string, body: string)

  /** The table pattern as a matcher over positions: the statement found and where its match ends. */
  function TableMatcher(s: string): nat -> Option<(CreateTable, nat)> {
    (k: nat) =>
      if k <= |s| then
        match MatchCreateTableAt(s, k)
        case Some(t) => Some((CreateTable(t.name, t.body), t.end))
        case None => None
      else None
  }

  /** `re.finditer` over the table pattern: after a match the search resumes at its end. */
  function FindCreateTables(s: string, i: nat): (r: seq<CreateTable>)
    requires i <= |s|
    ensures |r| <= |s| - i
  {
    assert Advances(TableMatcher(s), i, |s|);
    FindAll(TableMatcher(s), i, |s|)
  }

  /** The first statement found is the one at the leftmost position where the pattern matches. */
  lemma FindCreateTablesLeftmost(s: string, i: nat, q: nat)
    requires i <= q < |s| && MatchCreateTableAt(s, q).Some?
    requires forall k :: i <= k < q ==> MatchCreateTableAt(s, k).None?
    ensures var m := MatchCreateTableAt(s, q).value;
      FindCreateTables(s, i) == [CreateTable(m.name, m.body)] + FindCreateTables(s, m.end)
  {
    var m := TableMatcher(s);
    assert Advances(m, i, |s|);
    assert forall k :: i <= k < q ==> m(k).None?;
    FindAllLeftmost(m, i, q, |s|);
  }

  /** Nothing is found exactly when the pattern matches at no position. */
  lemma FindCreateTablesEmpty(s: string, i: nat)
    requires i <= |s|
    ensures FindCreateTables(s, i) == [] <==> forall q :: i <= q < |s| ==> MatchCreateTableAt(s, q).None?
  {
    var m := TableMatcher(s);
    assert Advances(m, i, |s|);
    FindAllEmpty(m, i, |s|);
    assert forall q :: i <= q < |s| ==> (m(q).None? <==> MatchCreateTableAt(s, q).None?);
  }

  // =====================================================================
  // CREATE INDEX statements (sql_parser.py:253-262)

  datatype IndexMatch = IndexMatch(indexName: string, table: string, columns: string, end: nat)

  /**
   * `CREATE\s+INDEX\s+(\w+)\s+ON\s+(\w+)\s*\(([^)]+)\)` tried at `i` (IGNORECASE):
   * the column list is everything up to the first `)`, and must not be empty.
   */
  function MatchCreateIndexAt(s: string, i: nat): (r: Option<IndexMatch>)
    requires i <= |s|
    ensures r.Some? ==> i < r.value.end <= |s| && s[r.value.end - 1] == ')'
    ensures r.Some? ==> |r.value.table| > 0 && forall k :: 0 <= k < |r.value.table| ==> IsWordChar(r.value.table[k])
    ensures r.Some? ==> |r.value.columns| > 0 && forall k :: 0 <= k < |r.value.columns| ==> r.value.columns[k] != ')'
    ensures KeywordsAt(s, i, "CREATE", "INDEX").None? ==> r.None?
    ensures KeywordsAt(s, i, "CREATE", "INDEX").Some? ==> r == IndexOnTableAt(s, KeywordsAt(s, i, "CREATE", "INDEX").value)
  {
    match KeywordsAt(s, i, "CREATE", "INDEX")
    case None => None
    case Some(b) => IndexOnTableAt(s, b)
  }

  /** The rest of the index pattern, `(\w+)\s+ON\s+(\w+)\s*\(([^)]+)\)`, tried at `b`. */
  function IndexOnTableAt(s: string, b: nat): (r: Option<IndexMatch>)
    requires b <= |s|
    ensures r.Some? ==> b < r.value.end <= |s| && s[r.value.end - 1] == ')'
    ensures r.Some? ==> |r.value.table| > 0 && forall k :: 0 <= k < |r.value.table| ==> IsWordChar(r.value.table[k])
    ensures r.Some? ==> |r.value.columns| > 0 && forall k :: 0 <= k < |r.value.columns| ==> r.value.columns[k] != ')'
  {
    var e := WordEnd(s, b);
    var c := SkipSpace(s, e);
    if e == b || c == e || !KeywordAt(s, c, "ON") then None
    else
      var d := SkipSpace(s, c + 2);
      if d == c + 2 then None
      else
        match TableColumnsAt(s, d)
        case None => None
        case Some(m) => Some(m.(indexName := s[b..e]))
  }

  /** `(\w+)\s*\(([^)]+)\)` tried at `d`: the table and its column list; the index name is left empty. */
  function TableColumnsAt(s: string, d: nat): (r: Option<IndexMatch>)
    requires d <= |s|
    ensures r.Some? ==> d < r.value.end <= |s| && s[r.value.end - 1] == ')'
    ensures r.Some? ==> |r.value.table| > 0 && forall k :: 0 <= k < |r.value.table| ==> IsWordChar(r.value.table[k])
    ensures r.Some? ==> |r.value.columns| > 0 && forall k :: 0 <= k < |r.value.columns| ==> r.value.columns[k] != ')'
  {
    var f := WordEnd(s, d);
    if f == d then None
    else
      var p := SkipSpace(s, f);
      if p == |s| || s[p] != '(' then None
      else
        match FindChar(s, p + 1, ')')
        case None => None
        case Some(q) =>
          if q == p + 1 then None
          else Some(IndexMatch("", s[d..f], s[p + 1..q], q + 1))
  }

  /** The captures of `IndexOnTableAt`: the index name is the word at `b`, the rest comes from `TableColumnsAt` after `ON`. */
  lemma IndexOnTableSpans(s: string, b: nat)
    requires b <= |s|
    ensures var e := WordEnd(s, b); var c := SkipSpace(s, e);
      IndexOnTableAt(s, b).Some? <==>
        e > b && c > e && KeywordAt(s, c, "ON") && SkipSpace(s, c + 2) > c + 2
        && TableColumnsAt(s, SkipSpace(s, c + 2)).Some?
    ensures IndexOnTableAt(s, b).Some? ==>
      var e := WordEnd(s, b); var c := SkipSpace(s, e);
      c + 2 <= |s| && var d := SkipSpace(s, c + 2);
      TableColumnsAt(s, d).Some? && IndexOnTableAt(s, b).value == TableColumnsAt(s, d).value.(indexName := s[b..e])
  {
  }

  /** The captures of `TableColumnsAt`, as slices of the text. */
  lemma TableColumnsSpans(s: string, d: nat)
    requires d <= |s|
    ensures var f := WordEnd(s, d); var p := SkipSpace(s, f);
      TableColumnsAt(s, d).Some? <==>
        f > d && p + 1 < |s| && s[p] == '(' && s[p + 1] != ')' && FindChar(s, p + 1, ')').Some?
    ensures TableColumnsAt(s, d).Some? ==>
      var r := TableColumnsAt(s, d).value; var f := WordEnd(s, d); var p := SkipSpace(s, f);
      p < |s| && FindChar(s, p + 1, ')').Some? && var q := FindChar(s, p + 1, ')').value;
      r.table == s[d..f] && r.columns == s[p + 1..q] && r.end == q + 1
  {
  }

  /** The index pattern as a matcher over positions. */
  function IndexMatcher(s: string): nat -> Option<(IndexMatch, nat)> {
    (k: nat) =>
      if k <= |s| then
        match MatchCreateIndexAt(s, k)
        case Some(x) => Some((x, x.end))
        case None => None
      else None
  }

  predicate NamesTableAndColumns(x: IndexMatch) {
    |x.table| > 0 && |x.columns| > 0
  }

  /** `re.finditer` over the index pattern: after a match the search resumes at its end. */
  function FindCreateIndexes(s: string, i: nat): (r: seq<IndexMatch>)
    requires i <= |s|
    ensures |r| <= |s| - i
    ensures forall k :: 0 <= k < |r| ==> |r[k].table| > 0 && |r[k].columns| > 0
  {
    var m := IndexMatcher(s);
    assert Advances(m, i, |s|);
    FindAllKeeps(m, i, |s|, NamesTableAndColumns);
    FindAll(m, i, |s|)
  }

  /** The first index found is the one at the leftmost position where the pattern matches. */
  lemma FindCreateIndexesLeftmost(s: string, i: nat, q: nat)
    requires i <= q < |s| && MatchCreateIndexAt(s, q).Some?
    requires forall k :: i <= k < q ==> MatchCreateIndexAt(s, k).None?
    ensures var m := MatchCreateIndexAt(s, q).value;
      FindCreateIndexes(s, i) == [m] + FindCreateIndexes(s, m.end)
  {
    var m := IndexMatcher(s);
    assert Advances(m, i, |s|);
    assert forall k :: i <= k < q ==> m(k).None?;
    FindAllLeftmost(m, i, q, |s|);
  }

  /** Nothing is found exactly when the pattern matches at no position. */
  lemma FindCreateIndexesEmpty(s: string, i: nat)
    requires i <= |s|
    ensures FindCreateIndexes(s, i) == [] <==> forall q :: i <= q < |s| ==> MatchCreateIndexAt(s, q).None?
  {
    var m := IndexMatcher(s);
    assert Advances(m, i, |s|);
    FindAllEmpty(m, i, |s|);
    assert forall q :: i <= q < |s| ==> (m(q).None? <==> MatchCreateIndexAt(s, q).None?);
  }

  // =====================================================================
  // Whitespace normalisation of a table body (sql_parser.py:113)

  /** Two spaces in a row start at `k`. */
  predicate TwoSpacesAt(s: string, k: int) {
    0 <= k && k + 1 < |s| && s[k] == ' ' && s[k + 1] == ' '
  }

  /** `re.sub(r'\s+', ' ', s)`: every run of `\s` becomes one space. */
  function CollapseSpace(s: string): (r: string)
    ensures |r| <= |s| && (|s| > 0 <==> |r| > 0)
    ensures forall k :: 0 <= k < |r| && IsPySpace(r[k]) ==> r[k] == ' '
    ensures forall k :: !TwoSpacesAt(r, k)
    ensures |r| > 0 ==> (IsPySpace(r[0]) <==> IsPySpace(s[0]))
    ensures |r| > 0 ==> (IsPySpace(r[|r| - 1]) <==> IsPySpace(s[|s| - 1]))
    decreases |s|
  {
    if |s| == 0 then ""
    else if IsPySpace(s[0]) then
      var j := SkipSpace(s, 0);
      var rest := CollapseSpace(s[j..]);
      assert |rest| > 0 ==> !IsPySpace(rest[0]);
      assert forall k :: !TwoSpacesAt(" " + rest, k) by {
        forall k | k > 0 ensures !TwoSpacesAt(" " + rest, k) {
          assert !TwoSpacesAt(rest, k - 1);
        }
      }
      " " + rest
    else
      var rest := CollapseSpace(s[1..]);
      assert forall k :: !TwoSpacesAt([s[0]] + rest, k) by {
        forall k | k > 0 ensures !TwoSpacesAt([s[0]] + rest, k) {
          assert !TwoSpacesAt(rest, k - 1);
        }
      }
      [s[0]] + rest
  }

  /** A non-empty run of whitespace alone becomes one space. */
  lemma CollapseSpaceRun(s: string)
    requires |s| > 0 && AllBy(s, IsPySpace)
    ensures CollapseSpace(s) == " "
  {
    assert SkipSpace(s, 0) == |s| by {
      SkipSpaceAll(s, 0);
    }
  }

  lemma {:induction false} SkipSpaceAll(s: string, i: nat)
    requires i <= |s| && forall k :: i <= k < |s| ==> IsPySpace(s[k])
    ensures SkipSpace(s, i) == |s|
    decreases |s| - i
  {
    if i < |s| {
      SkipSpaceAll(s, i + 1);
    }
  }

  /** Text without whitespace is left as it is. */
  lemma {:induction false} CollapseSpaceNoSpace(s: string)
    requires forall k :: 0 <= k < |s| ==> !IsPySpace(s[k])
    ensures CollapseSpace(s) == s
    decreases |s|
  {
    if |s| > 0 {
      CollapseSpaceNoSpace(s[1..]);
      assert s == [s[0]] + s[1..];
    }
  }

  /**
   * The substitution works run by run: text cut where a non-space follows
   * is collapsed piece by piece.
   */
  lemma {:induction false} CollapseSpaceAppend(a: string, b: string)
    requires |b| > 0 && !IsPySpace(b[0])
    ensures CollapseSpace(a + b) == CollapseSpace(a) + CollapseSpace(b)
    decreases |a|
  {
    if |a| == 0 {
      assert a + b == b;
    } else if IsPySpace(a[0]) {
      var j := SkipSpace(a, 0);
      if j < |a| {
        CollapseSpaceAppend(a[j..], b);
      }
      CollapseSpaceRunStep(a, b, j);
    } else {
      CollapseSpaceAppend(a[1..], b);
      CollapseSpaceCharStep(a, b);
    }
  }

  /** `CollapseSpaceAppend` when `a` opens with a whitespace run ending at `j`. */
  lemma CollapseSpaceRunStep(a: string, b: string, j: nat)
    requires |a| > 0 && IsPySpace(a[0]) && |b| > 0 && !IsPySpace(b[0]) && j == SkipSpace(a, 0)
    requires j < |a| ==> CollapseSpace(a[j..] + b) == CollapseSpace(a[j..]) + CollapseSpace(b)
    ensures CollapseSpace(a + b) == CollapseSpace(a) + CollapseSpace(b)
  {
    var s := a + b;
    SkipSpacePrefix(a, b, 0);
    DropAppend(a, b, j);
    assert CollapseSpace(s) == " " + CollapseSpace(s[j..]);
    assert CollapseSpace(a) == " " + CollapseSpace(a[j..]);
    if j < |a| {
      AppendAssoc(" ", CollapseSpace(a[j..]), CollapseSpace(b));
    } else {
      assert a[j..] == "";
      assert a[j..] + b == b;
      assert CollapseSpace(a) == " ";
      assert CollapseSpace(s) == " " + CollapseSpace(b);
    }
  }

  lemma DropAppend(a: string, b: string, j: nat)
    requires j <= |a|
    ensures (a + b)[j..] == a[j..] + b
  {
  }

  /** `CollapseSpaceAppend` when `a` opens with a non-space. */
  lemma CollapseSpaceCharStep(a: string, b: string)
    requires |a| > 0 && !IsPySpace(a[0])
    requires CollapseSpace(a[1..] + b) == CollapseSpace(a[1..]) + CollapseSpace(b)
    ensures CollapseSpace(a + b) == CollapseSpace(a) + CollapseSpace(b)
  {
    var s := a + b;
    DropAppend(a, b, 1);
    assert CollapseSpace(s) == [a[0]] + CollapseSpace(s[1..]);
    AppendAssoc([a[0]], CollapseSpace(a[1..]), CollapseSpace(b));
  }

  /** Skipping spaces in `a + b` from inside `a` stops where it stops in `a`, since `b` starts with a non-space. */
  lemma {:induction false} SkipSpacePrefix(a: string, b: string, i: nat)
    requires i <= |a| && |b| > 0 && !IsPySpace(b[0])
    ensures SkipSpace(a + b, i) == SkipSpace(a, i)
    decreases |a| - i
  {
    if i < |a| && IsPySpace(a[i]) {
      SkipSpacePrefix(a, b, i + 1);
    }
  }

  /**
   * Text cut just after a non-space is also collapsed piece by piece.  With
   * `CollapseSpaceAppend`, `CollapseSpaceRun` and `CollapseSpaceNoSpace`
   * this determines the substitution: cut the text into maximal runs of
   * whitespace and of other characters; each whitespace run becomes one
   * space and every other character is kept, in order.
   */
  lemma {:induction false} CollapseSpaceAfterWord(a: string, b: string)
    requires |a| > 0 && !IsPySpace(a[|a| - 1])
    ensures CollapseSpace(a + b) == CollapseSpace(a) + CollapseSpace(b)
    decreases |a|
  {
    if IsPySpace(a[0]) {
      var j := SkipSpace(a, 0);
      SkipSpaceInside(a, b, 0);
      CollapseSpaceAfterWord(a[j..], b);
      var s := a + b;
      DropAppend(a, b, j);
      assert CollapseSpace(s) == " " + CollapseSpace(s[j..]);
      assert CollapseSpace(a) == " " + CollapseSpace(a[j..]);
      AppendAssoc(" ", CollapseSpace(a[j..]), CollapseSpace(b));
    } else {
      if |a| == 1 {
        assert a[1..] + b == b;
        assert CollapseSpace(a[1..]) == "";
      } else {
        CollapseSpaceAfterWord(a[1..], b);
      }
      CollapseSpaceCharStep(a, b);
    }
  }

  /** Skipping spaces inside `a` stops before its last character when that is not a space. */
  lemma {:induction false} SkipSpaceInside(a: string, b: string, i: nat)
    requires i < |a| && !IsPySpace(a[|a| - 1])
    ensures SkipSpace(a + b, i) == SkipSpace(a, i) < |a|
    decreases |a| - i
  {
    if IsPySpace(a[i]) {
      SkipSpaceInside(a, b, i + 1);
    }
  }

  /** `re.sub(r'\s+', ' ', definition.strip())`. */
  function NormalizeBody(s: string): (r: string)
    ensures forall k :: 0 <= k < |r| && IsPySpace(r[k]) ==> r[k] == ' '
    ensures forall k :: !TwoSpacesAt(r, k)
    ensures IsTrimmedBy(r, IsPySpace)
  {
    CollapseSpace(PyStrip(s))
  }

  // =====================================================================
  // CONSTRAINT clauses (sql_parser.py:116-146)

  predicate AllSpaceFrom(d: string, k: nat)
    requires k <= |d|
  {
    forall t :: k <= t < |d| ==> IsPySpace(d[t])
  }

  /** `,\s*\w+\s+\w+` matches at `k`: a comma, then something shaped like `name TYPE`. */
  predicate ColumnFollowsAt(d: string, k: nat)
    requires k <= |d|
  {
    k < |d| && d[k] == ',' &&
    var w := SkipSpace(d, k + 1);
    var e := WordEnd(d, w);
    var v := SkipSpace(d, e);
    e > w && v > e && v < |d| && IsWordChar(d[v])
  }

  /**
   * The lookahead `(?=,\s*CONSTRAINT|\s*$|,\s*\w+\s+\w+)` holds at `k`.  In a
   * normalised body `\s*$` only holds at the very end, and `$` before a final
   * line break is covered because a line break is itself `\s`.
   */
  predicate ClauseStopsAt(d: string, k: nat)
    requires k <= |d|
  {
    (k < |d| && d[k] == ',' && KeywordAt(d, SkipSpace(d, k + 1), "CONSTRAINT"))
    || AllSpaceFrom(d, k)
    || ColumnFollowsAt(d, k)
  }

  /** Where the lazy `(.*?)` of a CONSTRAINT clause ends: the least stop at or after `b`. */
  function FirstClauseStop(d: string, b: nat): (k: nat)
    requires b <= |d|
    ensures b <= k <= |d| && ClauseStopsAt(d, k)
    ensures forall t :: b <= t < k ==> !ClauseStopsAt(d, t)
    decreases |d| - b
  {
    if ClauseStopsAt(d, b) then b else FirstClauseStop(d, b + 1)
  }

  datatype ConstraintMatch = ConstraintMatch(name: string, definition: string, end: nat)

  /**
   * `CONSTRAINT\s+(\w+)\s+(.*?)(?=...)` tried at `i` (IGNORECASE).  The name is
   * the whole word (it must be followed by a space); the definition starts after
   * all the spaces that follow it and stops at the FIRST position where the
   * lookahead holds, which always exists because it holds at the end of `d`.
   */
  function MatchConstraintAt(d: string, i: nat): (r: Option<ConstraintMatch>)
    requires i <= |d|
    ensures r.Some? ==> i < r.value.end <= |d| && ClauseStopsAt(d, r.value.end)
    ensures r.Some? ==> |r.value.name| > 0 && forall k :: 0 <= k < |r.value.name| ==> IsWordChar(r.value.name[k])
    ensures r.Some? ==> var b := r.value.end - |r.value.definition|;
      b > i && d[b..r.value.end] == r.value.definition && IsPySpace(d[b - 1]) &&
      forall t :: b <= t < r.value.end ==> !ClauseStopsAt(d, t)
  {
    if !KeywordAt(d, i, "CONSTRAINT") then None
    else
      var a := SkipSpace(d, i + 10);
      var e := WordEnd(d, a);
      var b := SkipSpace(d, e);
      if a == i + 10 || e == a || b == e then None
      else
        var k := FirstClauseStop(d, b);
        Some(ConstraintMatch(d[a..e], d[b..k], k))
  }

  /**
   * What a CONSTRAINT match captures: the word after the keyword and its
   * spaces, and the text from the first non-space after that word up to the
   * first position where the lookahead holds.
   */
  lemma ConstraintSpans(d: string, i: nat)
    requires i <= |d|
    ensures !KeywordAt(d, i, "CONSTRAINT") ==> MatchConstraintAt(d, i).None?
    ensures KeywordAt(d, i, "CONSTRAINT") ==>
      var a := SkipSpace(d, i + 10); var e := WordEnd(d, a);
      (MatchConstraintAt(d, i).Some? <==> a > i + 10 && e > a && SkipSpace(d, e) > e)
    ensures MatchConstraintAt(d, i).Some? ==>
      KeywordAt(d, i, "CONSTRAINT") &&
      var r := MatchConstraintAt(d, i).value; var a := SkipSpace(d, i + 10); var e := WordEnd(d, a);
      var b := SkipSpace(d, e);
      r.name == d[a..e] && r.end == FirstClauseStop(d, b) && r.definition == d[b..r.end]
  {
  }

  datatype ConstraintScan = ConstraintScan(clauses: seq<ConstraintMatch>, rest: string)

  /**
   * One left-to-right pass of the CONSTRAINT pattern from position `i`: the
   * clauses `re.finditer` yields (line 116) and the text `re.sub` leaves behind
   * (lines 141-146).  The two calls use the same pattern, up to the order of
   * the lookahead's alternatives, which does not change where `(.*?)` stops.
   */
  function ScanConstraints(d: string, i: nat): (r: ConstraintScan)
    requires i <= |d|
    ensures |r.rest| <= |d| - i
  {
    var m := ConstraintMatcher(d);
    assert Advances(m, i, |d|);
    var scan := ScanAll(m, d, i);
    ConstraintScan(scan.0, scan.1)
  }

  /** The CONSTRAINT pattern as a matcher over positions. */
  function ConstraintMatcher(d: string): nat -> Option<(ConstraintMatch, nat)> {
    (k: nat) =>
      if k <= |d| then
        match MatchConstraintAt(d, k)
        case Some(x) => Some((x, x.end))
        case None => None
      else None
  }

  /** Text without the keyword CONSTRAINT passes through the scan unchanged. */
  lemma ScanWithoutConstraint(d: string, i: nat)
    requires i <= |d|
    requires forall k :: i <= k <= |d| ==> !KeywordAt(d, k, "CONSTRAINT")
    ensures ScanConstraints(d, i) == ConstraintScan([], d[i..])
  {
    forall k | i <= k < |d|
      ensures MatchConstraintAt(d, k).None?
    {
      ConstraintSpans(d, k);
    }
    ScanConstraintsNone(d, i);
  }

  /**
   * The first clause is the one at the leftmost position where the pattern
   * matches; the text before it stays in the remainder and the clause itself
   * does not.
   */
  lemma ScanConstraintsLeftmost(d: string, i: nat, q: nat)
    requires i <= q < |d| && MatchConstraintAt(d, q).Some?
    requires forall k :: i <= k < q ==> MatchConstraintAt(d, k).None?
    ensures var m := MatchConstraintAt(d, q).value;
      ScanConstraints(d, i).clauses == [m] + ScanConstraints(d, m.end).clauses &&
      ScanConstraints(d, i).rest == d[i..q] + ScanConstraints(d, m.end).rest
  {
    var m := ConstraintMatcher(d);
    assert Advances(m, i, |d|);
    assert forall k :: i <= k < q ==> m(k).None?;
    ScanAllLeftmost(m, d, i, q);
  }

  /** Where the pattern matches nowhere, no clause is found and the whole text remains. */
  lemma ScanConstraintsNone(d: string, i: nat)
    requires i <= |d|
    requires forall k :: i <= k < |d| ==> MatchConstraintAt(d, k).None?
    ensures ScanConstraints(d, i) == ConstraintScan([], d[i..])
  {
    var m := ConstraintMatcher(d);
    assert Advances(m, i, |d|);
    assert forall k :: i <= k < |d| ==> m(k).None?;
    ScanAllSkip(m, d, i, |d|);
    assert d[i..|d|] + "" == d[i..];
  }

  // ---------------------------------------------------------------------
  // FOREIGN KEY inside a constraint definition (sql_parser.py:124-128)

  datatype ForeignKeyParts = ForeignKeyParts(column: string, referencesTable: string, referencesColumn: string)

  predicate IsWord(w: string) {
    |w| > 0 && forall k :: 0 <= k < |w| ==> IsWordChar(w[k])
  }

  /** `FOREIGN\s+KEY\s*\((\w+)\)\s+REFERENCES\s+(\w+)\s*\((\w+)\)` tried at `p` (IGNORECASE). */
  function MatchForeignKeyAt(t: string, p: nat): (r: Option<ForeignKeyParts>)
    requires p <= |t|
    ensures r.Some? ==> IsWord(r.value.column) && IsWord(r.value.referencesTable) && IsWord(r.value.referencesColumn)
    ensures ForeignKeyKeywordsAt(t, p).None? ==> r.None?
    ensures ForeignKeyKeywordsAt(t, p).Some? ==> r == ForeignKeyRestAt(t, ForeignKeyKeywordsAt(t, p).value)
  {
    match ForeignKeyKeywordsAt(t, p)
    case None => None
    case Some(b) => ForeignKeyRestAt(t, b)
  }

  /** `FOREIGN\s+KEY\s*` tried at `p` (IGNORECASE): the position after the spaces that follow `KEY`. */
  function ForeignKeyKeywordsAt(t: string, p: nat): (r: Option<nat>)
    requires p <= |t|
    ensures r.Some? <==> KeywordAt(t, p, "FOREIGN") && SkipSpace(t, p + 7) > p + 7 && KeywordAt(t, SkipSpace(t, p + 7), "KEY")
    ensures r.Some? ==> r.value == SkipSpace(t, SkipSpace(t, p + 7) + 3)
  {
    if !KeywordAt(t, p, "FOREIGN") then None
    else
      var a := SkipSpace(t, p + 7);
      if a == p + 7 || !KeywordAt(t, a, "KEY") then None
      else Some(SkipSpace(t, a + 3))
  }

  /** The part after `KEY\s*`, `\((\w+)\)\s+REFERENCES\s+(\w+)\s*\((\w+)\)`, tried at `b`. */
  function ForeignKeyRestAt(t: string, b: nat): (r: Option<ForeignKeyParts>)
    requires b <= |t|
    ensures r.Some? ==> IsWord(r.value.column) && IsWord(r.value.referencesTable) && IsWord(r.value.referencesColumn)
  {
    match WordGroupAt(t, b)
    case None => None
    case Some(c) =>
      var d := SkipSpace(t, c + 1);
      if d == c + 1 || !KeywordAt(t, d, "REFERENCES") then None
      else
        match MatchTargetAt(t, d + 10)
        case None => None
        case Some(target) => Some(ForeignKeyParts(t[b + 1..c], target.0, target.1))
  }

  /** `\((\w+)\)` at `b`: the index of the closing parenthesis. */
  function WordGroupAt(t: string, b: nat): (r: Option<nat>)
    requires b <= |t|
    ensures r.Some? ==> b + 1 < r.value < |t| && t[b] == '(' && t[r.value] == ')' && IsWord(t[b + 1..r.value])
    ensures r.Some? <==> b < |t| && t[b] == '(' && WordEnd(t, b + 1) > b + 1 && WordEnd(t, b + 1) < |t|
                         && t[WordEnd(t, b + 1)] == ')'
    ensures r.Some? ==> r.value == WordEnd(t, b + 1)
  {
    if b == |t| || t[b] != '(' then None
    else
      var c := WordEnd(t, b + 1);
      if c == b + 1 || c == |t| || t[c] != ')' then None
      else Some(c)
  }

  /** `\s+(\w+)\s*\((\w+)\)` at `d`: the referenced table and column. */
  function MatchTargetAt(t: string, d: nat): (r: Option<(string, string)>)
    requires d <= |t|
    ensures r.Some? ==> IsWord(r.value.0) && IsWord(r.value.1)
  {
    var e := SkipSpace(t, d);
    var f := WordEnd(t, e);
    if e == d || f == e then None
    else
      var g := SkipSpace(t, f);
      match WordGroupAt(t, g)
      case None => None
      case Some(h) => Some((t[e..f], t[g + 1..h]))
  }

  /** What the referenced-table part captures: the word after the spaces, and the word inside the parentheses. */
  lemma TargetSpans(t: string, d: nat)
    requires d <= |t|
    ensures MatchTargetAt(t, d).Some? ==>
      var r := MatchTargetAt(t, d).value;
      var e := SkipSpace(t, d); var f := WordEnd(t, e); var g := SkipSpace(t, f);
      e > d && f > e && WordGroupAt(t, g).Some? && r.0 == t[e..f] && r.1 == t[g + 1..WordGroupAt(t, g).value]
    ensures var e := SkipSpace(t, d); var f := WordEnd(t, e);
      MatchTargetAt(t, d).Some? <==> e > d && f > e && WordGroupAt(t, SkipSpace(t, f)).Some?
  {
  }

  /**
   * What the rest of a FOREIGN KEY match captures: the word inside the
   * parentheses at `b`, then the referenced table and column after `REFERENCES`.
   */
  lemma ForeignKeyRestSpans(t: string, b: nat)
    requires b <= |t|
    ensures ForeignKeyRestAt(t, b).Some? ==>
      var r := ForeignKeyRestAt(t, b).value;
      WordGroupAt(t, b).Some? && var c := WordGroupAt(t, b).value;
      r.column == t[b + 1..c] &&
      var d := SkipSpace(t, c + 1);
      d > c + 1 && KeywordAt(t, d, "REFERENCES") &&
      MatchTargetAt(t, d + 10) == Some((r.referencesTable, r.referencesColumn))
    ensures WordGroupAt(t, b).Some? ==>
      var d := SkipSpace(t, WordGroupAt(t, b).value + 1);
      (ForeignKeyRestAt(t, b).Some? <==> d > WordGroupAt(t, b).value + 1 && KeywordAt(t, d, "REFERENCES")
                                          && MatchTargetAt(t, d + 10).Some?)
  {
  }

  /** `re.search` over any pattern: the match `m` gives at the leftmost position from `p` up to `n`. */
  function FirstMatch<T>(m: nat -> Option<T>, p: nat, n: nat): (r: Option<T>)
    requires p <= n
    decreases n - p
  {
    if m(p).Some? || p == n then m(p) else FirstMatch(m, p + 1, n)
  }

  /** The search returns the match at the leftmost position, and finds nothing only when no position matches. */
  lemma {:induction false} FirstMatchLeftmost<T>(m: nat -> Option<T>, p: nat, n: nat)
    requires p <= n
    ensures FirstMatch(m, p, n).Some? ==>
              exists q :: p <= q <= n && m(q) == FirstMatch(m, p, n) && forall k :: p <= k < q ==> m(k).None?
    ensures FirstMatch(m, p, n).None? ==> forall q :: p <= q <= n ==> m(q).None?
    decreases n - p
  {
    if m(p).None? && p < n {
      FirstMatchLeftmost(m, p + 1, n);
    }
  }

  /** Every match found from `i` ends after where it starts and no later than `n`. */
  predicate Advances<T>(m: nat -> Option<(T, nat)>, i: nat, n: nat) {
    forall k :: i <= k < n && m(k).Some? ==> k < m(k).value.1 <= n
  }

  /**
   * `re.finditer` over any pattern: the matcher `m` gives, at a position, the
   * match found there and where it ends; after a match the search resumes at
   * its end, otherwise one position further.
   */
  function FindAll<T>(m: nat -> Option<(T, nat)>, i: nat, n: nat): (r: seq<T>)
    requires i <= n && Advances(m, i, n)
    ensures |r| <= n - i
    decreases n - i
  {
    if i == n then []
    else
      match m(i)
      case Some(x) => [x.0] + FindAll(m, x.1, n)
      case None => FindAll(m, i + 1, n)
  }

  lemma {:induction false} FindAllSkip<T>(m: nat -> Option<(T, nat)>, i: nat, q: nat, n: nat)
    requires i <= q <= n && Advances(m, i, n)
    requires forall k :: i <= k < q ==> m(k).None?
    ensures FindAll(m, i, n) == FindAll(m, q, n)
    decreases q - i
  {
    if i < q {
      FindAllSkip(m, i + 1, q, n);
    }
  }

  /** The first match found is the one at the leftmost matching position. */
  lemma FindAllLeftmost<T>(m: nat -> Option<(T, nat)>, i: nat, q: nat, n: nat)
    requires i <= q < n && Advances(m, i, n) && m(q).Some?
    requires forall k :: i <= k < q ==> m(k).None?
    ensures FindAll(m, i, n) == [m(q).value.0] + FindAll(m, m(q).value.1, n)
  {
    FindAllSkip(m, i, q, n);
  }

  /** Nothing is found exactly when no position matches. */
  lemma {:induction false} FindAllEmpty<T>(m: nat -> Option<(T, nat)>, i: nat, n: nat)
    requires i <= n && Advances(m, i, n)
    ensures FindAll(m, i, n) == [] <==> forall q :: i <= q < n ==> m(q).None?
    decreases n - i
  {
    if i < n && m(i).None? {
      FindAllEmpty(m, i + 1, n);
    }
  }

  /** What holds of every match the matcher can give holds of every match found. */
  lemma {:induction false} FindAllKeeps<T>(m: nat -> Option<(T, nat)>, i: nat, n: nat, P: T -> bool)
    requires i <= n && Advances(m, i, n)
    requires forall k :: i <= k < n && m(k).Some? ==> P(m(k).value.0)
    ensures forall k :: 0 <= k < |FindAll(m, i, n)| ==> P(FindAll(m, i, n)[k])
    decreases n - i
  {
    if i < n {
      match m(i)
      case Some(x) =>
        FindAllKeeps(m, x.1, n, P);
      case None =>
        FindAllKeeps(m, i + 1, n, P);
    }
  }

  /**
   * `re.finditer` and `re.sub(..., '')` in one pass over `d`: the matches
   * found, and the text outside them.
   */
  function ScanAll<T>(m: nat -> Option<(T, nat)>, d: string, i: nat): (r: (seq<T>, string))
    requires i <= |d| && Advances(m, i, |d|)
    ensures |r.1| <= |d| - i
    decreases |d| - i
  {
    if i == |d| then ([], "")
    else
      match m(i)
      case Some(x) =>
        var tail := ScanAll(m, d, x.1);
        ([x.0] + tail.0, tail.1)
      case None =>
        var tail := ScanAll(m, d, i + 1);
        (tail.0, [d[i]] + tail.1)
  }

  lemma {:induction false} ScanAllSkip<T>(m: nat -> Option<(T, nat)>, d: string, i: nat, q: nat)
    requires i <= q <= |d| && Advances(m, i, |d|)
    requires forall k :: i <= k < q ==> m(k).None?
    ensures ScanAll(m, d, i).0 == ScanAll(m, d, q).0
    ensures ScanAll(m, d, i).1 == d[i..q] + ScanAll(m, d, q).1
    decreases q - i
  {
    if i < q {
      ScanAllSkip(m, d, i + 1, q);
      assert d[i..q] == [d[i]] + d[i + 1..q];
      AppendAssoc([d[i]], d[i + 1..q], ScanAll(m, d, q).1);
    } else {
      assert d[i..q] == [];
    }
  }

  /** The first match is at the leftmost matching position, and the text before it is kept. */
  lemma ScanAllLeftmost<T>(m: nat -> Option<(T, nat)>, d: string, i: nat, q: nat)
    requires i <= q < |d| && Advances(m, i, |d|) && m(q).Some?
    requires forall k :: i <= k < q ==> m(k).None?
    ensures ScanAll(m, d, i).0 == [m(q).value.0] + ScanAll(m, d, m(q).value.1).0
    ensures ScanAll(m, d, i).1 == d[i..q] + ScanAll(m, d, m(q).value.1).1
  {
    ScanAllSkip(m, d, i, q);
  }

  /** `MatchForeignKeyAt` as a pattern over positions: nothing past the end of `t`. */
  function ForeignKeyMatcher(t: string): nat -> Option<ForeignKeyParts> {
    (q: nat) => if q <= |t| then MatchForeignKeyAt(t, q) else None
  }

  /**
   * `re.search` for the FOREIGN KEY pattern from position `p`: the match at the
   * leftmost position that has one, or nothing when no position matches.
   */
  function SearchForeignKey(t: string, p: nat): (r: Option<ForeignKeyParts>)
    requires p <= |t|
    ensures r.Some? ==> IsWord(r.value.column) && IsWord(r.value.referencesTable) && IsWord(r.value.referencesColumn)
    ensures r.Some? ==>
              exists q :: p <= q <= |t| && MatchForeignKeyAt(t, q) == r
                && forall k :: p <= k < q ==> MatchForeignKeyAt(t, k).None?
    ensures r.None? ==> forall q :: p <= q <= |t| ==> MatchForeignKeyAt(t, q).None?
  {
    var m := ForeignKeyMatcher(t);
    FirstMatchLeftmost(m, p, |t|);
    assert forall q :: p <= q <= |t| ==> m(q) == MatchForeignKeyAt(t, q);
    FirstMatch(m, p, |t|)
  }

  // =====================================================================
  // One column fragment (sql_parser.py:197-236)

  /** Index just past the run of `[A-Za-z_]` starting at `i`. */
  function TypeLetterEnd(s: string, i: nat): (j: nat)
    requires i <= |s|
    ensures i <= j <= |s|
    ensures forall k :: i <= k < j ==> IsTypeLetter(s[k])
    ensures j < |s| ==> !IsTypeLetter(s[j])
    decreases |s| - i
  {
    if i < |s| && IsTypeLetter(s[i]) then TypeLetterEnd(s, i + 1) else i
  }

  /**
   * The shape `[A-Z_]+(?:\([^)]+\))?` admits: letters and underscores only
   * (no digits), optionally followed by one parenthesised group that holds at
   * least one character and no `)`.
   */
  predicate IsTypeToken(t: string) {
    var l := TypeLetterEnd(t, 0);
    l > 0 &&
    (l == |t| ||
     (l + 2 < |t| && t[l] == '(' && t[|t| - 1] == ')' && forall k :: l < k < |t| - 1 ==> t[k] != ')'))
  }

  datatype ColumnHead = ColumnHead(name: string, dataType: string)

  /** The fragment starts with `identifier whitespace type-letter`. */
  predicate StartsWithNameAndType(line: string) {
    var e := WordEnd(line, 0);
    var j := SkipSpace(line, e);
    e > 0 && j > e && j < |line| && IsTypeLetter(line[j])
  }

  /**
   * Where `[A-Z_]+(?:\([^)]+\))?` stops when tried at `j`: after the letters,
   * or after the first `)` when a `(` follows them and the group is not empty.
   */
  function TypeTokenEnd(line: string, j: nat): (m: nat)
    requires j < |line| && IsTypeLetter(line[j])
    ensures j < m <= |line| && IsTypeToken(line[j..m])
  {
    var l := TypeLetterEnd(line, j);
    var group :=
      if l < |line| && line[l] == '(' then
        (match FindChar(line, l + 1, ')')
         case Some(q) => if q > l + 1 then Some(q) else None
         case None => None)
      else None;
    match group
    case None =>
      LetterRunSlice(line, j, l, 0);
      l
    case Some(q) =>
      LetterRunSlice(line, j, q + 1, 0);
      q + 1
  }

  /**
   * The type token is as long as the pattern lets it be: the letter run plus
   * the parenthesised group when one follows (regular expressions are greedy),
   * the letter run alone otherwise.
   */
  lemma TypeTokenEndGreedy(line: string, j: nat)
    requires j < |line| && IsTypeLetter(line[j])
    ensures var l := TypeLetterEnd(line, j);
      var grouped := l + 1 < |line| && line[l] == '(' && line[l + 1] != ')' && FindChar(line, l + 1, ')').Some?;
      (grouped ==> TypeTokenEnd(line, j) == FindChar(line, l + 1, ')').value + 1)
      && (!grouped ==> TypeTokenEnd(line, j) == l)
  {
  }

  /** The letter run of a slice `line[j..m]` is that of `line` from `j`, if it ends inside the slice. */
  lemma {:induction false} LetterRunSlice(line: string, j: nat, m: nat, k: nat)
    requires j + k <= m <= |line|
    requires TypeLetterEnd(line, j + k) <= m
    ensures TypeLetterEnd(line[j..m], k) == TypeLetterEnd(line, j + k) - j
    decreases m - j - k
  {
    if j + k < m && IsTypeLetter(line[j + k]) {
      LetterRunSlice(line, j, m, k + 1);
    }
  }

  /**
   * `re.match(r'(\w+)\s+([A-Z_]+(?:\([^)]+\))?)', line, re.IGNORECASE)`: only the
   * start of the fragment is examined; the name is the whole first word.
   */
  function MatchColumnHead(line: string): (r: Option<ColumnHead>)
    ensures r.Some? <==> StartsWithNameAndType(line)
    ensures r.Some? ==> IsWord(r.value.name) && r.value.name == line[..WordEnd(line, 0)]
    ensures r.Some? ==> IsTypeToken(r.value.dataType)
    ensures r.Some? ==> MatchAt(line, SkipSpace(line, |r.value.name|), r.value.dataType)
    ensures r.Some? ==> var j := SkipSpace(line, |r.value.name|);
      j < |line| && IsTypeLetter(line[j]) && r.value.dataType == line[j..TypeTokenEnd(line, j)]
  {
    var e := WordEnd(line, 0);
    var j := SkipSpace(line, e);
    if e == 0 || j == e || j == |line| || !IsTypeLetter(line[j]) then None
    else Some(ColumnHead(line[..e], line[j..TypeTokenEnd(line, j)]))
  }

  /** `[^,\s]+`: index just past the run of characters that are neither `,` nor `\s`. */
  function TokenEnd(s: string, i: nat): (j: nat)
    requires i <= |s|
    ensures i <= j <= |s|
    ensures forall k :: i <= k < j ==> s[k] != ',' && !IsPySpace(s[k])
    ensures j < |s| ==> s[j] == ',' || IsPySpace(s[j])
    decreases |s| - i
  {
    if i < |s| && s[i] != ',' && !IsPySpace(s[i]) then TokenEnd(s, i + 1) else i
  }

  /** `DEFAULT\s+([^,\s]+)` tried at `p` (IGNORECASE). */
  function MatchDefaultAt(line: string, p: nat): (r: Option<string>)
    requires p <= |line|
    ensures r.Some? ==> KeywordAt(line, p, "DEFAULT")
    ensures r.Some? ==> |r.value| > 0 && forall k :: 0 <= k < |r.value| ==> r.value[k] != ',' && !IsPySpace(r.value[k])
    ensures KeywordAt(line, p, "DEFAULT") ==>
              var a := SkipSpace(line, p + 7);
              (r.Some? <==> a > p + 7 && TokenEnd(line, a) > a) && (r.Some? ==> r.value == line[a..TokenEnd(line, a)])
  {
    if !KeywordAt(line, p, "DEFAULT") then None
    else
      var a := SkipSpace(line, p + 7);
      var v := TokenEnd(line, a);
      if a == p + 7 || v == a then None else Some(line[a..v])
  }

  /**
   * `re.search` for the default value: the leftmost `DEFAULT` followed by
   * spaces and a token; the token runs to the first comma or space.
   */
  function SearchDefault(line: string, p: nat): (r: Option<string>)
    requires p <= |line|
    ensures r.Some? ==> |r.value| > 0 && forall k :: 0 <= k < |r.value| ==> r.value[k] != ',' && !IsPySpace(r.value[k])
    ensures r.Some? ==> exists q :: p <= q <= |line| && KeywordAt(line, q, "DEFAULT") && MatchDefaultAt(line, q) == r
                                    && forall k :: p <= k < q ==> MatchDefaultAt(line, k).None?
    ensures r.None? ==> forall q :: p <= q <= |line| ==> MatchDefaultAt(line, q).None?
  {
    var m := (q: nat) => if q <= |line| then MatchDefaultAt(line, q) else None;
    FirstMatchLeftmost(m, p, |line|);
    assert forall q :: p <= q <= |line| ==> m(q) == MatchDefaultAt(line, q);
    FirstMatch(m, p, |line|)
  }

  /** `CHECK\s*\([^)]+\)` tried at `p` (IGNORECASE): the matched text up to the first `)`. */
  function MatchCheckAt(line: string, p: nat): (r: Option<string>)
    requires p <= |line|
    ensures r.Some? ==> KeywordAt(r.value, 0, "CHECK") && r.value[|r.value| - 1] == ')'
    ensures r.Some? ==> forall k :: 0 <= k < |r.value| - 1 ==> r.value[k] != ')'
    ensures CheckCloseAt(line, p).None? ==> r.None?
    ensures CheckCloseAt(line, p).Some? ==> r == Some(line[p..CheckCloseAt(line, p).value + 1])
  {
    match CheckCloseAt(line, p)
    case None => None
    case Some(q) =>
      assert forall k :: p <= k < p + 5 ==> UpperChar(line[k]) == "CHECK"[k - p];
      Some(line[p..q + 1])
  }

  /**
   * Where a CHECK match tried at `p` ends: the first `)` after the `(` that
   * follows `CHECK` and its spaces, provided something stands between them.
   */
  function CheckCloseAt(line: string, p: nat): (r: Option<nat>)
    requires p <= |line|
    ensures !KeywordAt(line, p, "CHECK") ==> r.None?
    ensures KeywordAt(line, p, "CHECK") ==>
      var a := SkipSpace(line, p + 5);
      (r.Some? <==> a + 1 < |line| && line[a] == '(' && line[a + 1] != ')' && FindChar(line, a + 1, ')').Some?)
      && (r.Some? ==> r == FindChar(line, a + 1, ')'))
    ensures r.Some? ==> p + 5 < r.value < |line| && line[r.value] == ')'
    ensures r.Some? ==> forall k :: p <= k < r.value ==> line[k] != ')'
  {
    if !KeywordAt(line, p, "CHECK") then None
    else
      var a := SkipSpace(line, p + 5);
      if a == |line| || line[a] != '(' then None
      else
        match FindChar(line, a + 1, ')')
        case None => None
        case Some(q) =>
          if q == a + 1 then None
          else
            assert forall k :: p <= k < p + 5 ==> line[k] != ')' by {
              forall k | p <= k < p + 5
                ensures line[k] != ')'
              {
                assert UpperChar(line[k]) == "CHECK"[k - p];
              }
            }
            Some(q)
  }

  /**
   * `re.search(...).group(0)` for CHECK: the leftmost match, as written in the
   * fragment (original case), ending at the first `)` after its `(`.
   */
  function SearchCheck(line: string, p: nat): (r: Option<string>)
    requires p <= |line|
    ensures r.Some? ==> KeywordAt(r.value, 0, "CHECK") && r.value[|r.value| - 1] == ')'
    ensures r.Some? ==> forall k :: 0 <= k < |r.value| - 1 ==> r.value[k] != ')'
    ensures r.Some? ==> exists q :: p <= q <= |line| && MatchCheckAt(line, q) == r
                                    && forall k :: p <= k < q ==> MatchCheckAt(line, k).None?
    ensures r.None? ==> forall q :: p <= q <= |line| ==> MatchCheckAt(line, q).None?
  {
    var m := (q: nat) => if q <= |line| then MatchCheckAt(line, q) else None;
    FirstMatchLeftmost(m, p, |line|);
    assert forall q :: p <= q <= |line| ==> m(q) == MatchCheckAt(line, q);
    FirstMatch(m, p, |line|)
  }
}

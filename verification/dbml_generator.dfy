/**
 * The DBML writer of DBML/dbml_generator.py: how a parsed schema is rendered
 * as DBML text, line by line.  Strings are compared and case-mapped as ASCII.
 */
module DbmlGenerator {
  import opened Wrappers
  import opened Text
  import opened Schema
  import opened SqlParser

  // =====================================================================
  // Data types (dbml_generator.py:128-160)

  /** The `type_mapping` table: upper-case PostgreSQL name to DBML name. */
  const TypeMapping: map<string, string> := map[
      "SERIAL" := "int",
      "INTEGER" := "int",
      "BIGINT" := "bigint",
      "SMALLINT" := "smallint",
      "DECIMAL" := "decimal",
      "NUMERIC" := "decimal",
      "REAL" := "float",
      "DOUBLE PRECISION" := "double",
      "BOOLEAN" := "boolean",
      "CHAR" := "char",
      "VARCHAR" := "varchar",
      "TEXT" := "text",
      "DATE" := "date",
      "TIME" := "time",
      "TIMESTAMP" := "timestamp",
      "TIMESTAMPTZ" := "timestamptz",
      "JSON" := "json",
      "JSONB" := "jsonb"
    ]

  /** `type_mapping[base]` when `base in type_mapping`: the DBML names are all lower case. */
  function MappedType(base: string): (r: Option<string>)
    ensures r.Some? ==> |base| > 0 && HasNoUpper(r.value)
  {
    if base in TypeMapping then Some(TypeMapping[base]) else None
  }

  /** The text before the first `(`: `pg_type.split('(')[0]`. */
  function BeforeParen(s: string): (r: string)
    ensures |r| <= |s| && r == s[..|r|]
    ensures forall k :: 0 <= k < |r| ==> r[k] != '('
    ensures |r| < |s| ==> s[|r|] == '('
  {
    match FindChar(s, 0, '(')
    case Some(i) => s[..i]
    case None => s
  }

  function BaseType(pgType: string): string {
    Upper(BeforeParen(pgType))
  }

  /** `'(' in pg_type`. */
  predicate HasParen(s: string) {
    exists k :: 0 <= k < |s| && s[k] == '('
  }

  /** `s.replace(pat, rep)`: every occurrence of `pat`, taken left to right without overlap. */
  function ReplaceAll(s: string, pat: string, rep: string): (r: string)
    requires |pat| > 0
    ensures HasNoUpper(s) && HasNoUpper(rep) ==> HasNoUpper(r)
    decreases |s|
  {
    if |s| < |pat| then s
    else if s[..|pat|] == pat then rep + ReplaceAll(s[|pat|..], pat, rep)
    else [s[0]] + ReplaceAll(s[1..], pat, rep)
  }

  /** Text in which `pat` never occurs comes back unchanged. */
  lemma {:induction false} ReplaceAllAbsent(s: string, pat: string, rep: string)
    requires |pat| > 0 && !Contains(s, pat)
    ensures ReplaceAll(s, pat, rep) == s
    decreases |s|
  {
    if |s| >= |pat| {
      assert !MatchAt(s, 0, pat);
      assert !Contains(s[1..], pat) by {
        if Contains(s[1..], pat) {
          var i :| 0 <= i <= |s[1..]| - |pat| && MatchAt(s[1..], i, pat);
          assert s[1..][i..i + |pat|] == s[i + 1..i + 1 + |pat|];
          assert MatchAt(s, i + 1, pat);
          assert false;
        }
      }
      ReplaceAllAbsent(s[1..], pat, rep);
      assert [s[0]] + s[1..] == s;
    }
  }

  /** `_convert_data_type`: the result never holds an upper-case letter. */
  function ConvertDataType(pgType: string): (r: string)
    ensures HasNoUpper(r)
  {
    var base := BaseType(pgType);
    match MappedType(base)
    case Some(dbml) =>
      if HasParen(pgType) then ReplaceAll(Lower(pgType), Lower(base), dbml) else dbml
    case None => Lower(pgType)
  }

  /** ASCII case mapping: lower-casing forgets whatever upper-casing forgets. */
  lemma LowerUpper(s: string)
    ensures Lower(Upper(s)) == Lower(s)
  {
  }

  lemma LowerSplit(a: string, b: string)
    ensures Lower(a + b) == Lower(a) + Lower(b)
  {
  }

  /**
   * A mapped base name with a parameter list: the base name becomes the DBML
   * name, and the lower-cased rest follows, with any further occurrence of the
   * base name replaced as well.
   */
  lemma {:induction false} ConvertWithParameters(pgType: string)
    requires MappedType(BaseType(pgType)).Some? && HasParen(pgType)
    ensures var base := BaseType(pgType);
      var dbml := MappedType(base).value;
      ConvertDataType(pgType) == dbml + ReplaceAll(Lower(pgType[|BeforeParen(pgType)|..]), Lower(base), dbml)
  {
    var base := BaseType(pgType);
    var dbml := MappedType(base).value;
    var head := BeforeParen(pgType);
    var rest := pgType[|head|..];
    assert pgType == head + rest;
    LowerSplit(head, rest);
    LowerUpper(head);
    var low := Lower(pgType);
    var pat := Lower(base);
    assert |pat| == |head|;
    assert low[..|pat|] == pat;
    assert low[|pat|..] == Lower(rest);
    assert ReplaceAll(low, pat, dbml) == dbml + ReplaceAll(low[|pat|..], pat, dbml);
  }

  /** So `VARCHAR(100)` becomes `varchar(100)` and `NUMERIC(10,2)` becomes `decimal(10,2)`. */
  lemma ConvertKeepsParameters(pgType: string)
    requires MappedType(BaseType(pgType)).Some? && HasParen(pgType)
    requires !Contains(Lower(pgType[|BeforeParen(pgType)|..]), Lower(BaseType(pgType)))
    ensures ConvertDataType(pgType) == MappedType(BaseType(pgType)).value + Lower(pgType[|BeforeParen(pgType)|..])
  {
    ConvertWithParameters(pgType);
    ReplaceAllAbsent(Lower(pgType[|BeforeParen(pgType)|..]), Lower(BaseType(pgType)), MappedType(BaseType(pgType)).value);
  }

  /** A mapped name without parameters is replaced by the DBML name alone. */
  lemma ConvertPlainMapped(pgType: string)
    requires MappedType(BaseType(pgType)).Some? && !HasParen(pgType)
    ensures ConvertDataType(pgType) == MappedType(BaseType(pgType)).value
    ensures BaseType(pgType) == Upper(pgType)
  {
  }

  /** A name that is not in the table is only lower-cased. */
  lemma ConvertUnmapped(pgType: string)
    requires MappedType(BaseType(pgType)).None?
    ensures ConvertDataType(pgType) == Lower(pgType)
  {
  }

  /** The conversion ignores the case of its input. */
  lemma ConvertIgnoresCase(pgType: string)
    ensures ConvertDataType(Lower(pgType)) == ConvertDataType(pgType)
  {
    var low := Lower(pgType);
    var head := BeforeParen(pgType);
    assert forall k :: 0 <= k < |low| ==> (low[k] == '(' <==> pgType[k] == '(');
    assert HasParen(low) <==> HasParen(pgType) by {
      if HasParen(pgType) {
        var k :| 0 <= k < |pgType| && pgType[k] == '(';
        assert low[k] == '(';
      }
      if HasParen(low) {
        var k :| 0 <= k < |low| && low[k] == '(';
        assert pgType[k] == '(';
      }
    }
    assert BeforeParen(low) == Lower(head);
    assert BaseType(low) == BaseType(pgType);
    assert Lower(low) == low;
  }

  // =====================================================================
  // Default values (dbml_generator.py:162-176)

  /** `str.isdigit()`, for ASCII digits. */
  predicate IsDigitString(s: string) {
    |s| > 0 && AllDigits(s)
  }

  /** `_format_default_value`: the stripped value, recognised case-insensitively. */
  function FormatDefaultValue(defaultValue: string): (r: string)
    ensures var s := PyStrip(defaultValue);
      (Upper(s) == "CURRENT_TIMESTAMP" || Upper(s) == "CURRENT_DATE") ==> r == "`now()`"
    ensures var s := PyStrip(defaultValue);
      IsDigitString(s) ==> r == s
    ensures var s := PyStrip(defaultValue);
      !IsDigitString(s) && Upper(s) !in ["CURRENT_TIMESTAMP", "CURRENT_DATE", "TRUE", "FALSE"] ==> r == "\"" + s + "\""
  {
    FormatStripped(PyStrip(defaultValue))
  }

  /** The formatting applied once the value is stripped. */
  function FormatStripped(s: string): (r: string)
    ensures (Upper(s) == "CURRENT_TIMESTAMP" || Upper(s) == "CURRENT_DATE") ==> r == "`now()`"
    ensures (Upper(s) == "TRUE" || Upper(s) == "FALSE") ==> r == Lower(s)
    ensures IsDigitString(s) ==> r == s
    ensures !IsDigitString(s) && Upper(s) !in ["CURRENT_TIMESTAMP", "CURRENT_DATE", "TRUE", "FALSE"] ==> r == "\"" + s + "\""
  {
    DigitsAreNoKeyword(s);
    var up := Upper(s);
    if up == "CURRENT_TIMESTAMP" || up == "CURRENT_DATE" then "`now()`"
    else if up in ["TRUE", "FALSE"] then Lower(s)
    else if IsDigitString(s) then s
    else "\"" + s + "\""
  }

  /** A digit string is none of the recognised keywords, in any case. */
  lemma DigitsAreNoKeyword(s: string)
    ensures IsDigitString(s) ==> Upper(s) !in ["CURRENT_TIMESTAMP", "CURRENT_DATE", "TRUE", "FALSE"]
  {
    if IsDigitString(s) {
      assert IsDigit(Upper(s)[0]);
    }
  }

  /** Lower-casing a string whose upper-case form is known. */
  lemma {:induction false} LowerOfKnownUpper(s: string, up: string, low: string)
    requires Upper(s) == up && |low| == |up|
    requires forall i :: 0 <= i < |up| ==> LowerChar(up[i]) == low[i]
    ensures Lower(s) == low
  {
    forall i | 0 <= i < |s| ensures Lower(s)[i] == low[i] {
      assert LowerChar(UpperChar(s[i])) == LowerChar(s[i]);
    }
  }

  /** A boolean default comes out as `true` whatever its case. */
  lemma FormatTrue(defaultValue: string)
    requires Upper(PyStrip(defaultValue)) == "TRUE"
    ensures FormatDefaultValue(defaultValue) == "true"
  {
    FormatTrueStripped(PyStrip(defaultValue));
  }

  lemma FormatTrueStripped(s: string)
    requires Upper(s) == "TRUE"
    ensures FormatStripped(s) == "true"
  {
    LowerOfKnownUpper(s, "TRUE", "true");
  }

  /** A boolean default comes out as `false` whatever its case. */
  lemma FormatFalse(defaultValue: string)
    requires Upper(PyStrip(defaultValue)) == "FALSE"
    ensures FormatDefaultValue(defaultValue) == "false"
  {
    FormatFalseStripped(PyStrip(defaultValue));
  }

  lemma FormatFalseStripped(s: string)
    requires Upper(s) == "FALSE"
    ensures FormatStripped(s) == "false"
  {
    LowerOfKnownUpper(s, "FALSE", "false");
  }

  // =====================================================================
  // One column (dbml_generator.py:88-126)

  /** The attributes DBML accepts inside `[...]`. */
  datatype Attribute = Pk | Unique

  function AttributeText(a: Attribute): string {
    match a
    case Pk => "pk"
    case Unique => "unique"
  }

  /** The `[...]` attributes of a column: `pk` first, then `unique`. */
  function ColumnAttributes(c: Column): (r: seq<Attribute>)
    ensures |r| <= 2
    ensures Pk in r <==> c.isPrimaryKey
    ensures Unique in r <==> "UNIQUE" in c.constraints
    ensures |r| == 2 ==> r == [Pk, Unique]
  {
    (if c.isPrimaryKey then [Pk] else []) + (if "UNIQUE" in c.constraints then [Unique] else [])
  }

  /** The kinds of note a column line can carry, in the order they are added. */
  datatype NotePart =
    | ForeignKeyNote(table: Option<string>, column: Option<string>)
    | NotNullNote
    | DefaultNote(formatted: string)
    | CheckNote

  function NoteRank(p: NotePart): nat {
    match p
    case ForeignKeyNote(_, _) => 0
    case NotNullNote => 1
    case DefaultNote(_) => 2
    case CheckNote => 3
  }

  /** How Python prints an optional string inside an f-string. */
  function ShowOptional(o: Option<string>): string {
    match o
    case Some(v) => v
    case None => "None"
  }

  function NoteText(p: NotePart): string {
    match p
    case ForeignKeyNote(t, col) => "FK -> " + ShowOptional(t) + "." + ShowOptional(col)
    case NotNullNote => "NOT NULL"
    case DefaultNote(v) => "default: " + v
    case CheckNote => "has constraints"
  }

  /** A present and non-empty default, which is what Python's truth test on it asks. */
  predicate HasDefault(c: Column) {
    c.defaultValue.Some? && c.defaultValue.value != ""
  }

  /** The default note's text, when the column has a non-empty default. */
  function DefaultText(c: Column): Option<string> {
    if HasDefault(c) then Some(FormatDefaultValue(c.defaultValue.value)) else None
  }

  /** `'CHECK' in ' '.join(column.constraints)`. */
  predicate HasCheck(c: Column) {
    Contains(Join(c.constraints, " "), "CHECK")
  }

  /** The note parts in the order `_generate_column_dbml` adds them, each only when its condition holds. */
  function NotesFrom(foreignKey: Option<NotePart>, notNull: bool, default: Option<string>, check: bool): seq<NotePart> {
    (if foreignKey.Some? then [foreignKey.value] else [])
    + (if notNull then [NotNullNote] else [])
    + (if default.Some? then [DefaultNote(default.value)] else [])
    + (if check then [CheckNote] else [])
  }

  /** The note of a column. */
  function ColumnNoteParts(c: Column): seq<NotePart> {
    NotesFrom(if c.isForeignKey then Some(ForeignKeyNote(c.referencesTable, c.referencesColumn)) else None,
              c.isNotNull && !c.isPrimaryKey, DefaultText(c), HasCheck(c))
  }

  lemma NotesFromOrdered(fk: Option<NotePart>, notNull: bool, default: Option<string>, check: bool)
    requires fk.Some? ==> fk.value.ForeignKeyNote?
    ensures var r := NotesFrom(fk, notNull, default, check);
      |r| <= 4 && forall i, j :: 0 <= i < j < |r| ==> NoteRank(r[i]) < NoteRank(r[j])
  {
  }

  /** The parts come in the fixed order foreign key, `NOT NULL`, default, check, each at most once. */
  lemma NotePartsOrdered(c: Column)
    ensures var r := ColumnNoteParts(c);
      |r| <= 4 && forall i, j :: 0 <= i < j < |r| ==> NoteRank(r[i]) < NoteRank(r[j])
  {
    NotesFromOrdered(if c.isForeignKey then Some(ForeignKeyNote(c.referencesTable, c.referencesColumn)) else None,
                     c.isNotNull && !c.isPrimaryKey, DefaultText(c), HasCheck(c));
  }

  /** The `FK ->` note, naming the referenced table and column, exactly for foreign-key columns. */
  lemma ForeignKeyNoted(c: Column)
    ensures ForeignKeyNote(c.referencesTable, c.referencesColumn) in ColumnNoteParts(c) <==> c.isForeignKey
  {
  }

  /** `NOT NULL` is noted only for columns that are not primary keys. */
  lemma NotNullNoted(c: Column)
    ensures NotNullNote in ColumnNoteParts(c) <==> c.isNotNull && !c.isPrimaryKey
  {
  }

  /** A non-empty default is noted, formatted; an absent or empty one is not. */
  lemma DefaultNoted(c: Column)
    ensures HasDefault(c) ==> DefaultNote(FormatDefaultValue(c.defaultValue.value)) in ColumnNoteParts(c)
    ensures !HasDefault(c) ==> forall p :: p in ColumnNoteParts(c) ==> !p.DefaultNote?
  {
  }

  /** `has constraints` is noted when `CHECK` occurs anywhere in the space-joined constraints. */
  lemma CheckNoted(c: Column)
    ensures CheckNote in ColumnNoteParts(c) <==> HasCheck(c)
  {
  }

  function AttributeTexts(attrs: seq<Attribute>): (r: seq<string>)
    ensures |r| == |attrs|
  {
    seq(|attrs|, k requires 0 <= k < |attrs| => AttributeText(attrs[k]))
  }

  function NoteTexts(parts: seq<NotePart>): (r: seq<string>)
    ensures |r| == |parts|
  {
    seq(|parts|, k requires 0 <= k < |parts| => NoteText(parts[k]))
  }

  /** ` [a, b]`, or nothing when there are no attributes. */
  function AttributeSuffix(attrs: seq<Attribute>): (r: string)
    ensures r == "" <==> attrs == []
    ensures attrs != [] ==> |r| >= 3 && r[..2] == " [" && r[|r| - 1] == ']'
  {
    if attrs != [] then " [" + Join(AttributeTexts(attrs), ", ") + "]" else ""
  }

  /** ` // a, b`, or nothing when there are no note parts. */
  function NoteSuffix(parts: seq<NotePart>): (r: string)
    ensures r == "" <==> parts == []
    ensures parts != [] ==> |r| >= 4 && r[..4] == " // "
  {
    if parts != [] then " // " + Join(NoteTexts(parts), ", ") else ""
  }

  function ColumnHead(c: Column): string {
    c.name + " " + ConvertDataType(c.dataType)
  }

  /** A column line from its head, its attributes and its note parts. */
  function RenderColumn(head: string, attrs: seq<Attribute>, notes: seq<NotePart>): string {
    head + AttributeSuffix(attrs) + NoteSuffix(notes)
  }

  /** `_generate_column_dbml`. */
  function ColumnDbml(c: Column): string {
    RenderColumn(ColumnHead(c), ColumnAttributes(c), ColumnNoteParts(c))
  }

  lemma RenderColumnShape(head: string, attrs: seq<Attribute>, notes: seq<NotePart>)
    ensures var line := RenderColumn(head, attrs, notes);
      var n := |head|;
      |head| <= |line| && line[..n] == head
      && (attrs != [] <==> |line| >= n + 2 && line[n..n + 2] == " [")
      && (attrs == [] && notes == [] ==> line == head)
  {
    var a := AttributeSuffix(attrs);
    var b := NoteSuffix(notes);
    assert RenderColumn(head, attrs, notes) == head + a + b;
    SuffixShape(head, a, b);
  }

  /** A head followed by an optional ` [` part and an optional ` // ` part. */
  lemma SuffixShape(head: string, a: string, b: string)
    requires a != "" ==> |a| >= 2 && a[..2] == " ["
    requires b != "" ==> |b| >= 4 && b[..4] == " // "
    ensures var line := head + a + b;
      var n := |head|;
      |head| <= |line| && line[..n] == head
      && (a != "" <==> |line| >= n + 2 && line[n..n + 2] == " [")
      && (a == "" && b == "" ==> line == head)
  {
    var line := head + a + b;
    var n := |head|;
    assert line == head + (a + b);
    if a != "" {
      assert line[n..n + 2] == a[..2];
    } else if b != "" {
      assert line[n..n + 2] == b[..2];
      assert b[1] == '/';
    }
  }


  /** A column line starts with the column name and its DBML type. */
  lemma ColumnDbmlStartsWithHead(c: Column)
    ensures |ColumnHead(c)| <= |ColumnDbml(c)| && ColumnDbml(c)[..|ColumnHead(c)|] == ColumnHead(c)
  {
    RenderColumnShape(ColumnHead(c), ColumnAttributes(c), ColumnNoteParts(c));
  }

  /** ` [` follows the type exactly when the column is a primary key or `UNIQUE`. */
  lemma ColumnDbmlBracket(c: Column)
    ensures var n := |ColumnHead(c)|;
      c.isPrimaryKey || "UNIQUE" in c.constraints <==> |ColumnDbml(c)| >= n + 2 && ColumnDbml(c)[n..n + 2] == " ["
  {
    var attrs := ColumnAttributes(c);
    RenderColumnShape(ColumnHead(c), attrs, ColumnNoteParts(c));
    assert attrs != [] <==> c.isPrimaryKey || "UNIQUE" in c.constraints;
  }

  /** A column with no attributes and nothing to note is its name and type alone. */
  lemma ColumnDbmlPlain(c: Column)
    requires !c.isPrimaryKey && "UNIQUE" !in c.constraints && !c.isForeignKey && !c.isNotNull
    requires !HasDefault(c) && !HasCheck(c)
    ensures ColumnDbml(c) == ColumnHead(c)
  {
    RenderColumnShape(ColumnHead(c), ColumnAttributes(c), ColumnNoteParts(c));
  }

  // =====================================================================
  // Table notes (dbml_generator.py:178-201)

  /** The `table_notes` dictionary. */
  const TableNotes: map<string, string> := map[
      "product_categories" := "Danh m\U{1EE5}c s\U{1EA3}n ph\U{1EA9}m",
      "suppliers" := "Nh\U{00E0} cung c\U{1EA5}p",
      "products" := "S\U{1EA3}n ph\U{1EA9}m",
      "discount_rules" := "Quy t\U{1EAF}c gi\U{1EA3}m gi\U{00E1}",
      "warehouse" := "Kho h\U{00E0}ng",
      "warehouse_inventory" := "T\U{1ED3}n kho trong kho",
      "display_shelves" := "Qu\U{1EA7}y h\U{00E0}ng tr\U{01B0}ng b\U{00E0}y",
      "shelf_layout" := "B\U{1ED1} tr\U{00ED} s\U{1EA3}n ph\U{1EA9}m tr\U{00EA}n qu\U{1EA7}y",
      "shelf_inventory" := "T\U{1ED3}n kho tr\U{00EA}n qu\U{1EA7}y",
      "positions" := "V\U{1ECB} tr\U{00ED} c\U{00F4}ng vi\U{1EC7}c",
      "employees" := "Nh\U{00E2}n vi\U{00EA}n",
      "employee_work_hours" := "Gi\U{1EDD} l\U{00E0}m vi\U{1EC7}c nh\U{00E2}n vi\U{00EA}n",
      "membership_levels" := "H\U{1EA1}ng th\U{00E0}nh vi\U{00EA}n",
      "customers" := "Kh\U{00E1}ch h\U{00E0}ng",
      "sales_invoices" := "H\U{00F3}a \U{0111}\U{01A1}n b\U{00E1}n h\U{00E0}ng",
      "sales_invoice_details" := "Chi ti\U{1EBF}t h\U{00F3}a \U{0111}\U{01A1}n",
      "purchase_orders" := "\U{0110}\U{01A1}n \U{0111}\U{1EB7}t h\U{00E0}ng",
      "purchase_order_details" := "Chi ti\U{1EBF}t \U{0111}\U{01A1}n h\U{00E0}ng",
      "stock_transfers" := "Chuy\U{1EC3}n kho"
    ]

  /** `table_notes.get(name)`: a note is never empty. */
  function NoteOf(name: string): (r: Option<string>)
    ensures r.Some? ==> r.value != ""
  {
    if name in TableNotes then Some(TableNotes[name]) else None
  }

  /** `_get_table_note`: empty exactly for the tables without a note. */
  function TableNote(name: string): (r: string)
    ensures r == "" <==> NoteOf(name).None?
  {
    match NoteOf(name)
    case Some(note) => note
    case None => ""
  }

  // =====================================================================
  // One table (dbml_generator.py:55-86)

  /** `prefix + x` for each `x`, in order. */
  function Prefixed(prefix: string, xs: seq<string>): (r: seq<string>)
    ensures |r| == |xs|
  {
    if |xs| == 0 then [] else Prefixed(prefix, xs[..|xs| - 1]) + [prefix + xs[|xs| - 1]]
  }

  lemma {:induction false} PrefixedAt(prefix: string, xs: seq<string>, k: nat)
    requires k < |xs|
    ensures Prefixed(prefix, xs)[k] == prefix + xs[k]
  {
    if k < |xs| - 1 {
      PrefixedAt(prefix, xs[..|xs| - 1], k);
    }
  }

  lemma PrefixedStep(prefix: string, xs: seq<string>, x: string)
    ensures Prefixed(prefix, xs + [x]) == Prefixed(prefix, xs) + [prefix + x]
  {
    assert (xs + [x])[..|xs|] == xs;
  }

  function NoteBlock(note: string): (r: seq<string>)
    ensures |r| <= 1 && (|r| == 1 <==> note != "")
  {
    if note != "" then ["  Note: \"" + note + "\""] else []
  }

  function ConstraintBlock(constraints: seq<string>): (r: seq<string>)
    ensures constraints == [] ==> r == []
    ensures constraints != [] ==> |r| == |constraints| + 2
  {
    if constraints != [] then ["", "  // Table constraints"] + Prefixed("  // ", constraints) else []
  }

  function IndexBlock(indexes: seq<string>): (r: seq<string>)
    ensures indexes == [] ==> r == []
    ensures indexes != [] ==> |r| == |indexes| + 3 && r[|r| - 1] == "  }"
  {
    if indexes != [] then ["", "  Indexes {"] + Prefixed("    ", indexes) + ["  }"] else []
  }

  /** The lines of one table, given its note and the texts of its columns. */
  function TableLayout(name: string, note: string, columnTexts: seq<string>, constraints: seq<string>,
                       indexes: seq<string>): seq<string> {
    ["Table " + name + " {"] + NoteBlock(note) + Prefixed("  ", columnTexts)
    + ConstraintBlock(constraints) + IndexBlock(indexes) + ["}"]
  }

  /** A table opens with its header, closes with `}`, and has one line per column plus its blocks. */
  lemma TableLayoutFrame(name: string, note: string, columnTexts: seq<string>, constraints: seq<string>,
                         indexes: seq<string>)
    ensures var lines := TableLayout(name, note, columnTexts, constraints, indexes);
      |lines| == 2 + |NoteBlock(note)| + |columnTexts| + |ConstraintBlock(constraints)| + |IndexBlock(indexes)|
      && lines[0] == "Table " + name + " {" && lines[|lines| - 1] == "}"
  {
  }

  /** The `Note:` line follows the header exactly when the note is not empty. */
  lemma TableLayoutNote(name: string, note: string, columnTexts: seq<string>, constraints: seq<string>,
                        indexes: seq<string>)
    ensures var lines := TableLayout(name, note, columnTexts, constraints, indexes);
      (note != "" ==> lines[1] == "  Note: \"" + note + "\"")
      && (note == "" ==> lines[1..] == Prefixed("  ", columnTexts) + ConstraintBlock(constraints) + IndexBlock(indexes) + ["}"])
  {
    AppendAfterTwo(["Table " + name + " {"], NoteBlock(note), Prefixed("  ", columnTexts), ConstraintBlock(constraints),
                   IndexBlock(indexes), ["}"]);
  }

  /** Column `k` is written on its own line, in column order, right after the header and the note. */
  lemma TableLayoutColumn(name: string, note: string, columnTexts: seq<string>, constraints: seq<string>,
                          indexes: seq<string>, k: nat)
    requires k < |columnTexts|
    ensures var lines := TableLayout(name, note, columnTexts, constraints, indexes);
      1 + |NoteBlock(note)| + k < |lines| && lines[1 + |NoteBlock(note)| + k] == "  " + columnTexts[k]
  {
    var head := ["Table " + name + " {"] + NoteBlock(note);
    var x := head + Prefixed("  ", columnTexts);
    var lines := TableLayout(name, note, columnTexts, constraints, indexes);
    assert lines == x + ConstraintBlock(constraints) + IndexBlock(indexes) + ["}"];
    assert lines[|head| + k] == x[|head| + k];
    PrefixedAt("  ", columnTexts, k);
  }

  /** The column texts, in column order. */
  function ColumnTexts(cols: seq<Column>): (r: seq<string>)
    ensures |r| == |cols|
  {
    if |cols| == 0 then [] else ColumnTexts(cols[..|cols| - 1]) + [ColumnDbml(cols[|cols| - 1])]
  }

  /** The lines `_generate_table_dbml` joins. */
  function TableLines(t: Table): seq<string> {
    TableLayout(t.name, TableNote(t.name), ColumnTexts(t.columns), t.constraints, t.indexes)
  }

  /** Line `1 + n + k` of a table, `n` being its number of note lines, is the text of column `k`. */
  lemma TableColumnText(t: Table, k: nat)
    requires k < |t.columns|
    ensures var n := |NoteBlock(TableNote(t.name))|;
      1 + n + k < |TableLines(t)| && TableLines(t)[1 + n + k] == "  " + ColumnTexts(t.columns)[k]
  {
    TableLayoutColumn(t.name, TableNote(t.name), ColumnTexts(t.columns), t.constraints, t.indexes, k);
  }

  /** So column `k` of a table is rendered on line `1 + k` of an unnoted table, `2 + k` of a noted one. */
  lemma TableColumnLine(t: Table, k: nat)
    requires k < |t.columns|
    ensures var n := if NoteOf(t.name).Some? then 1 else 0;
      1 + n + k < |TableLines(t)| && TableLines(t)[1 + n + k] == "  " + ColumnDbml(t.columns[k])
  {
    TableColumnText(t, k);
    NoteLineCount(t.name);
    ColumnTextAt(t.columns, k);
  }

  lemma NoteLineCount(name: string)
    ensures |NoteBlock(TableNote(name))| == if NoteOf(name).Some? then 1 else 0
  {
  }

  lemma {:induction false} ColumnTextAt(cols: seq<Column>, k: nat)
    requires k < |cols|
    ensures ColumnTexts(cols)[k] == ColumnDbml(cols[k])
  {
    if k < |cols| - 1 {
      ColumnTextAt(cols[..|cols| - 1], k);
    }
  }

  lemma ColumnTextsStep(cols: seq<Column>, c: Column)
    ensures ColumnTexts(cols + [c]) == ColumnTexts(cols) + [ColumnDbml(c)]
  {
    assert (cols + [c])[..|cols|] == cols;
  }

  // =====================================================================
  // Relationships (dbml_generator.py:39-51, 203-275)

  /** One `{from_table, from_column, to_table, to_column}` entry. */
  datatype Ref = Ref(fromTable: string, fromColumn: string, toTable: string, toColumn: string)

  function RefOf(t: Table, fk: ForeignKey): Ref {
    Ref(t.name, fk.column, fk.referencesTable, fk.referencesColumn)
  }

  function RefsOfTable(t: Table): (r: seq<Ref>)
    ensures |r| == |t.foreignKeys|
  {
    seq(|t.foreignKeys|, k requires 0 <= k < |t.foreignKeys| => RefOf(t, t.foreignKeys[k]))
  }

  /** `_get_auto_relationships`: one entry per foreign key, table by table. */
  function AutoRelationships(ts: seq<Table>): (r: seq<Ref>)
    ensures |r| == ForeignKeyCount(ts)
  {
    if |ts| == 0 then [] else AutoRelationships(ts[..|ts| - 1]) + RefsOfTable(ts[|ts| - 1])
  }

  /** They are the parser's relationships without the constraint names. */
  lemma {:induction false} AutoRelationshipsAreParserRelationships(ts: seq<Table>)
    ensures |AutoRelationships(ts)| == |Relationships(ts)|
    ensures forall k :: 0 <= k < |Relationships(ts)| ==>
      AutoRelationships(ts)[k] == Ref(Relationships(ts)[k].fromTable, Relationships(ts)[k].fromColumn,
        Relationships(ts)[k].toTable, Relationships(ts)[k].toColumn)
  {
    if |ts| > 0 {
      var init := ts[..|ts| - 1];
      var t := ts[|ts| - 1];
      AutoRelationshipsAreParserRelationships(init);
      var a := AutoRelationships(ts);
      var b := Relationships(ts);
      forall k | 0 <= k < |b|
        ensures a[k] == Ref(b[k].fromTable, b[k].fromColumn, b[k].toTable, b[k].toColumn)
      {
        if k < |Relationships(init)| {
          assert a[k] == AutoRelationships(init)[k] && b[k] == Relationships(init)[k];
        } else {
          var j := k - |Relationships(init)|;
          assert a[k] == RefsOfTable(t)[j] && b[k] == RelationshipsOfTable(t)[j];
        }
      }
    }
  }

  /** The fallback list used when no foreign key was parsed. */
  const ManualRelationships: seq<Ref> := [
    Ref("products", "category_id", "product_categories", "category_id"),
    Ref("products", "supplier_id", "suppliers", "supplier_id"),
    Ref("discount_rules", "category_id", "product_categories", "category_id"),
    Ref("warehouse_inventory", "warehouse_id", "warehouse", "warehouse_id"),
    Ref("warehouse_inventory", "product_id", "products", "product_id"),
    Ref("display_shelves", "category_id", "product_categories", "category_id"),
    Ref("shelf_layout", "shelf_id", "display_shelves", "shelf_id"),
    Ref("shelf_layout", "product_id", "products", "product_id"),
    Ref("shelf_inventory", "shelf_id", "display_shelves", "shelf_id"),
    Ref("shelf_inventory", "product_id", "products", "product_id"),
    Ref("employees", "position_id", "positions", "position_id"),
    Ref("employee_work_hours", "employee_id", "employees", "employee_id"),
    Ref("customers", "membership_level_id", "membership_levels", "level_id"),
    Ref("sales_invoices", "customer_id", "customers", "customer_id"),
    Ref("sales_invoices", "employee_id", "employees", "employee_id"),
    Ref("sales_invoice_details", "invoice_id", "sales_invoices", "invoice_id"),
    Ref("sales_invoice_details", "product_id", "products", "product_id"),
    Ref("purchase_orders", "supplier_id", "suppliers", "supplier_id"),
    Ref("purchase_orders", "employee_id", "employees", "employee_id"),
    Ref("purchase_order_details", "order_id", "purchase_orders", "order_id"),
    Ref("purchase_order_details", "product_id", "products", "product_id"),
    Ref("stock_transfers", "product_id", "products", "product_id"),
    Ref("stock_transfers", "from_warehouse_id", "warehouse", "warehouse_id"),
    Ref("stock_transfers", "to_shelf_id", "display_shelves", "shelf_id"),
    Ref("stock_transfers", "employee_id", "employees", "employee_id")]

  /** The parsed relationships when there are any, the manual list otherwise. */
  function ChosenRelationships(ts: seq<Table>): (r: seq<Ref>)
    ensures ForeignKeyCount(ts) > 0 ==> r == AutoRelationships(ts)
    ensures ForeignKeyCount(ts) == 0 ==> r == ManualRelationships
  {
    var auto := AutoRelationships(ts);
    if |auto| > 0 then auto else ManualRelationships
  }

  function RefLine(r: Ref): string {
    "Ref: " + r.fromTable + "." + r.fromColumn + " > " + r.toTable + "." + r.toColumn
  }

  function RefLines(rs: seq<Ref>): (r: seq<string>)
    ensures |r| == |rs|
  {
    if |rs| == 0 then [] else RefLines(rs[..|rs| - 1]) + [RefLine(rs[|rs| - 1])]
  }

  lemma {:induction false} RefLineAt(rs: seq<Ref>, k: nat)
    requires k < |rs|
    ensures RefLines(rs)[k] == RefLine(rs[k])
  {
    if k < |rs| - 1 {
      RefLineAt(rs[..|rs| - 1], k);
    }
  }

  // =====================================================================
  // The whole document (dbml_generator.py:13-53, 318-323)

  const ProjectName: string := "Supermarket Database"
  const ProjectNote: string := "H\U{1EC7} th\U{1ED1}ng qu\U{1EA3}n l\U{00FD} si\U{00EA}u th\U{1ECB} b\U{00E1}n l\U{1EBB}"

  function HeaderLines(): (r: seq<string>)
    ensures |r| == 5
  {
    ["Project \"" + ProjectName + "\" {", "  database_type: \"PostgreSQL\"", "  Note: \"" + ProjectNote + "\"", "}", ""]
  }

  /** The table texts, in table order. */
  function TableTexts(ts: seq<Table>): (r: seq<string>)
    ensures |r| == |ts|
  {
    if |ts| == 0 then [] else TableTexts(ts[..|ts| - 1]) + [Join(TableLines(ts[|ts| - 1]), "\n")]
  }

  lemma TableTextsStep(ts: seq<Table>, t: Table)
    ensures TableTexts(ts + [t]) == TableTexts(ts) + [Join(TableLines(t), "\n")]
  {
    assert (ts + [t])[..|ts|] == ts;
  }

  /** Each text followed by an empty line. */
  function Blocks(texts: seq<string>): (r: seq<string>)
    ensures |r| == 2 * |texts|
  {
    if |texts| == 0 then []
    else Blocks(texts[..|texts| - 1]) + [texts[|texts| - 1], ""]
  }

  lemma {:induction false} BlockAt(texts: seq<string>, k: nat)
    requires k < |texts|
    ensures Blocks(texts)[2 * k] == texts[k] && Blocks(texts)[2 * k + 1] == ""
  {
    if k < |texts| - 1 {
      BlockAt(texts[..|texts| - 1], k);
    }
  }

  lemma BlocksStep(texts: seq<string>, x: string)
    ensures Blocks(texts + [x]) == Blocks(texts) + [x, ""]
  {
    assert (texts + [x])[..|texts|] == texts;
  }

  /** The lines of the document, given the table texts and the relationships to write. */
  function DocumentLayout(tableTexts: seq<string>, refs: seq<Ref>): seq<string> {
    HeaderLines() + Blocks(tableTexts) + ["// Relationships"] + RefLines(refs)
  }

  /** Each table's text sits after the five header lines, in table order, followed by an empty line. */
  lemma DocumentTableLine(tableTexts: seq<string>, refs: seq<Ref>, k: nat)
    requires k < |tableTexts|
    ensures var lines := DocumentLayout(tableTexts, refs);
      5 + 2 * k + 1 < |lines| && lines[5 + 2 * k] == tableTexts[k] && lines[5 + 2 * k + 1] == ""
  {
    var tail := ["// Relationships"] + RefLines(refs);
    assert DocumentLayout(tableTexts, refs) == HeaderLines() + Blocks(tableTexts) + tail;
    BlockAt(tableTexts, k);
  }

  /** After the tables comes the `// Relationships` line and then one `Ref:` line per relationship, in order. */
  lemma DocumentRefLines(tableTexts: seq<string>, refs: seq<Ref>)
    ensures var lines := DocumentLayout(tableTexts, refs);
      var start := 5 + 2 * |tableTexts| + 1;
      |lines| == start + |refs| && lines[start - 1] == "// Relationships"
      && forall k :: 0 <= k < |refs| ==> lines[start + k] == RefLine(refs[k])
  {
    var lines := DocumentLayout(tableTexts, refs);
    var start := 5 + 2 * |tableTexts| + 1;
    assert lines == (HeaderLines() + Blocks(tableTexts) + ["// Relationships"]) + RefLines(refs);
    forall k | 0 <= k < |refs| ensures lines[start + k] == RefLine(refs[k]) {
      assert lines[start + k] == RefLines(refs)[k];
      RefLineAt(refs, k);
    }
  }

  /** The lines `generate_dbml` joins. */
  function DbmlLines(ts: seq<Table>): seq<string> {
    DocumentLayout(TableTexts(ts), ChosenRelationships(ts))
  }

  /** With parsed foreign keys, the document ends with one `Ref:` line per key, in order. */
  lemma DbmlRefsParsed(ts: seq<Table>)
    requires ForeignKeyCount(ts) > 0
    ensures var lines := DbmlLines(ts);
      var start := 5 + 2 * |ts| + 1;
      |lines| == start + ForeignKeyCount(ts)
      && forall k :: 0 <= k < ForeignKeyCount(ts) ==> lines[start + k] == RefLine(AutoRelationships(ts)[k])
  {
    DbmlLength(ts);
    forall k | 0 <= k < ForeignKeyCount(ts)
      ensures DbmlLines(ts)[5 + 2 * |ts| + 1 + k] == RefLine(AutoRelationships(ts)[k])
    {
      DbmlRefLineAt(ts, k);
    }
  }

  /** Without parsed foreign keys, the document ends with the manual `Ref:` lines instead. */
  lemma DbmlRefsManual(ts: seq<Table>)
    requires ForeignKeyCount(ts) == 0
    ensures var lines := DbmlLines(ts);
      var start := 5 + 2 * |ts| + 1;
      |lines| == start + |ManualRelationships|
      && forall k :: 0 <= k < |ManualRelationships| ==> lines[start + k] == RefLine(ManualRelationships[k])
  {
    DbmlLength(ts);
    forall k | 0 <= k < |ManualRelationships|
      ensures DbmlLines(ts)[5 + 2 * |ts| + 1 + k] == RefLine(ManualRelationships[k])
    {
      DbmlRefLineAt(ts, k);
    }
  }

  /** The document has the five header lines, two lines per table, the `// Relationships` line and the `Ref:` lines. */
  lemma DbmlLength(ts: seq<Table>)
    ensures |DbmlLines(ts)| == 5 + 2 * |ts| + 1 + |ChosenRelationships(ts)|
  {
    DocumentRefLines(TableTexts(ts), ChosenRelationships(ts));
  }

  /** Relationship `k` is written on line `5 + 2 * |ts| + 1 + k`. */
  lemma DbmlRefLineAt(ts: seq<Table>, k: nat)
    requires k < |ChosenRelationships(ts)|
    ensures 5 + 2 * |ts| + 1 + k < |DbmlLines(ts)|
      && DbmlLines(ts)[5 + 2 * |ts| + 1 + k] == RefLine(ChosenRelationships(ts)[k])
  {
    DocumentRefLines(TableTexts(ts), ChosenRelationships(ts));
  }

  lemma RefLinesStep(rs: seq<Ref>, r: Ref)
    ensures RefLines(rs + [r]) == RefLines(rs) + [RefLine(r)]
  {
    assert (rs + [r])[..|rs|] == rs;
  }

  lemma AutoRelationshipsStep(ts: seq<Table>, t: Table)
    ensures AutoRelationships(ts + [t]) == AutoRelationships(ts) + RefsOfTable(t)
  {
    assert (ts + [t])[..|ts|] == ts;
  }

  // =====================================================================
  // Table groups (dbml_generator.py:283-316)

  datatype Group = Group(name: string, members: seq<string>)

  function Groups(): (r: seq<Group>)
    ensures |r| == 6
  {
    [Group("Product Management", ["product_categories", "suppliers", "products", "discount_rules"]),
     Group("Inventory Management", ["warehouse", "warehouse_inventory", "display_shelves",
                                    "shelf_layout", "shelf_inventory", "stock_transfers"]),
     Group("Employee Management", ["positions", "employees", "employee_work_hours"]),
     Group("Customer Management", ["membership_levels", "customers"]),
     Group("Sales Management", ["sales_invoices", "sales_invoice_details"]),
     Group("Purchase Management", ["purchase_orders", "purchase_order_details"])]
  }

  /** `name in self.tables`. */
  predicate HasTable(ts: seq<Table>, name: string) {
    IndexOfName(ts, name).Some?
  }

  /** The members of a group that are loaded tables, in the group's order. */
  function PresentMembers(members: seq<string>, ts: seq<Table>): (r: seq<string>)
    ensures |r| <= |members|
  {
    if |members| == 0 then []
    else
      var m := members[|members| - 1];
      PresentMembers(members[..|members| - 1], ts) + (if HasTable(ts, m) then [m] else [])
  }

  /** A name is listed exactly when it is a member and a loaded table. */
  lemma {:induction false} PresentMembersExactly(members: seq<string>, ts: seq<Table>, m: string)
    ensures m in PresentMembers(members, ts) <==> m in members && HasTable(ts, m)
  {
    if |members| > 0 {
      var init := members[..|members| - 1];
      PresentMembersExactly(init, ts, m);
      assert members == init + [members[|members| - 1]];
    }
  }

  function GroupHeader(g: Group): string {
    "TableGroup \"" + g.name + "\" {"
  }

  function GroupLines(g: Group, ts: seq<Table>): (r: seq<string>)
    ensures |r| == |PresentMembers(g.members, ts)| + 3
  {
    [GroupHeader(g)] + Prefixed("  ", PresentMembers(g.members, ts)) + ["}", ""]
  }

  /** A member's line is in its group's block exactly when the member is a loaded table. */
  lemma GroupListsPresentTables(g: Group, ts: seq<Table>, m: string)
    requires m in g.members
    ensures "  " + m in GroupLines(g, ts) <==> HasTable(ts, m)
  {
    var present := PresentMembers(g.members, ts);
    var body := Prefixed("  ", present);
    assert GroupLines(g, ts) == [GroupHeader(g)] + body + ["}", ""];
    PresentMembersExactly(g.members, ts, m);
    if HasTable(ts, m) {
      var k :| 0 <= k < |present| && present[k] == m;
      PrefixedAt("  ", present, k);
      assert body[k] == "  " + m;
    } else {
      forall k | 0 <= k < |body| ensures body[k] != "  " + m {
        PrefixedAt("  ", present, k);
        assert ("  " + m)[2..] == m && ("  " + present[k])[2..] == present[k];
      }
      assert GroupHeader(g)[0] == 'T';
    }
  }

  /** The lines `generate_table_groups` joins: every group in order, whatever tables exist. */
  function AllGroupLines(groups: seq<Group>, ts: seq<Table>): (r: seq<string>)
    ensures |r| >= 3 * |groups|
  {
    if |groups| == 0 then []
    else AllGroupLines(groups[..|groups| - 1], ts) + GroupLines(groups[|groups| - 1], ts)
  }

  /** Every group's header is written, whether or not any of its tables are loaded. */
  lemma {:induction false} GroupHeaderWritten(groups: seq<Group>, ts: seq<Table>, g: nat)
    requires g < |groups|
    ensures GroupHeader(groups[g]) in AllGroupLines(groups, ts)
  {
    var init := groups[..|groups| - 1];
    if g < |groups| - 1 {
      GroupHeaderWritten(init, ts, g);
      assert init[g] == groups[g];
    } else {
      assert GroupLines(groups[g], ts)[0] == GroupHeader(groups[g]);
    }
  }

  /** With no tables loaded every group is still written, empty. */
  lemma {:induction false} GroupsWithoutTables(groups: seq<Group>)
    ensures |AllGroupLines(groups, [])| == 3 * |groups|
  {
    if |groups| > 0 {
      GroupsWithoutTables(groups[..|groups| - 1]);
      var present := PresentMembers(groups[|groups| - 1].members, []);
      if |present| > 0 {
        PresentMembersExactly(groups[|groups| - 1].members, [], present[0]);
      }
    }
  }

  lemma PresentMembersStep(members: seq<string>, m: string, ts: seq<Table>)
    ensures HasTable(ts, m) ==> PresentMembers(members + [m], ts) == PresentMembers(members, ts) + [m]
    ensures !HasTable(ts, m) ==> PresentMembers(members + [m], ts) == PresentMembers(members, ts)
  {
    assert (members + [m])[..|members|] == members;
    assert PresentMembers(members, ts) + [] == PresentMembers(members, ts);
  }

  lemma AllGroupLinesStep(groups: seq<Group>, g: Group, ts: seq<Table>)
    ensures AllGroupLines(groups + [g], ts) == AllGroupLines(groups, ts) + GroupLines(g, ts)
  {
    assert (groups + [g])[..|groups|] == groups;
  }

  // =====================================================================
  // The generator object

  /** `lines` followed by `prefix + x` for each `x`: the append loops of `_generate_table_dbml`. */
  method AppendPrefixed(lines: seq<string>, prefix: string, xs: seq<string>) returns (out: seq<string>)
    ensures out == lines + Prefixed(prefix, xs)
  {
    out := lines;
    for k := 0 to |xs|
      invariant out == lines + Prefixed(prefix, xs[..k])
    {
      PrefixSnoc(xs, k);
      PrefixedStep(prefix, xs[..k], xs[k]);
      SnocAssoc(lines, Prefixed(prefix, xs[..k]), prefix + xs[k]);
      out := out + [prefix + xs[k]];
    }
    PrefixAll(xs);
  }

  /** The column loop of `_generate_table_dbml`: one `_generate_column_dbml` call per column. */
  method RenderColumns(cols: seq<Column>) returns (texts: seq<string>)
    ensures texts == ColumnTexts(cols)
  {
    texts := [];
    for k := 0 to |cols|
      invariant texts == ColumnTexts(cols[..k])
    {
      PrefixSnoc(cols, k);
      ColumnTextsStep(cols[..k], cols[k]);
      texts := texts + [ColumnDbml(cols[k])];
    }
    PrefixAll(cols);
  }

  /** The `if table.constraints:` block of `_generate_table_dbml`. */
  method AppendConstraintBlock(lines: seq<string>, constraints: seq<string>) returns (out: seq<string>)
    ensures out == lines + ConstraintBlock(constraints)
  {
    out := lines;
    if constraints != [] {
      out := AppendPrefixed(lines + ["", "  // Table constraints"], "  // ", constraints);
    }
  }

  /** The `if table.indexes:` block of `_generate_table_dbml`. */
  method AppendIndexBlock(lines: seq<string>, indexes: seq<string>) returns (out: seq<string>)
    ensures out == lines + IndexBlock(indexes)
  {
    out := lines;
    if indexes != [] {
      out := AppendPrefixed(lines + ["", "  Indexes {"], "    ", indexes);
      out := out + ["  }"];
    }
  }

  /** `_generate_table_dbml`. */
  method GenerateTableDbml(t: Table) returns (r: string)
    ensures r == Join(TableLines(t), "\n")
  {
    var note := TableNote(t.name);
    var lines := ["Table " + t.name + " {"];
    if note != "" {
      lines := lines + ["  Note: \"" + note + "\""];
    }
    assert lines == ["Table " + t.name + " {"] + NoteBlock(note);
    var texts := RenderColumns(t.columns);
    lines := AppendPrefixed(lines, "  ", texts);
    lines := AppendConstraintBlock(lines, t.constraints);
    lines := AppendIndexBlock(lines, t.indexes);
    lines := lines + ["}"];
    r := Join(lines, "\n");
  }

  /** The `Ref:` loop of `generate_dbml`. */
  method AppendRefLines(lines: seq<string>, refs: seq<Ref>) returns (out: seq<string>)
    ensures out == lines + RefLines(refs)
  {
    out := lines;
    for k := 0 to |refs|
      invariant out == lines + RefLines(refs[..k])
    {
      PrefixSnoc(refs, k);
      RefLinesStep(refs[..k], refs[k]);
      SnocAssoc(lines, RefLines(refs[..k]), RefLine(refs[k]));
      out := out + [RefLine(refs[k])];
    }
    PrefixAll(refs);
  }

  /** The inner loop of `generate_table_groups`: one group's block. */
  method WriteGroup(g: Group, ts: seq<Table>) returns (lines: seq<string>)
    ensures lines == GroupLines(g, ts)
  {
    var body: seq<string> := [];
    for k := 0 to |g.members|
      invariant body == Prefixed("  ", PresentMembers(g.members[..k], ts))
    {
      var table := g.members[k];
      PrefixSnoc(g.members, k);
      PresentMembersStep(g.members[..k], table, ts);
      if IndexOfName(ts, table).Some? {
        PrefixedStep("  ", PresentMembers(g.members[..k], ts), table);
        body := body + ["  " + table];
      }
    }
    PrefixAll(g.members);
    lines := [GroupHeader(g)] + body + ["}", ""];
  }

  /** The outer loop of `generate_table_groups`. */
  method WriteGroups(groups: seq<Group>, ts: seq<Table>) returns (lines: seq<string>)
    ensures lines == AllGroupLines(groups, ts)
  {
    lines := [];
    for g := 0 to |groups|
      invariant lines == AllGroupLines(groups[..g], ts)
    {
      var block := WriteGroup(groups[g], ts);
      PrefixSnoc(groups, g);
      AllGroupLinesStep(groups[..g], groups[g], ts);
      lines := lines + block;
    }
    PrefixAll(groups);
  }

  class DBMLGenerator {
    /** `self.tables`, in dictionary order. */
    var tables: seq<Table>

    constructor()
      ensures tables == []
    {
      tables := [];
    }

    /** `load_tables`. */
    method LoadTables(ts: seq<Table>)
      modifies this
      ensures tables == ts
    {
      tables := ts;
    }

    /** `_get_auto_relationships`. */
    method GetAutoRelationships() returns (rels: seq<Ref>)
      ensures rels == AutoRelationships(tables)
    {
      rels := [];
      for i := 0 to |tables|
        invariant rels == AutoRelationships(tables[..i])
      {
        var t := tables[i];
        ghost var before := rels;
        for k := 0 to |t.foreignKeys|
          invariant rels == before + RefsOfTable(t)[..k]
        {
          var fk := t.foreignKeys[k];
          PrefixSnoc(RefsOfTable(t), k);
          rels := rels + [Ref(t.name, fk.column, fk.referencesTable, fk.referencesColumn)];
        }
        PrefixAll(RefsOfTable(t));
        PrefixSnoc(tables, i);
        AutoRelationshipsStep(tables[..i], t);
      }
      PrefixAll(tables);
    }

    /** `generate_dbml`. */
    method GenerateDbml() returns (r: string)
      ensures r == Join(DbmlLines(tables), "\n")
    {
      var texts: seq<string> := [];
      for i := 0 to |tables|
        invariant texts == TableTexts(tables[..i])
      {
        var text := GenerateTableDbml(tables[i]);
        PrefixSnoc(tables, i);
        TableTextsStep(tables[..i], tables[i]);
        texts := texts + [text];
      }
      PrefixAll(tables);
      var auto := GetAutoRelationships();
      var chosen := if |auto| > 0 then auto else ManualRelationships;
      var lines := AppendRefLines(HeaderLines() + Blocks(texts) + ["// Relationships"], chosen);
      r := Join(lines, "\n");
    }

    /** `generate_table_groups`. */
    method GenerateTableGroups() returns (r: string)
      ensures r == Join(AllGroupLines(Groups(), tables), "\n")
    {
      var lines := WriteGroups(Groups(), tables);
      r := Join(lines, "\n");
    }

    /** `generate_full_dbml`: the document, a `// Table Groups` comment, then the groups. */
    method GenerateFullDbml() returns (r: string)
      ensures r == Join(DbmlLines(tables), "\n") + "\n\n// Table Groups\n" + Join(AllGroupLines(Groups(), tables), "\n")
    {
      var basic := GenerateDbml();
      var groups := GenerateTableGroups();
      r := basic + "\n\n// Table Groups\n" + groups;
    }
  }
}

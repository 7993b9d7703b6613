# SmartMart schema tools and web-handler logic, in Dafny

This project models the core of a supermarket management system that has two parts.

- **The DBML toolchain (Python).**
  - `DBML/sql_parser.py` reads a PostgreSQL schema script into tables, columns, foreign keys and indexes.
  - `DBML/dbml_generator.py` writes those tables as a DBML document with table groups.
- **The web application (Go).**
  - `webapp/database/query_logger.go` keeps a bounded, newest-first log of the SQL queries that were executed.
  - `webapp/web/handlers/sales.go` and `webapp/web/handlers/inventory.go` hold the pure and loop logic lifted out of the HTTP handlers:
    - parsing comma-separated form lists;
    - the validation of a new sale, line by line;
    - the numbering of `$n` placeholders as optional filters are appended;
    - sort-order fallbacks and pagination;
    - the summary counters of the warehouse and shelf listings;
    - grouping low-stock alerts by status;
    - the checks and field-by-field patching of discount rules.

The project has these modules:

- `Wrappers` and `Text` (`text.dfy`):
  - the Option and Result types;
  - character classes: Python's `isspace` and `\w`, Go's `unicode.IsSpace`;
  - ASCII case mapping, `strip`, `TrimSpace`, `Split` and `Join`.
- `Schema`: the parser's records.
- `SqlLexer`: each regular expression of the parser, written as a scanner that does what the regex engine does.
- `SqlParser`: the class `SQLParser` and the functions that specify it.
- `DbmlGenerator`: the class `DBMLGenerator` and the layout functions that specify it.
- `QueryLogging`: the class `QueryLogger`.
- `Paging`: offsets, page counts with Go's truncating division, and placeholder numbering, shared by both handler files.
- `SalesHandlers` and `InventoryHandlers`.

Methods model the source's loops and state changes. Each method is proved against a function that specifies it, and the source's promises are proved as lemmas about those functions.

The SQL text the handlers build is not rendered. A query is modelled as:

- the list of fragments appended after `WHERE 1=1`, each with the placeholder numbers written into it;
- the list of bound arguments.

The model keeps these behaviours of the code as they are:

- A foreign key that names a column the table does not have is kept, and no column is annotated. The model does not promise that every relationship points at an existing column (`SqlParser.UnmatchedForeignKeyChangesNothing`).
- Column fragments that do not start with a name and a type letter are dropped silently. So the column count is not the number of top-level comma pieces (`SqlParser.ColumnsOrigin`).
- A `FOREIGN KEY (...) REFERENCES ...` clause without a `CONSTRAINT name` prefix is not recognised as a foreign key. It is parsed like any other column fragment, so it yields a column named `FOREIGN` of type `KEY`. No synthetic constraint name exists.
- There is no strict parsing mode.

## Model

| member | source | states |
|---|---|---|
| Text.Upper | DBML/sql_parser.py:154 | `str.upper()` maps each character in place and keeps the length |
| Text.PyStrip | DBML/sql_parser.py:153 | `str.strip()` leaves no Python whitespace at either end and never lengthens the text; what it removes is stated by `Text.PyStripExact` |
| Text.GoTrimSpace | webapp/web/handlers/sales.go:829 | `strings.TrimSpace` leaves no Unicode space at either end and never lengthens the text; what it removes is stated by `Text.GoTrimSpaceExact` |
| Text.TrimBySplit | DBML/sql_parser.py:153 | trimming removes only trimmed characters: the text is an all-space prefix, the trimmed text, and an all-space suffix |
| Text.PyStripExact | DBML/sql_parser.py:153 | `str.strip()` removes exactly the leading and trailing Python whitespace: the input is whitespace, then the result, then whitespace, and the result neither starts nor ends with whitespace |
| Text.GoTrimSpaceExact | webapp/web/handlers/sales.go:829 | `strings.TrimSpace` removes exactly the leading and trailing Unicode spaces, in the same sense |
| Text.TrimOfTrimmed | webapp/web/handlers/sales.go:829 | trimming text that has nothing to trim returns it unchanged |
| Text.SplitOn | webapp/web/handlers/sales.go:828 | `strings.Split` on one character always returns at least one piece |
| Text.SplitOnShape | webapp/web/handlers/sales.go:828 | `strings.Split` gives one more piece than there are separators, and no piece holds a separator |
| Text.JoinSplitOn | webapp/web/handlers/sales.go:828 | joining the split pieces with the separator gives the input back |
| Text.SplitOnJoin | webapp/web/handlers/sales.go:828 | splitting the join of separator-free pieces gives the pieces back |
| SqlLexer.StripLineComments | DBML/sql_parser.py:100 | removing `--` comments leaves no `--`, keeps every line break, and changes nothing in comment-free text |
| SqlLexer.StripBlockComments | DBML/sql_parser.py:102 | removing block comments never lengthens the text; what is removed is stated by `StripCommentsLeftmost` and `StripCommentsNone` |
| SqlLexer.StripCommentsLeftmost | DBML/sql_parser.py:102 | the text before the leftmost complete comment is kept, the comment through its nearest closer is removed, and removal resumes after the closer |
| SqlLexer.StripCommentsNone | DBML/sql_parser.py:102 | text that holds no complete comment, an unclosed opener included, is kept as it is |
| SqlLexer.StripBlockCommentsNoOpen | DBML/sql_parser.py:102 | text without a comment opener is unchanged |
| SqlLexer.RemoveComments | DBML/sql_parser.py:97-103 | `_remove_comments` is the identity on text with no comment at all |
| SqlLexer.LineEnd | DBML/sql_parser.py:100 | `.*$` under MULTILINE stops at the first line break or at the end of the text |
| SqlLexer.BlockCloseFrom | DBML/sql_parser.py:102 | the lazy `.*?` of a block comment ends at the first closer, and there is none before it |
| SqlLexer.FirstClose | DBML/sql_parser.py:77 | the lazy body of `CREATE TABLE` ends at the least position where `\s*\);` matches |
| SqlLexer.MatchCreateTableAt | DBML/sql_parser.py:76-80 | a table matches only where `CREATE`, whitespace, `TABLE` and whitespace stand, and is then what `TableBodyAt` reads after them: a `\w+` name and a body free of `);`, ending in `);` |
| SqlLexer.TableBodyAt | DBML/sql_parser.py:76-80 | after the keywords: a `\w+` name and a body free of `);`, ending in `);` |
| SqlLexer.TableBodySpans | DBML/sql_parser.py:76-80 | the name is the `\w+` slice after the keywords and the body runs from after `(` and whitespace to the first `\s*\);`; the match ends after `);` and exists exactly when these parts do |
| SqlLexer.BodyHasNoCloser | DBML/sql_parser.py:77 | the text before the first `\s*\);` holds no `);` of its own |
| SqlLexer.FindCreateTables | DBML/sql_parser.py:76-82 | `finditer` resumes after each match, so it finds at most one table per character; which tables it finds is stated by the two lemmas below |
| SqlLexer.FindCreateTablesLeftmost | DBML/sql_parser.py:76-82 | the first table found is the leftmost match, and the search resumes at its end |
| SqlLexer.FindCreateTablesEmpty | DBML/sql_parser.py:76-82 | nothing is found exactly when no position matches |
| SqlLexer.MatchCreateIndexAt | DBML/sql_parser.py:253-257 | an index matches only where `CREATE`, whitespace, `INDEX` and whitespace stand, and is then what `IndexOnTableAt` reads after them: a `\w+` table and a non-empty column list without `)` |
| SqlLexer.IndexOnTableAt | DBML/sql_parser.py:253-257 | after the keywords: a `\w+` index name, `ON`, a `\w+` table and a non-empty column list without `)` |
| SqlLexer.IndexOnTableSpans | DBML/sql_parser.py:253-257 | the index name is the `\w+` slice after the keywords, and the rest is read by `TableColumnsAt` after `ON` and whitespace; it matches exactly when these parts exist |
| SqlLexer.TableColumnsAt | DBML/sql_parser.py:253-257 | a `\w+` table, then a non-empty column list without `)`, closed by `)` |
| SqlLexer.TableColumnsSpans | DBML/sql_parser.py:253-257 | the table is the `\w+` slice and the column list the text between `(` and the first `)`; it matches exactly when both exist and the list is non-empty |
| SqlLexer.FindCreateIndexes | DBML/sql_parser.py:253-262 | every index found has a table name and a non-empty column list; which indexes it finds is stated by the two lemmas below |
| SqlLexer.FindCreateIndexesLeftmost | DBML/sql_parser.py:253-262 | the first index found is the leftmost match, and the search resumes at its end |
| SqlLexer.FindCreateIndexesEmpty | DBML/sql_parser.py:253-262 | nothing is found exactly when no position matches |
| SqlLexer.CollapseSpace | DBML/sql_parser.py:113 | `re.sub(r'\s+', ' ')` leaves only single spaces as whitespace and keeps whether each end was whitespace; the result itself is stated by the four lemmas below |
| SqlLexer.CollapseSpaceRun | DBML/sql_parser.py:113 | a non-empty run of whitespace alone becomes one space |
| SqlLexer.CollapseSpaceNoSpace | DBML/sql_parser.py:113 | text without whitespace is kept as it is |
| SqlLexer.CollapseSpaceAppend | DBML/sql_parser.py:113 | text cut just before a non-space is collapsed piece by piece |
| SqlLexer.CollapseSpaceAfterWord | DBML/sql_parser.py:113 | text cut just after a non-space is collapsed piece by piece; with the three lemmas above, every maximal whitespace run becomes one space and every other character is kept, in order |
| SqlLexer.NormalizeBody | DBML/sql_parser.py:113 | a normalised body is stripped and has no two spaces in a row |
| SqlLexer.FirstClauseStop | DBML/sql_parser.py:116 | a CONSTRAINT clause ends at the least position where one of the three lookaheads matches |
| SqlLexer.MatchConstraintAt | DBML/sql_parser.py:116-121 | a clause match has a `\w+` name; its definition is the text that starts after whitespace and ends at the first position where a lookahead matches |
| SqlLexer.ConstraintSpans | DBML/sql_parser.py:116-121 | the name is the `\w+` slice after `CONSTRAINT` and whitespace; the definition runs from after the whitespace that follows the name to the first lookahead; it matches exactly when the keyword, whitespace, a name and whitespace are there |
| SqlLexer.ScanConstraints | DBML/sql_parser.py:116-146 | finding the clauses and removing them never lengthens the remaining text; the clauses and the rest are stated by `ScanConstraintsLeftmost` and `ScanConstraintsNone` |
| SqlLexer.ScanConstraintsLeftmost | DBML/sql_parser.py:116-146 | the leftmost clause is found first and cut out: the text before it is kept and the scan resumes after it |
| SqlLexer.ScanConstraintsNone | DBML/sql_parser.py:116-146 | with no clause left, nothing more is found and the text is kept as it is |
| SqlLexer.ScanWithoutConstraint | DBML/sql_parser.py:141-146 | text without the keyword CONSTRAINT passes through the removal unchanged |
| SqlLexer.MatchForeignKeyAt | DBML/sql_parser.py:124-128 | a FOREIGN KEY match needs `FOREIGN`, whitespace and `KEY` at the position, and is then what `ForeignKeyRestAt` reads after them; its three captures are `\w+` words |
| SqlLexer.ForeignKeyKeywordsAt | DBML/sql_parser.py:124 | `FOREIGN\s+KEY\s*` matches exactly when the two keywords stand there separated by whitespace, and ends after the whitespace that follows |
| SqlLexer.ForeignKeyRestAt | DBML/sql_parser.py:124-125 | the rest of the clause yields three `\w+` words |
| SqlLexer.ForeignKeyRestSpans | DBML/sql_parser.py:124-125 | the column is the word in the parentheses; whitespace and `REFERENCES` follow, and the table and referenced column are the slices `MatchTargetAt` reads; it matches exactly when these parts exist |
| SqlLexer.WordGroupAt | DBML/sql_parser.py:125 | `\((\w+)\)` spans a parenthesised word |
| SqlLexer.MatchTargetAt | DBML/sql_parser.py:125 | the REFERENCES part yields a `\w+` table and a `\w+` column; `TargetSpans` says which slices they are |
| SqlLexer.TargetSpans | DBML/sql_parser.py:125 | the table is the `\w+` slice after whitespace and the column is the word in the parentheses that follow; it matches exactly when both exist |
| SqlLexer.SearchForeignKey | DBML/sql_parser.py:124-128 | `re.search` returns the match at the leftmost matching position, with three `\w+` captures, and nothing only when no position matches |
| SqlLexer.FirstMatchLeftmost | DBML/sql_parser.py:124-128 | a leftmost search over positions returns the match at the first matching position, and nothing only when no position matches |
| SqlLexer.TypeLetterEnd | DBML/sql_parser.py:201 | `[A-Z_]+` under IGNORECASE takes the maximal run of letters and underscores |
| SqlLexer.TypeTokenEnd | DBML/sql_parser.py:201 | the type group is letters optionally followed by one parenthesised group; `TypeTokenEndGreedy` says how far it reaches |
| SqlLexer.TypeTokenEndGreedy | DBML/sql_parser.py:201 | the type takes the maximal letter run and then, whenever `(`, a non-`)` character and a later `)` follow, the group up to the first `)` |
| SqlLexer.LetterRunSlice | DBML/sql_parser.py:201 | the letter run read in a slice of the fragment is the one read in the fragment |
| SqlLexer.MatchColumnHead | DBML/sql_parser.py:200-210 | the column pattern matches exactly when the fragment starts with a name, whitespace and a type letter; the name is the leading `\w+` slice and the type is the greedy type token after the whitespace |
| SqlLexer.TokenEnd | DBML/sql_parser.py:217 | `[^,\s]+` stops at the first comma or whitespace |
| SqlLexer.MatchDefaultAt | DBML/sql_parser.py:217 | `DEFAULT\s+([^,\s]+)` at a position matches exactly when the keyword, whitespace and a token are there, and yields that token's slice |
| SqlLexer.SearchDefault | DBML/sql_parser.py:217-218 | the default is the token after the leftmost `DEFAULT`; there is none only when no position matches |
| SqlLexer.MatchCheckAt | DBML/sql_parser.py:225 | a CHECK match is the slice from `CHECK` through the first `)`, and exists exactly when `CheckCloseAt` finds that `)` |
| SqlLexer.CheckCloseAt | DBML/sql_parser.py:225 | after `CHECK`, optional whitespace, `(` and a non-`)` character, the match closes at the first `)`, and there is no `)` before it |
| SqlLexer.SearchCheck | DBML/sql_parser.py:225-227 | the leftmost CHECK match, or none when no position matches |
| SqlParser.Pieces | DBML/sql_parser.py:172-195 | splitting at top-level commas yields at least one piece |
| SqlParser.PiecesJoin | DBML/sql_parser.py:178-189 | the pieces joined with commas give the body back: only the separators are lost |
| SqlParser.PiecesCount | DBML/sql_parser.py:183-187 | there is one piece more than there are commas at parenthesis level 0 |
| SqlParser.NoTopCommaOnePiece | DBML/sql_parser.py:179-183 | a comma inside parentheses, as in `NUMERIC(10,2)`, does not split |
| SqlParser.Clean | DBML/sql_parser.py:184-193 | only pieces that are non-empty after stripping are kept, stripped; `CleanOne` and `CleanAppend` give the result and its order |
| SqlParser.CleanOne | DBML/sql_parser.py:184-193 | a single piece is kept, stripped, exactly when it is not blank |
| SqlParser.CleanAppend | DBML/sql_parser.py:184-193 | cleaning works piece by piece: the kept pieces of `a` come first, then those of `b`, so they stay in input order |
| SqlParser.CleanEmpty | DBML/sql_parser.py:184-193 | nothing is kept exactly when every piece is blank |
| SqlParser.DepthAppend | DBML/sql_parser.py:179-182 | the parenthesis level is additive over concatenation |
| SqlParser.PiecesAfterComma | DBML/sql_parser.py:183-187 | after a comma at level 0 the pieces start afresh |
| SqlParser.SmartSplit | DBML/sql_parser.py:172-195 | `_smart_split_columns` returns stripped, non-empty parts, at most one per top-level comma plus one; `SmartSplitWhole` and `SmartSplitAtComma` give the parts themselves |
| SqlParser.SmartSplitWhole | DBML/sql_parser.py:172-195 | text without a comma at level 0 yields its stripped self, or nothing when it is blank |
| SqlParser.SmartSplitAtComma | DBML/sql_parser.py:172-195 | splitting `a,b`, with `a` at level 0, gives the parts of `a` followed by those of `b`; with `SmartSplitWhole` this determines the result on every input |
| SqlParser.ColumnConstraints | DBML/sql_parser.py:221-227 | `UNIQUE` is listed first exactly when the upper-cased fragment contains it; a CHECK text comes last, and it is the leftmost CHECK match of the fragment; without a CHECK match there is none |
| SqlParser.ParseColumnDefinition | DBML/sql_parser.py:197-236 | a column exists exactly when the head pattern matches; the name is the leading word and the type the greedy type token; the primary-key and not-null flags hold exactly when the upper-cased fragment contains those words; the default is the token of the leftmost `DEFAULT` match, or none when no position matches; the constraints are `ColumnConstraints`; the foreign-key fields are unset |
| SqlParser.ClauseForeignKey | DBML/sql_parser.py:123-136 | a clause's foreign key carries the clause's constraint name and the three captures of the leftmost FOREIGN KEY match in the stripped definition; there is none exactly when no position of it matches |
| SqlParser.ForeignKeysOf | DBML/sql_parser.py:119-136 | at most one foreign key per CONSTRAINT clause |
| SqlParser.ConstraintTextsOf | DBML/sql_parser.py:137-138 | at most one kept constraint text per clause |
| SqlParser.ClausesAccounted | DBML/sql_parser.py:119-138 | every CONSTRAINT clause ends up in exactly one of the two lists |
| SqlParser.Partition | DBML/sql_parser.py:119-138 | the loop over the CONSTRAINT clauses yields exactly the foreign-key list and the kept constraint texts, each in clause order |
| SqlParser.ForeignKeysOrigin | DBML/sql_parser.py:129-136 | each foreign key comes from a clause that declares it |
| SqlParser.ConstraintTextsOrigin | DBML/sql_parser.py:137-138 | each kept text comes from a clause that declares no foreign key |
| SqlParser.ColumnOfPart | DBML/sql_parser.py:152-160 | a kept fragment yields an unannotated column with a `\w+` name |
| SqlParser.ColumnsOf | DBML/sql_parser.py:152-160 | at most one column per fragment, none annotated as a foreign key yet |
| SqlParser.ColumnsOrigin | DBML/sql_parser.py:153-160 | every column comes from a fragment that was neither blank nor a CONSTRAINT clause |
| SqlParser.PrimaryKeysOf | DBML/sql_parser.py:161-162 | at most one key name per column |
| SqlParser.PrimaryKeysExactly | DBML/sql_parser.py:161-162 | a name is a primary key exactly when some primary-key column has it |
| SqlParser.PrimaryKeysOfConcat | DBML/sql_parser.py:152-162 | key names keep the column order |
| SqlParser.TableOf | DBML/sql_parser.py:105-170 | the table has the given name and no indexes; its foreign keys and constraint texts account for every clause; no column is annotated yet |
| SqlParser.FirstNamedFrom | DBML/sql_parser.py:244-249 | the column loop stops at the first column with the foreign key's name |
| SqlParser.FirstNamedSameNames | DBML/sql_parser.py:244-249 | annotating fields does not change which column is found first |
| SqlParser.ApplyForeignKey | DBML/sql_parser.py:242-249 | one foreign key sets the three reference fields of the first column with its name and changes nothing else |
| SqlParser.ApplyForeignKeys | DBML/sql_parser.py:241-249 | the back-fill changes only the three reference fields of each column |
| SqlParser.LastForeignKeyFor | DBML/sql_parser.py:242-249 | identifies the last foreign key whose column name first names a given column |
| SqlParser.ApplyForeignKeysPerColumn | DBML/sql_parser.py:241-249 | after back-fill each column carries the references of the last foreign key that names it, or is unchanged |
| SqlParser.BackFillMarksExactly | DBML/sql_parser.py:245-246 | a column is marked as a foreign key exactly when it already was or a foreign key names it first |
| SqlParser.UnmatchedForeignKeyChangesNothing | DBML/sql_parser.py:244-249 | a foreign key naming no column changes nothing |
| SqlParser.BackFillTable | DBML/sql_parser.py:241-249 | the back-fill changes only the columns of a table |
| SqlParser.BackFillAll | DBML/sql_parser.py:241 | every table is back-filled on its own |
| SqlParser.IndexOfName | DBML/sql_parser.py:264 | the position of the dictionary key, if present |
| SqlParser.PutTable | DBML/sql_parser.py:87 | a table replaces the entry with its name where it stands, or goes last; names stay distinct |
| SqlParser.PutAll | DBML/sql_parser.py:82-87 | putting every table found keeps the names distinct |
| SqlParser.AttachIndex | DBML/sql_parser.py:264-266 | appending an index changes no table name or position |
| SqlParser.AttachIndexes | DBML/sql_parser.py:259-266 | appending indexes changes no table name or position |
| SqlParser.IndexesFor | DBML/sql_parser.py:259-266 | the indexes of one table, at most one per match |
| SqlParser.IndexOfNameSameNames | DBML/sql_parser.py:264 | appending indexes does not move a key |
| SqlParser.AttachIndexesPerTable | DBML/sql_parser.py:259-266 | each table gains exactly the stripped column lists of the indexes on it, in source order, and indexes on unknown tables are dropped |
| SqlParser.ParsedTables | DBML/sql_parser.py:70-95 | parsing keeps the table names distinct |
| SqlParser.RelationshipsOfTable | DBML/sql_parser.py:273-281 | one relationship per foreign key of the table, carrying the table name and the key's fields |
| SqlParser.Relationships | DBML/sql_parser.py:268-283 | one relationship per foreign key in all tables |
| SqlParser.RelationshipAt | DBML/sql_parser.py:272-281 | foreign key `k` of table `i` is the relationship after all keys of earlier tables |
| SqlParser.ForeignKeyCountPrefix | DBML/sql_parser.py:272-281 | the keys of earlier tables plus those of table `i` fit in the list |
| SqlParser.SQLParser.constructor | DBML/sql_parser.py:59-61 | a new parser holds no tables |
| SqlParser.SQLParser.ParseSqlContent | DBML/sql_parser.py:70-95 | the held tables become the parsed tables of the content, which are also returned |
| SqlParser.SQLParser.ParseTableDefinition | DBML/sql_parser.py:105-170 | the loops build `TableOf`, and the primary keys are the names of the primary-key columns |
| SqlParser.SQLParser.ParseColumns | DBML/sql_parser.py:152-162 | the loop over the column fragments builds the column list and the primary keys, in fragment order |
| SqlParser.SQLParser.SmartSplitColumns | DBML/sql_parser.py:172-195 | the character loop returns `SmartSplit` |
| SqlParser.SQLParser.BackFill | DBML/sql_parser.py:238-249 | the nested loops back-fill every table in place |
| SqlParser.SQLParser.AddIndexes | DBML/sql_parser.py:251-266 | every index match is attached to its table |
| SqlParser.SQLParser.GetRelationships | DBML/sql_parser.py:268-283 | one relationship per foreign key held |
| DbmlGenerator.MappedType | DBML/dbml_generator.py:130-149 | every DBML name in the mapping is lower case |
| DbmlGenerator.BeforeParen | DBML/dbml_generator.py:152 | `split('(')[0]` is the prefix before the first `(` |
| DbmlGenerator.ReplaceAll | DBML/dbml_generator.py:156 | `str.replace` keeps text free of upper case when both inputs are |
| DbmlGenerator.ReplaceAllAbsent | DBML/dbml_generator.py:156 | replacing an absent pattern changes nothing |
| DbmlGenerator.ConvertDataType | DBML/dbml_generator.py:128-160 | a converted type never holds an upper-case letter |
| DbmlGenerator.ConvertWithParameters | DBML/dbml_generator.py:153-156 | a mapped type with parameters becomes the DBML name followed by the lower-cased parameters |
| DbmlGenerator.ConvertKeepsParameters | DBML/dbml_generator.py:154-156 | `VARCHAR(100)` becomes `varchar(100)`: the parameters are kept |
| DbmlGenerator.ConvertPlainMapped | DBML/dbml_generator.py:157-158 | a mapped type without parameters becomes the DBML name alone |
| DbmlGenerator.ConvertUnmapped | DBML/dbml_generator.py:160 | an unknown type is only lower-cased |
| DbmlGenerator.ConvertIgnoresCase | DBML/dbml_generator.py:152-160 | the conversion ignores the case of its input |
| DbmlGenerator.FormatDefaultValue | DBML/dbml_generator.py:162-176 | `CURRENT_TIMESTAMP` and `CURRENT_DATE` become `` `now()` ``, digits stay, and anything else is quoted; the value is stripped and matched case-insensitively |
| DbmlGenerator.FormatStripped | DBML/dbml_generator.py:166-176 | on a stripped value: the timestamp keywords become `` `now()` ``, `TRUE`/`FALSE` are lower-cased, digit strings stay, anything else is quoted |
| DbmlGenerator.LowerOfKnownUpper | DBML/dbml_generator.py:171-172 | lower-casing is determined by the upper-case form |
| DbmlGenerator.FormatTrue | DBML/dbml_generator.py:171-172 | a boolean `true` default comes out as `true` whatever its case |
| DbmlGenerator.FormatFalse | DBML/dbml_generator.py:171-172 | a boolean `false` default comes out as `false` whatever its case |
| DbmlGenerator.ColumnAttributes | DBML/dbml_generator.py:94-100 | `pk` is present exactly for primary keys and `unique` exactly for `UNIQUE` columns, with `pk` first |
| DbmlGenerator.NotesFromOrdered | DBML/dbml_generator.py:108-121 | `NotesFrom` lists a column's note parts in a fixed order, each at most once |
| DbmlGenerator.NotePartsOrdered | DBML/dbml_generator.py:108-121 | a column's note parts are ordered: foreign key, `NOT NULL`, default, check |
| DbmlGenerator.ForeignKeyNoted | DBML/dbml_generator.py:110-111 | the `FK ->` note appears exactly for foreign-key columns |
| DbmlGenerator.NotNullNoted | DBML/dbml_generator.py:113-114 | `NOT NULL` is noted exactly for not-null columns that are not primary keys |
| DbmlGenerator.DefaultNoted | DBML/dbml_generator.py:116-118 | a non-empty default is noted, formatted; an absent or empty one is not |
| DbmlGenerator.CheckNoted | DBML/dbml_generator.py:120-121 | `has constraints` is noted exactly when CHECK occurs in the space-joined constraints |
| DbmlGenerator.AttributeSuffix | DBML/dbml_generator.py:103-105 | the ` [..]` suffix appears exactly when there are attributes |
| DbmlGenerator.NoteSuffix | DBML/dbml_generator.py:123-124 | the ` // ..` suffix appears exactly when there are note parts |
| DbmlGenerator.RenderColumnShape | DBML/dbml_generator.py:88-126 | `ColumnDbml`, the function for `_generate_column_dbml`, renders a column through `RenderColumn`: a column line is its head, then the attribute suffix, then the note suffix |
| DbmlGenerator.ColumnDbmlStartsWithHead | DBML/dbml_generator.py:91 | a column line starts with the name and the converted type |
| DbmlGenerator.ColumnDbmlBracket | DBML/dbml_generator.py:103-105 | ` [` follows the type exactly for primary-key or `UNIQUE` columns |
| DbmlGenerator.ColumnDbmlPlain | DBML/dbml_generator.py:88-126 | a column with nothing to mark is its name and type alone |
| DbmlGenerator.NoteOf | DBML/dbml_generator.py:180-200 | every table note in the dictionary is non-empty |
| DbmlGenerator.TableNote | DBML/dbml_generator.py:201 | the note is empty exactly for tables without an entry |
| DbmlGenerator.NoteBlock | DBML/dbml_generator.py:62-63 | the `Note:` line is written exactly when the note is non-empty |
| DbmlGenerator.ConstraintBlock | DBML/dbml_generator.py:71-75 | constraints add nothing when there are none, else a blank line, a heading and one line each |
| DbmlGenerator.IndexBlock | DBML/dbml_generator.py:78-83 | indexes add nothing when there are none, else an `Indexes { .. }` block with one line each |
| DbmlGenerator.TableLayoutFrame | DBML/dbml_generator.py:61-85 | a table opens with `Table name {` and closes with `}` |
| DbmlGenerator.TableLayoutNote | DBML/dbml_generator.py:60-63 | the note line follows the header exactly when the note is non-empty |
| DbmlGenerator.TableLayoutColumn | DBML/dbml_generator.py:66-68 | column `k` is written, indented, on its own line after the header and the note |
| DbmlGenerator.ColumnTexts | DBML/dbml_generator.py:66-68 | one text per column |
| DbmlGenerator.TableColumnLine | DBML/dbml_generator.py:55-86 | column `k` of a table is on line `1 + k`, or `2 + k` when the table has a note |
| DbmlGenerator.TableColumnText | DBML/dbml_generator.py:55-70 | line `1 + n + k` of a table, `n` being its note lines, is the indented text of column `k` |
| DbmlGenerator.RefsOfTable | DBML/dbml_generator.py:208-215 | one reference per foreign key of the table |
| DbmlGenerator.AutoRelationships | DBML/dbml_generator.py:203-217 | one reference per foreign key in all tables |
| DbmlGenerator.AutoRelationshipsAreParserRelationships | DBML/dbml_generator.py:203-217 | the generator's references are the parser's relationships without the constraint names |
| DbmlGenerator.ChosenRelationships | DBML/dbml_generator.py:41-51 | parsed references are used when there is any foreign key, the manual list otherwise |
| DbmlGenerator.RefLines | DBML/dbml_generator.py:43-51 | one `Ref:` line per reference |
| DbmlGenerator.RefLineAt | DBML/dbml_generator.py:44 | line `k` is the `Ref:` line of reference `k` |
| DbmlGenerator.HeaderLines | DBML/dbml_generator.py:27-31 | the project header is five lines |
| DbmlGenerator.TableTexts | DBML/dbml_generator.py:34-35 | one text per table |
| DbmlGenerator.Blocks | DBML/dbml_generator.py:34-36 | each table text is followed by an empty line |
| DbmlGenerator.BlockAt | DBML/dbml_generator.py:34-36 | table `k` is at line `2k`, and an empty line follows it |
| DbmlGenerator.DocumentTableLine | DBML/dbml_generator.py:24-36 | each table text sits after the header, in table order |
| DbmlGenerator.DocumentRefLines | DBML/dbml_generator.py:39-51 | after the tables come `// Relationships` and the `Ref:` lines, in order |
| DbmlGenerator.DbmlRefsParsed | DBML/dbml_generator.py:41-45 | with parsed foreign keys the document ends with one `Ref:` line per key |
| DbmlGenerator.DbmlRefsManual | DBML/dbml_generator.py:46-51 | without parsed foreign keys it ends with the manual `Ref:` lines |
| DbmlGenerator.DbmlLength | DBML/dbml_generator.py:22-53 | the document has five header lines, two lines per table, the `// Relationships` line and one line per chosen relationship |
| DbmlGenerator.DbmlRefLineAt | DBML/dbml_generator.py:39-51 | chosen relationship `k` is written on line `5 + 2 * tables + 1 + k` |
| DbmlGenerator.Groups | DBML/dbml_generator.py:285-305 | there are six table groups |
| DbmlGenerator.PresentMembers | DBML/dbml_generator.py:310-312 | at most the group's members are listed |
| DbmlGenerator.PresentMembersExactly | DBML/dbml_generator.py:310-312 | a name is listed exactly when it is a member and a loaded table |
| DbmlGenerator.GroupLines | DBML/dbml_generator.py:308-314 | a group block is its present members plus a header, a `}` and a blank line |
| DbmlGenerator.GroupListsPresentTables | DBML/dbml_generator.py:310-312 | a member's line is in the block exactly when the member is a loaded table |
| DbmlGenerator.AllGroupLines | DBML/dbml_generator.py:307-316 | every group contributes at least three lines |
| DbmlGenerator.GroupHeaderWritten | DBML/dbml_generator.py:309 | every group's header is written, whether or not any of its tables are loaded |
| DbmlGenerator.GroupsWithoutTables | DBML/dbml_generator.py:307-316 | with no tables every group is still written, empty |
| DbmlGenerator.AppendPrefixed | DBML/dbml_generator.py:74-75 | the append loop adds `prefix + x` for each `x`, in order |
| DbmlGenerator.RenderColumns | DBML/dbml_generator.py:66-68 | the column loop renders every column, in order |
| DbmlGenerator.AppendConstraintBlock | DBML/dbml_generator.py:71-75 | appends the constraint block |
| DbmlGenerator.AppendIndexBlock | DBML/dbml_generator.py:78-83 | appends the index block |
| DbmlGenerator.GenerateTableDbml | DBML/dbml_generator.py:55-86 | `_generate_table_dbml` joins the table's lines with newlines |
| DbmlGenerator.AppendRefLines | DBML/dbml_generator.py:43-51 | the reference loop appends one `Ref:` line per reference |
| DbmlGenerator.WriteGroup | DBML/dbml_generator.py:309-314 | the inner group loop writes one group's block |
| DbmlGenerator.WriteGroups | DBML/dbml_generator.py:308-314 | the outer loop writes every group in order |
| DbmlGenerator.DBMLGenerator.constructor | DBML/dbml_generator.py:13-16 | a new generator holds no tables |
| DbmlGenerator.DBMLGenerator.LoadTables | DBML/dbml_generator.py:18-20 | loading replaces the held tables |
| DbmlGenerator.DBMLGenerator.GetAutoRelationships | DBML/dbml_generator.py:203-217 | the loops return one reference per held foreign key |
| DbmlGenerator.DBMLGenerator.GenerateDbml | DBML/dbml_generator.py:22-53 | the document is its lines joined with newlines |
| DbmlGenerator.DBMLGenerator.GenerateTableGroups | DBML/dbml_generator.py:283-316 | the groups text is every group's block joined with newlines |
| DbmlGenerator.DBMLGenerator.GenerateFullDbml | DBML/dbml_generator.py:318-323 | the full text is the document, a `// Table Groups` comment, then the groups |
| QueryLogging.NewEntry | webapp/database/query_logger.go:45-56 | an entry carries the new counter value, the inputs and the time; its error text is the error's message, or empty for a nil error |
| QueryLogging.ErrorRecorded | webapp/database/query_logger.go:54-56 | the error text is non-empty exactly when there is an error with a non-empty message |
| QueryLogging.Prepended | webapp/database/query_logger.go:58-64 | the new entry goes first, the older entries follow in order, and the list is cut to `maxLogs` |
| QueryLogging.PrependedDropsOnlyOldest | webapp/database/query_logger.go:59-64 | only the oldest entry is dropped, and only when the log was already full |
| QueryLogging.PrependedZeroCapacity | webapp/database/query_logger.go:62-64 | a capacity of zero keeps nothing |
| QueryLogging.PrependedKeepsInvariant | webapp/database/query_logger.go:45-64 | logging keeps the log bounded, ordered newest first, with IDs issued by the counter |
| QueryLogging.Recent | webapp/database/query_logger.go:89-95 | returns the first `min(n, len)` entries |
| QueryLogging.RecentAll | webapp/database/query_logger.go:89-91 | asking for at least the stored count returns the whole log |
| QueryLogging.RecentNewest | webapp/database/query_logger.go:85-96 | the recent entries are ordered newest first and are newer than every entry left out |
| QueryLogging.Replay | webapp/database/query_logger.go:33-82 | any sequence of `LogQuery` and `Clear` calls keeps the log invariant |
| QueryLogging.ReplayCounter | webapp/database/query_logger.go:45-82 | the counter counts every `LogQuery` ever made, and `Clear` never resets it |
| QueryLogging.IdsKeepIncreasingAfterClear | webapp/database/query_logger.go:45-82 | after a `Clear`, the next query's ID is above every ID logged before |
| QueryLogging.QueryLogger.constructor | webapp/database/query_logger.go:33-38 | a new logger is empty with counter 0 and the given capacity |
| QueryLogging.QueryLogger.LogQuery | webapp/database/query_logger.go:41-65 | increments the counter and prepends the new entry within capacity, keeping the invariant |
| QueryLogging.QueryLogger.GetQueries | webapp/database/query_logger.go:68-75 | returns a copy of the log, element by element |
| QueryLogging.QueryLogger.Clear | webapp/database/query_logger.go:78-82 | empties the log and keeps the counter and the capacity |
| QueryLogging.QueryLogger.GetRecentQueries | webapp/database/query_logger.go:85-96 | returns a copy of the first `min(n, len)` entries |
| Paging.GoDiv | webapp/web/handlers/sales.go:184 | Go's integer division truncates toward zero |
| Paging.OffsetPages | webapp/web/handlers/sales.go:29 | page 1 starts at row 0, and each page starts `limit` rows after the previous one |
| Paging.OffsetBelowFirstPage | webapp/web/handlers/inventory.go:1017 | a page below 1 gives a negative offset, because no bound is applied |
| Paging.TotalPages | webapp/web/handlers/inventory.go:1124 | the page count is undefined (Go panics) exactly when the limit is 0 |
| Paging.TotalPagesIsCeiling | webapp/web/handlers/sales.go:184 | for a positive limit the page count is the ceiling of `total / limit` |
| Paging.TotalPagesUnique | webapp/web/handlers/inventory.go:1124 | it is the only page count that covers every row with no empty page |
| Paging.PageStartsInside | webapp/web/handlers/inventory.go:1017-1124 | every page from 1 to the page count starts inside the result set |
| Paging.When | webapp/web/handlers/inventory.go:247-251 | a filter is added exactly when its parameter is non-empty |
| Paging.Numbered | webapp/web/handlers/inventory.go:244-263 | one condition per filter |
| Paging.ArgsOf | webapp/web/handlers/inventory.go:244-263 | one argument per filter |
| Paging.NumberedBinds | webapp/web/handlers/sales.go:61-89 | condition `i` is filter `i`'s fragment, every placeholder in it is `$i+1`, and `$i+1` binds filter `i`'s argument |
| Paging.PlaceholdersExact | webapp/web/handlers/inventory.go:244-263 | the placeholders used are exactly `$1..$n` for `n` arguments |
| Paging.NumberedStep | webapp/web/handlers/inventory.go:247-251 | a new filter is numbered after all the earlier ones |
| SalesHandlers.KeptBy | webapp/web/handlers/sales.go:828-833 | the loop keeps at most one element per piece |
| SalesHandlers.ParseList | webapp/web/handlers/sales.go:823-825 | the empty string parses to the empty list |
| SalesHandlers.ParseStringArray | webapp/web/handlers/sales.go:822-835 | the loop returns the trimmed non-empty pieces, in order |
| SalesHandlers.ParseListSplit | webapp/web/handlers/sales.go:823-828 | the early return for `""` agrees with the general path |
| SalesHandlers.KeptTrimmedClean | webapp/web/handlers/sales.go:829-832 | every kept piece is non-empty, trimmed and comma-free |
| SalesHandlers.ParsedElementsClean | webapp/web/handlers/sales.go:822-835 | every parsed element is non-empty, trimmed and comma-free |
| SalesHandlers.ParsedLengthBound | webapp/web/handlers/sales.go:828 | there are at most as many elements as commas plus one |
| SalesHandlers.KeptByAppend | webapp/web/handlers/sales.go:828-833 | filtering two runs of pieces is filtering each |
| SalesHandlers.SplitOnConcat | webapp/web/handlers/sales.go:828 | splitting `s,t` is splitting `s` followed by splitting `t` |
| SalesHandlers.ParseListConcat | webapp/web/handlers/sales.go:822-835 | elements keep their input order: parsing `s,t` is parsing `s` followed by parsing `t` |
| SalesHandlers.KeptByFixed | webapp/web/handlers/sales.go:829-832 | pieces that are non-empty and already trimmed are all kept as they are |
| SalesHandlers.KeptTrimmedOfClean | webapp/web/handlers/sales.go:829-832 | clean pieces pass the trim and empty test unchanged |
| SalesHandlers.ReparseJoined | webapp/web/handlers/sales.go:822-835 | re-parsing the comma-join of a parsed list gives the same list |
| SalesHandlers.AddFilter | webapp/web/handlers/sales.go:61-65 | one filter step appends the condition numbered `argIndex` and its argument, and advances `argIndex` |
| SalesHandlers.SalesListQuery | webapp/web/handlers/sales.go:58-95 | the list query numbers its filters from `$1` and ends with `LIMIT $n OFFSET $n+1` bound to the limit and the offset |
| SalesHandlers.SalesCountQuery | webapp/web/handlers/sales.go:134-165 | the count query has the same filters, numbered the same way |
| SalesHandlers.SalesListQueries | webapp/web/handlers/sales.go:58-165 | the count query's conditions and arguments are the list query's without the `LIMIT`/`OFFSET` pair, which binds the last two arguments |
| SalesHandlers.ParseUint64 | webapp/web/handlers/sales.go:438 | `ParseUint` base 10, 64 bits, accepts exactly one or more digits up to 2^64-1 and returns their value |
| SalesHandlers.Atoi | webapp/web/handlers/sales.go:447 | `Atoi` accepts an optional sign and digits, within the int64 range |
| SalesHandlers.Decimal | webapp/web/handlers/sales.go:534 | the decimal spelling of a number is one or more digits |
| SalesHandlers.DecimalValue | webapp/web/handlers/sales.go:534 | the digits read back as the number |
| SalesHandlers.ParseDecimal | webapp/web/handlers/sales.go:438-447 | both parsers read back what is written in decimal, within their ranges, including negative numbers for `Atoi` |
| SalesHandlers.CheckHeader | webapp/web/handlers/sales.go:432-477 | each error holds exactly under its own condition, in the handler's order: missing employee, unparsable employee, bad points, a missing list, mismatched lengths; the header is accepted exactly when every check passes, and then carries the parsed employee, the points (0 when absent) and the four parsed lists |
| SalesHandlers.CheckHeaderRejects | webapp/web/handlers/sales.go:445-477 | negative points and a length mismatch are rejected; the discount list's length is not checked |
| SalesHandlers.CheckLine | webapp/web/handlers/sales.go:533-567 | each error holds exactly under its own condition, in order (product, quantity, price, discount) and carries the offending text; an accepted line carries the parsed values, its price is not `<= 0` and its discount neither `< 0` nor `> 100` as Go compares floats, and the discount is 0 when its entry is missing or blank |
| SalesHandlers.CheckedLines | webapp/web/handlers/sales.go:533-567 | all lines checked in order gives one line per product |
| SalesHandlers.CheckedLinesAll | webapp/web/handlers/sales.go:533-567 | the lines pass exactly when each line passes, and line `k` of the result is line `k` checked |
| SalesHandlers.CheckedLinesFirstError | webapp/web/handlers/sales.go:533-567 | when every earlier line passes, the first failing line decides the reply |
| SalesHandlers.CheckedLinesFailure | webapp/web/handlers/sales.go:533-567 | a failure is the error of a failing line after which no earlier line failed |
| SalesHandlers.CheckLines | webapp/web/handlers/sales.go:533-567 | the loop stops at the first failing line and otherwise returns every line |
| SalesHandlers.ValidateSale | webapp/web/handlers/sales.go:432-567 | a header failure is the reply; otherwise the sale is accepted exactly when every line passes, and then it carries the header's employee and points and, as line `k`, line `k` checked |
| SalesHandlers.ValidateSaleFirstError | webapp/web/handlers/sales.go:533-567 | a sale whose header passes is rejected with the error of its first failing line |
| SalesHandlers.SaleLinesValid | webapp/web/handlers/sales.go:542-567 | every line of an accepted sale has a positive quantity and passed Go's float comparisons: a finite price is positive, a finite discount lies in [0, 100], the price is not -Inf; a NaN price or discount and a +Inf price are not excluded |
| SalesHandlers.PassedComparisons | webapp/web/handlers/sales.go:550-561 | passing Go's comparisons means: a finite price is positive, a finite discount lies in [0, 100], the price is not -Inf and the discount is finite or NaN |
| SalesHandlers.NonFiniteValuesAccepted | webapp/web/handlers/sales.go:550-561 | as written, a NaN price, a +Inf price and a NaN discount pass the line checks |
| SalesHandlers.ZeroLineSaleAccepted | webapp/web/handlers/sales.go:461-477 | as written, a form whose lists are a lone comma is accepted with no lines |
| SalesHandlers.SeparatorOnly | webapp/web/handlers/sales.go:822-835 | a lone comma parses to the empty list |
| SalesHandlers.OneDigit | webapp/web/handlers/sales.go:438 | one digit reads as its value |
| SalesHandlers.DiscountFields | webapp/web/handlers/sales.go:558-559 | there is one field per comma field, blanks included |
| SalesHandlers.BlankDiscountShifts | webapp/web/handlers/sales.go:471-560 | as written, a blank first discount field is dropped, so its neighbour's discount is applied to the first line |
| SalesHandlers.LeadingBlankDropped | webapp/web/handlers/sales.go:829-832 | the blank first field of `",d"` is dropped |
| SalesHandlers.CheckHeaderIntended | webapp/web/handlers/sales.go:461-477 | an accepted header has at least one product, equal list lengths, and its discount fields in place |
| SalesHandlers.IntendedKeepsBlank | webapp/web/handlers/sales.go:558-559 | the intended parse of `",d"` keeps the blank first field |
| SalesHandlers.IntendedSaleHasLines | webapp/web/handlers/sales.go:461-465 | every accepted sale has at least one line |
| SalesHandlers.IntendedDiscountPositional | webapp/web/handlers/sales.go:558-560 | the discount of line `k` comes from the `k`-th comma field, and a blank field means no discount |
| SalesHandlers.FiniteOnly | webapp/web/handlers/sales.go:550-561 | the intended reading keeps exactly the finite values of `ParseFloat` |
| SalesHandlers.ValidateSaleIntended | webapp/web/handlers/sales.go:432-567 | as intended, a header failure is the reply and an accepted sale has one line per product, at least one |
| SalesHandlers.IntendedLinesFinite | webapp/web/handlers/sales.go:550-561 | as intended, every accepted line has a finite positive price and a finite discount in [0, 100] |
| InventoryHandlers.AddCountedFilter | webapp/web/handlers/inventory.go:247-251 | one filter step increments `argCount`, writes it as the placeholder and appends one argument |
| InventoryHandlers.ThreeFilters | webapp/web/handlers/inventory.go:244-263 | three optional filters are numbered from `$1`, with `len(args) == argCount` |
| InventoryHandlers.StockOrder | webapp/web/handlers/inventory.go:266-275 | for both stock listings (the warehouse `switch` here and the shelf one at inventory.go:435-445), the order falls back to ascending quantity exactly when the key is not `expiry`, the listing's own key (`value` or `sales`) or `name`, and the listing's own key selects its own order |
| InventoryHandlers.WarehouseQuery | webapp/web/handlers/inventory.go:244-275 | the warehouse, category and search filters are numbered from `$1`, one argument each, with `len(args) == argCount`, and then sorted |
| InventoryHandlers.ShelfQuery | webapp/web/handlers/inventory.go:412-445 | the shelf, category and search filters are numbered from `$1`, one argument each, with `len(args) == argCount`, and then sorted |
| InventoryHandlers.TransferQuery | webapp/web/handlers/inventory.go:1017-1064 | the date and search filters are numbered from `$1`; the limit and `(page-1)*limit` are written into the text, not bound |
| InventoryHandlers.TransferQueries | webapp/web/handlers/inventory.go:1041-1119 | the count query has identical conditions and arguments |
| InventoryHandlers.IgnoredCountGivesNoPages | webapp/web/handlers/inventory.go:1121-1124 | a failed count, left at 0, reports zero pages for any positive limit |
| InventoryHandlers.CountIf | webapp/web/handlers/inventory.go:321-330 | a counter never exceeds the row count |
| InventoryHandlers.CountIfDisjoint | webapp/web/handlers/inventory.go:325-329 | two conditions counted in the branches of one `if`/`else if` count each row at most once |
| InventoryHandlers.SummarizeWarehouse | webapp/web/handlers/inventory.go:321-330 | the loop counts the rows, sums the quantities, and counts the expired and near-expiry rows |
| InventoryHandlers.WarehouseCountsBounded | webapp/web/handlers/inventory.go:325-329 | expired plus near-expiry rows are at most the row count |
| InventoryHandlers.SummarizeShelf | webapp/web/handlers/inventory.go:497-509 | the loop counts the rows, sums the quantities, and counts the low-stock, expired and near-expiry rows |
| InventoryHandlers.ShelfCountsBounded | webapp/web/handlers/inventory.go:497-509 | each shelf counter is at most the row count, and so are the two expiry counters together |
| InventoryHandlers.LowStockCountedIndependently | webapp/web/handlers/inventory.go:502-508 | a low-stock row that has expired counts in both counters |
| InventoryHandlers.GroupOf | webapp/web/handlers/inventory.go:653-662 | two statuses are critical, one is a warning and one needs a shelf refill; any other status joins no group |
| InventoryHandlers.InGroup | webapp/web/handlers/inventory.go:653-662 | a group holds at most every product |
| InventoryHandlers.GroupByStatus | webapp/web/handlers/inventory.go:648-663 | the loop appends each product to its status's group, in input order |
| InventoryHandlers.GroupsPartition | webapp/web/handlers/inventory.go:653-662 | every product lands in exactly one group or in none |
| InventoryHandlers.GroupSizesBounded | webapp/web/handlers/inventory.go:653-670 | the three groups together hold at most `TotalAlerts` products |
| InventoryHandlers.GroupMembers | webapp/web/handlers/inventory.go:653-662 | every product in a group is an input product with that group's status |
| InventoryHandlers.RangeError | webapp/web/handlers/inventory.go:1228-1240 | the days must be positive, then the float64 percentage must pass Go's `p < 0 or p > 100` test, which lets through exactly a finite value in [0, 100] or NaN; each error holds iff its condition |
| InventoryHandlers.NaNPercentagePasses | webapp/web/handlers/inventory.go:1235-1240 | with positive days a NaN percentage passes the range check, both infinities are refused, and any other accepted percentage is finite and in [0, 100] |
| InventoryHandlers.CheckNewRule | webapp/web/handlers/inventory.go:1221-1249 | creation rejects a missing category, then non-positive days, then a percentage that fails Go's range test (NaN passes it), then an existing rule for the same category and days, and accepts exactly what passes all four |
| InventoryHandlers.CreateKeepsInvariant | webapp/web/handlers/inventory.go:1221-1256 | creating only accepted rules keeps every stored rule well formed and every (category, days) pair unique |
| InventoryHandlers.PatchRule | webapp/web/handlers/inventory.go:1294-1308 | each supplied field is overwritten and every other field keeps its stored value |
| InventoryHandlers.PatchedFields | webapp/web/handlers/inventory.go:1294-1308 | `Patched`, which specifies `PatchRule`: supplied fields take the new values, an empty update changes nothing, and patching twice is patching once |
| InventoryHandlers.PatchedThen | webapp/web/handlers/inventory.go:1294-1308 | two patches in a row are one patch with the later fields winning |
| InventoryHandlers.CheckPatchedRule | webapp/web/handlers/inventory.go:1310-1323 | after patching, only non-positive days and a percentage failing Go's range test are rejected; the patched rule is accepted iff its days are positive and its percentage is finite in [0, 100] or NaN |
| InventoryHandlers.UpdateSkipsCategoryCheck | webapp/web/handlers/inventory.go:1294-1323 | an update can set the category to 0, which creation would refuse |

## Left out

- File and JSON I/O. `parse_sql_file`, `to_json`, `save_json`, `save_dbml`, the `__main__` blocks and `DBML/generate_dbml.py` are not part of this model; only the in-memory transformations are.
- Regular expressions are modelled by the scanners in `SqlLexer`:
  - `\w` and IGNORECASE are restricted to ASCII letters, digits and `_`;
  - `upper()` and `lower()` map only ASCII letters.
  - Non-ASCII case folding is not modelled;
  - `str.isdigit()` in `_format_default_value` (DBML/dbml_generator.py:173) accepts ASCII digits only, so Unicode digits such as `²` or `٣` are quoted rather than kept.
- FormatDefaultValue: a default made of non-ASCII Unicode digits is not recognised as a number, for the ASCII restriction above.
- RemoveComments: its own contract states only that text without comments is unchanged. What each pass removes is stated by `StripLineComments` and by `StripCommentsLeftmost` with `StripCommentsNone`. No worked multi-line example is proved.
- PyStrip: its own contract gives only the trimmed ends and a length bound; that exactly the surrounding whitespace goes is stated by `Text.PyStripExact`.
- GoTrimSpace: the same, with `Text.GoTrimSpaceExact`.
- StripBlockComments: its own contract gives only a length bound; the removed text is stated by `StripCommentsLeftmost` and `StripCommentsNone`.
- MatchCreateTableAt: its own contract and `TableBodyAt`'s give the shape of a match; the slices it captures are stated by `TableBodySpans`.
- FindCreateTables: its own contract gives only a length bound; the matches found are stated by `FindCreateTablesLeftmost` and `FindCreateTablesEmpty`.
- MatchCreateIndexAt: its own contract gives the shape; the captured slices are stated by `IndexOnTableSpans` and `TableColumnsSpans`.
- FindCreateIndexes: its own contract gives the shape of each match; the matches found are stated by `FindCreateIndexesLeftmost` and `FindCreateIndexesEmpty`.
- CollapseSpace: its own contract gives the shape of the result; the result itself is stated by `CollapseSpaceRun`, `CollapseSpaceNoSpace`, `CollapseSpaceAppend` and `CollapseSpaceAfterWord`.
- MatchConstraintAt: its own contract does not pin the name to the text; `ConstraintSpans` does.
- ScanConstraints: its own contract gives only a length bound; the clauses and the remaining text are stated by `ScanConstraintsLeftmost` and `ScanConstraintsNone`.
- MatchForeignKeyAt: its own contract gives three words; the slices are stated by `ForeignKeyKeywordsAt`, `ForeignKeyRestSpans` and `TargetSpans`.
- MatchTargetAt: its own contract gives two words; the slices are stated by `TargetSpans`.
- TypeTokenEnd: its own contract gives the token's shape; its maximality is stated by `TypeTokenEndGreedy`.
- Clean: its own contract gives the shape of the kept pieces; the result and its order are stated by `CleanOne` and `CleanAppend`.
- SmartSplit: its own contract gives a count bound and the shape of the parts; the parts themselves are stated by `SmartSplitWhole` and `SmartSplitAtComma`.
- Python's dictionary is a sequence of tables with distinct names, in insertion order.
- The query logger's mutex is left out: each method runs as one atomic step. The GORM hook `Trace` is not modelled.
- The caller supplies `time.Now()`, `time.Duration` and the row count as plain integers. An `error` is the `Option` of its message.
- `QueryLogging.ErrorRecorded`: the error text is non-empty only when the error's message is non-empty, because Go's `err.Error()` may return `""`.
- Negative sizes passed to `make` panic in Go, so they are excluded by preconditions. This covers `NewQueryLogger(maxLogs)` and `GetRecentQueries(n)`.
- Integer overflow of Go's `int` and `int64` in offsets, counters and sums is not modelled. `Atoi` and `ParseUint` do check their ranges exactly.
- `strconv.ParseFloat` is a parameter of the sales checks. It returns a `Float`: a finite value, NaN, +Inf or -Inf, compared as Go compares floats. Its rounding and the spellings it accepts are not modelled.
- SaleLinesValid: as in the code, a NaN price, a +Inf price and a NaN discount pass the checks, so the lemma promises positivity and the [0, 100] range only for finite values (see Findings).
- RangeError: a discount rule's percentage is a float64, and Go's `p < 0` and `p > 100` are both false for NaN, so the create and update handlers accept a NaN percentage; `NaNPercentagePasses` states it. The body parser's JSON decoding cannot produce NaN, but its form decoding can. Whether the database refuses the value depends on the table schema, which is not part of this model.
- Money totals, inventory values and other floating-point sums are not modelled.
- The invoice-number retry loop of `SalesCreate` (webapp/web/handlers/sales.go:484-507) is not modelled, because it depends on the wall clock and on database lookups. So are the transaction and the inserts.
- The SQL text of every query is not rendered. PostgreSQL computes the status texts, and they are inputs to the model.
- Database lookups are inputs to the model:
  - the stored rules for the duplicate check;
  - the rule being updated;
  - every row list.
- The count error is not modelled. `StockTransferHistory` ignores the error of its count query; its consequence is stated in `InventoryHandlers.IgnoredCountGivesNoPages`.
- `InventoryHandlers.CreateKeepsInvariant`: uniqueness of (category, days) is what the handler's check maintains. Concurrent creations that race past the check, and rows written by other code, are not modelled.
- The `CreatedAt` field of a discount rule, HTTP status codes and reply messages are not modelled. Errors are named by `RuleError` and `SaleError`.

## Findings

| source | as written | input that shows it | evidently intended | confidence | as-written member | corrected member |
|---|---|---|---|---|---|---|
| webapp/web/handlers/sales.go:461-477 | the "choose at least one product" check tests the raw form strings for emptiness, before parsing | product, quantity and price fields each `","` with a valid employee: all parse to empty lists of equal length, and the sale is accepted with no lines | reject a sale whose parsed product list is empty | not executed | SalesHandlers.ZeroLineSaleAccepted | SalesHandlers.IntendedSaleHasLines |
| webapp/web/handlers/sales.go:471-560 | the discount list goes through `parseStringArray`, which drops blank fields, so the `discountList[i] != ""` test never sees a blank | discount field `",10"` for two lines: it parses to `["10"]`, so the first line gets 10% and the second none | blank fields keep their place, so line `k` gets the `k`-th field's discount and a blank field means none | not executed | SalesHandlers.BlankDiscountShifts | SalesHandlers.IntendedDiscountPositional |
| webapp/web/handlers/sales.go:550-561 | `strconv.ParseFloat` accepts `NaN` and `Inf`, and the tests `unitPrice <= 0`, `discountPercentage < 0` and `discountPercentage > 100` are all false for NaN, and the first is false for +Inf | a line with unit price `NaN` or `Inf`, or discount `NaN`, on an otherwise valid form: the line is accepted and its value goes to the insert | reject prices and discounts that are not finite numbers | not executed | SalesHandlers.NonFiniteValuesAccepted | SalesHandlers.IntendedLinesFinite |

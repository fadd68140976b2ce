# sql_gen in Dafny

A model of the core of `sql_gen`, a Rust library that builds SQL statement text. It covers:

- **The `Sql` collector** (`Collectors`). It holds a text buffer and an optional list of deferred parameter values. Rendering fills each `?` mark with the next deferred value, left to right.
- **Literal rendering** (`Methods`). A JSON value becomes an inline SQL literal: a quoted string, `1`/`0`, `null`, or a number.
- **The clause statements**: WHERE/HAVING conditions compiled from JSON predicates (`WhereStatement`), INSERT rows, UPDATE assignments, ORDER BY, GROUP BY, the SELECT projection, JOIN, LIMIT and OFFSET.
- **The statement managers** for SELECT, DELETE, UPDATE and INSERT. They are classes whose builder methods append to their clause lists. Their `ToSql` methods loop over those lists. Each is proved equal to a pure rendering function, and that function is proved equal to the text obtained by substituting the deferred values (`Inline`, `*Prepared`).
- **The DDL part**:
  - column type descriptors and their setters (`ColumnTypes`);
  - table definition entries (`Columns`) and foreign keys (`ForeignKeys`);
  - the CREATE/ALTER/DROP TABLE builder (`DefineTables`), and the MySQL table tests worked through it (`TableSamples`);
  - the CREATE/ALTER/DROP DATABASE builder (`DefineDatabases`);
  - the dialect-aware database and table managers (`DatabaseManagers`, `TableManagers`).

The crate chooses its target database and keyword tables with cargo features. Here the `Dialect` and `Keywords` values from `Dialects` are parameters of the renderers. Rust panics (`unwrap` on a missing value, `assert!`) become preconditions. Error results become `Result` values carrying the crate's message text. A refused JSON value appears in the message in the form Rust's `{:?}` prints for a `serde_json::Value` (`Json.Debug`), for example `String("x")` or `Array [Number(1), Null]`.

Where the code and its design notes disagree, the model follows the code. Four places where the code is evidently not what was meant are listed under "## Findings". Each finding has a member that renders as written, a lemma showing the difference, and a corrected member that the rest of the model uses.

## Model

| member | source | states |
|---|---|---|
| Collectors.Fragment.PushQuoteValue | src/collectors/sql.rs:33-37 | quoting appends the quote, the value and the quote again, exactly as three `push_value` calls would; the deferred list is untouched |
| Collectors.Fragment.PushPrepareValue | src/collectors/sql.rs:38-45 | the text is unchanged, the list afterwards exists and is the old list (empty when absent) with `p` appended at the end |
| Collectors.Fragment.PushValueWithPrepareValue | src/collectors/sql.rs:46-50 | the text gains `s` and the list gains `p` at its end |
| Collectors.Fragment.PushSql | src/collectors/sql.rs:52-64 | texts concatenate, deferred lists concatenate, and the list stays absent exactly when both lists are absent |
| Collectors.Fragment.IsEmpty | src/collectors/sql.rs:98-100 | a fragment is empty exactly when it is the default one: no text and no deferred list |
| Collectors.PushIsPushValue | src/collectors/sql.rs:25-32 | pushing one character is pushing the one-character text |
| Collectors.PushValueIsPushSql | src/collectors/sql.rs:29-32 | pushing text is appending a fragment that holds that text and defers nothing |
| Collectors.PushSqlAssociative | src/collectors/sql.rs:52-64 | appending fragments is associative, so the order in which a statement is assembled does not matter |
| Collectors.PushSqlsMeaning | src/collectors/sql.rs:65-74 | `push_sqls` appends the texts joined by the separator (none after the last, nothing for an empty list) and all deferred lists in order; the list stays absent only if every list is absent |
| Collectors.Render | src/collectors/sql.rs:76-96 | without a deferred list the text itself; with one, success exactly when marks and values are equally many, and then each `?` replaced left to right by the next value; leftover values give an error |
| Collectors.RenderOneMark | src/collectors/sql.rs:76-96 | a text with one `?` between two unmarked parts and one deferred value renders with that value in the mark's place |
| Collectors.FillUnmarked | src/collectors/sql.rs:79-87 | text without `?` is rendered unchanged |
| Collectors.FillConcat | src/collectors/sql.rs:79-87 | filling a concatenation fills each part with its own share of the values |
| Collectors.Sandwich | src/collectors/sql.rs:79-87 | unmarked text around a filled part passes through unchanged |
| Collectors.FillPlaceholders | src/collectors/sql.rs:79-87 | `n` separated placeholders filled with `n` values give the values joined by the same separator |
| Collectors.FillAffixed | src/collectors/sql.rs:79-87 | a join of `prefix?` items filled with one value each gives the join of `prefix value` items |
| Collectors.InlineMarkIsConsumed | src/collectors/sql.rs:79-87 | a `?` inside inlined literal text is counted as a placeholder too: literal text with one `?` before one real placeholder has two marks, so a single deferred value cannot fill them |
| Collectors.DenotesRender | src/collectors/sql.rs:76-96 | a fragment whose marks and values pair up renders without error to the filled text |
| Collectors.DenotesPlain | src/collectors/sql.rs:19-24 | a plain text without marks renders to itself |
| Collectors.DenotesPushSql | src/collectors/sql.rs:52-64 | appending fragments appends what they render to |
| Collectors.DenotesPushValue | src/collectors/sql.rs:29-32 | appending unmarked text appends it to the rendering |
| Collectors.DenotesPlaceholder | src/collectors/sql.rs:46-50 | a `?` pushed with its deferred value renders as that value, whatever it holds |
| Collectors.AgreeSelf | src/collectors/sql.rs:76-96 | a fragment whose marks and values pair up agrees with itself |
| Collectors.AgreePlain | src/collectors/sql.rs:19-24 | plain unmarked text agrees with itself and renders to itself |
| Collectors.AgreePushSql | src/collectors/sql.rs:52-64 | appending agreeing fragments keeps a prepared fragment in agreement with its inline counterpart |
| Collectors.AgreePushValue | src/collectors/sql.rs:29-32 | appending the same unmarked text keeps agreement |
| Collectors.AgreeRender | src/collectors/sql.rs:76-96 | agreeing fragments both render, without error, to the same string |
| Collectors.Sql.Default | src/collectors/sql.rs:9-16 | empty text and no deferred list |
| Collectors.Sql.New | src/collectors/sql.rs:19-24 | the given text and no deferred list |
| Collectors.Sql.Push | src/collectors/sql.rs:25-28 | one character appended, the list unchanged |
| Collectors.Sql.PushValue | src/collectors/sql.rs:29-32 | exactly `s` appended to the text, the list unchanged |
| Collectors.Sql.PushQuoteValue | src/collectors/sql.rs:33-37 | quote, value, quote appended; the list unchanged |
| Collectors.Sql.PushPrepareValue | src/collectors/sql.rs:38-45 | the text unchanged; the list becomes the old list plus `p`, `[p]` when it was absent |
| Collectors.Sql.PushValueWithPrepareValue | src/collectors/sql.rs:46-50 | text gains `s`, list gains `p` |
| Collectors.Sql.PushSql | src/collectors/sql.rs:52-64 | the new state is the old fragment with the other appended, as `Fragment.PushSql` states |
| Collectors.Sql.PushSqls | src/collectors/sql.rs:65-74 | the loop reaches the state `PushSqlsMeaning` describes: separators only between consecutive fragments |
| Collectors.Sql.ToSqlString | src/collectors/sql.rs:76-96 | the character loop computes `Render` of the current contents |
| Collectors.Substitute | src/collectors/sql.rs:78-87 | the character loop replaces each `?` by the next deferred value and copies every other character, giving `Fill`; the count of values used is the number of marks |
| Strings.UnmarkedHasNoMarks | src/collectors/sql.rs:79-87 | a text has no placeholder exactly when its count of `?` is zero |
| Strings.MarksAppend | src/collectors/sql.rs:79-87 | the placeholder count of a concatenation is the sum of the counts |
| Strings.JoinSnoc | src/collectors/sql.rs:65-74 | joining one more element adds exactly the separator and that element |
| Strings.JoinAppend | src/collectors/sql.rs:65-74 | joining two non-empty lists is joining each with the separator between |
| Strings.JoinPrefix | src/collectors/sql.rs:65-74 | each prefix's join extends the previous one by the separator and the next element |
| Strings.JoinUnmarked | src/collectors/sql.rs:65-74 | a join of unmarked elements with an unmarked separator has no mark |
| Strings.JoinThree | src/collectors/sql.rs:65-74 | two or three texts joined are the texts with the separator between each pair |
| Strings.JoinFour | src/collectors/sql.rs:65-74 | four texts joined are the texts with the separator between each pair |
| Strings.NatToStringRoundTrip | src/methods/mod.rs:25 | the decimal text of a number reads back as the number |
| Strings.IntToString | src/methods/mod.rs:25 | a signed integer prints as its magnitude's digits with a leading `-` when negative |
| Strings.DecimalUnmarked | src/methods/mod.rs:25 | decimal text never holds a placeholder mark |
| Json.TextUnmarked | src/methods/mod.rs:25 | the JSON text of a value whose strings and keys hold no `?` holds none either |
| Json.Text | src/methods/mod.rs:25 | the JSON text of null is `null`; a string is its text between double quotes; an array is bracketed and an object braced |
| Json.Debug | src/table/statements/where.rs:124 | the `{:?}` form of a value starts with the name of its kind (`Null`, `Bool`, `Number`, `String`, `Array`, `Object`) |
| Json.DebugSome | src/table/statements/order.rs:48 | the `{:?}` form of `Some(value)` starts with `Some(` and the value's kind and ends with `)` |
| Json.DebugString | src/table/statements/where.rs:124 | the `{:?}` form of a string is at least as long as the string plus its two double quotes, which open and close it |
| Json.EscapedRoundTrip | src/table/statements/where.rs:124 | the escaping of quotes, backslashes and control characters in a debug string is undone by reading it back, so distinct strings print distinctly |
| Json.DebugTellsKinds | src/table/statements/where.rs:124 | two values with the same `{:?}` form are of the same kind |
| Json.DebugScalarExamples | src/table/statements/order.rs:48 | `String("x")`, `Number(1)`, `Bool(true)` and `Some(Number(1))` are the forms of those values |
| Json.DebugCompoundExamples | src/methods/mod.rs:23 | a list prints as `Array [Number(1), Null]` and an object as `Object {"a": Null}` |
| Methods.JsonValueToString | src/methods/mod.rs:18-28 | success exactly for scalars: a string is single-quoted, a boolean is 1 or 0, null and numbers print as JSON; a list or an object is refused with `Error: json_value_to_string value type not support!` followed by its `{:?}` form; the literal of a value without marks has none |
| Methods.StringifyAll | src/table/statements/where.rs:77 | the `collect` of literals succeeds exactly when every element is a scalar, and then holds each element's literal in order |
| Methods.StringifyAllUnmarked | src/table/statements/where.rs:77 | literals of values without marks carry no marks |
| Methods.StringifyAllPrefixErr | src/table/statements/where.rs:77 | an element without a literal makes every longer list fail with that same error |
| Methods.StringifyEach | src/table/statements/where.rs:77 | the element-by-element loop stops at the first refused element and returns what `StringifyAll` describes |
| Methods.StringifyAllNext | src/table/statements/where.rs:77 | one more scalar extends the literals of a prefix by its own literal |
| Methods.StringifyAllNextErr | src/table/statements/where.rs:77 | the first element without a literal, after elements that all have one, gives the whole list its error |
| Methods.RefusedListExample | src/methods/mod.rs:23 | the list `[1, null]` is refused with the message ending in `Array [Number(1), Null]` |
| WhereStatement.RangeCondition | src/table/statements/where.rs:35-68 | an error exactly when both bounds are open; a single bound gives its one-sided comparison; a closed range gives BETWEEN; any other pair gives the two comparisons joined by AND |
| WhereStatement.NewRange | src/table/statements/where.rs:34-72 | the range where is a raw string condition holding the range condition, with no modifier; the unwrap's panic is the precondition |
| WhereStatement.ColumnCondition | src/table/statements/where.rs:73-127 | refused exactly for objects and for lists holding a list or an object; an object with `Error: Where Value <{:?} form> Type Not Support!`, a list with the error of its first element without a literal; null gives `IS NULL` (`IS NOT NULL` with `not`) and defers nothing; another scalar gives `= ` (`!= ` with `not`) and then `?` in prepare mode, deferring its literal, or the literal itself; a list gives `IN (` (`NOT IN (`), then one `?` per element in prepare mode or the literals, comma-separated; without prepare nothing is deferred |
| WhereStatement.ObjectCondition | src/table/statements/where.rs:131-146 | succeeds exactly when every entry's value compares; the text is the entries' `column comparison` texts joined by ` AND ` (` OR ` with `or`), the deferred list is their deferred values in entry order, and without prepare nothing is deferred |
| WhereStatement.EntryTexts | src/table/statements/where.rs:136-144 | one text per entry: the column name, a space and the text of that entry's comparison |
| WhereStatement.TemplateCondition | src/table/statements/where.rs:147-156 | an empty list gives the empty fragment; otherwise success exactly when every argument after the template is a scalar, and then the template text verbatim with the arguments' literals deferred in order, in prepare mode or not; on failure the first refused argument's error |
| WhereStatement.Condition | src/table/statements/where.rs:128-163 | an object compares its columns and a non-empty list is a template, with the success conditions, texts and deferred lists above; a string is raw SQL deferring nothing; null, booleans, numbers and the empty list give the empty fragment |
| WhereStatement.PreparedListToSql | src/table/statements/where.rs:78-92 | the loop writes one `?` per literal, comma-separated, inside the IN list, and defers the literals in order |
| WhereStatement.ColumnValueConditionToSql | src/table/statements/where.rs:73-127 | the method computes `ColumnCondition` |
| WhereStatement.ObjectConditionPrefixErr | src/table/statements/where.rs:131-145 | an error on a prefix of the entries is the error of the whole object |
| WhereStatement.PushEntry | src/table/statements/where.rs:133-143 | one turn of the entry loop extends the fragment of the first `idx` entries to that of the first `idx + 1`, or returns the error of the whole object |
| WhereStatement.ObjectConditionToSql | src/table/statements/where.rs:131-146 | the entry loop writes `column comparison` entries joined by ` AND ` or ` OR ` and stops at the first refused value |
| WhereStatement.TemplateToSql | src/table/statements/where.rs:147-156 | the template is written verbatim and every later element is deferred |
| WhereStatement.ConditionToSql | src/table/statements/where.rs:128-163 | objects compare columns, lists are templates, strings are raw SQL, other values give nothing |
| WhereStatement.ToSql | src/table/statements/where.rs:166-176 | a where without a value is refused with `where value must exists!`; otherwise the value's condition as `Condition` states it: an object's comparisons joined by the connective and succeeding exactly when each compares, a non-empty list's template with its arguments deferred, a string as raw SQL, and nothing for other scalars or the empty list |
| WhereStatement.WhereToSql | src/table/statements/where.rs:166-176 | the method computes `ToSql` |
| WhereStatement.ColumnConditionPrepared | src/table/statements/where.rs:73-127 | a prepared column comparison renders to exactly the comparison without the prepare flag, which defers nothing |
| WhereStatement.ListPrepared | src/table/statements/where.rs:76-99 | the prepared IN list renders to the inline IN list |
| WhereStatement.ScalarPrepared | src/table/statements/where.rs:101-116 | the prepared `= ?` renders to the inline `= literal` |
| WhereStatement.ObjectConditionPrepared | src/table/statements/where.rs:131-146 | a prepared object condition renders to the inline one |
| WhereStatement.WherePrepared | src/table/statements/where.rs:166-176 | a where renders to the same string with or without the prepare flag, for conditions whose literals hold no `?` |
| WhereStatement.SampleExample | src/table/statements/where.rs:194-197 | the object `{a: 1, b: "2", c: true, d: [1, 2, 3], e: null}` renders `a = 1 AND b = '2' AND c = 1 AND d IN (1,2,3) AND e IS NULL` |
| WhereStatement.SampleNotExample | src/table/statements/where.rs:199-201 | with `not`, the same object renders `a != 1 AND b != '2' AND c != 1 AND d NOT IN (1,2,3) AND e IS NOT NULL` |
| WhereStatement.SamplePreparedExample | src/table/statements/where.rs:203-205 | with `not` and `prepare`, the text is `a != ? AND b != ? AND c != ? AND d NOT IN (?,?,?) AND e IS NOT NULL` |
| WhereStatement.TemplateExample | src/table/statements/where.rs:208-211 | the template `["active = ?", true]` defers `1` and renders `active = 1` |
| WhereStatement.TemplatePreparedExample | src/table/statements/where.rs:213-215 | in prepare mode the template's text is still `active = ?` |
| WhereStatement.HalfOpenRangeExample | src/table/statements/where.rs:218-220 | the range `1..100` on `id` renders `id >= 1 AND id < 100` |
| WhereStatement.ClosedRangeExample | src/table/statements/where.rs:221-223 | the range `1..=100` on `id` renders `id BETWEEN 1 AND 100` |
| WhereStatement.OneBoundRangeExamples | src/table/statements/where.rs:224-229 | a range bounded above only renders `expired_at <= t`, one bounded below only `expired_at >= t` |
| WhereStatement.RefusedObjectExample | src/table/statements/where.rs:124 | a column compared with the object `{"a": null}` is refused with `Error: Where Value Object {"a": Null} Type Not Support!` |
| InsertStatement.Cells | src/table/statements/insert.rs:43-50 | one cell per literal: `?` in prepare mode, the literal otherwise |
| InsertStatement.Deferred | src/table/statements/insert.rs:43-50 | the deferred literals are all the literals in prepare mode and none otherwise |
| InsertStatement.ToSql | src/table/statements/insert.rs:27-58 | without a row only the header; with one, success exactly for an object of scalars; a row that is not an object is refused with `Error: Insert Value <{:?} form> Not Support`, an object holding a list or an object with the error of its first such value; in prepare mode the deferred list is the literals in key order; otherwise nothing is deferred |
| InsertStatement.PushColumns | src/table/statements/insert.rs:37-40 | the loop appends the column names separated by `, ` |
| InsertStatement.PushCells | src/table/statements/insert.rs:43-50 | the loop appends the cells separated by `, ` and defers the literals in prepare mode |
| InsertStatement.InsertToSql | src/table/statements/insert.rs:27-58 | the method computes `ToSql` |
| InsertStatement.CellsPrepared | src/table/statements/insert.rs:43-51 | a value list of `?` marks renders to the value list of the literals it defers |
| InsertStatement.InsertPrepared | src/table/statements/insert.rs:27-58 | a prepared insert renders to the same string as the inline one, which defers nothing, and holds one `?` per column |
| InsertStatement.RefusedRowExample | src/table/statements/insert.rs:53 | the row `"x"` is refused with `Error: Insert Value String("x") Not Support` |
| InsertStatement.SampleLiterals | src/table/statements/insert.rs:43-50 | the sample row's keys in order and its literals: the number, the boolean as a digit, `null`, the quoted string |
| InsertStatement.SampleExample | src/table/statements/insert.rs:72-84 | the sample row renders `INSERT INTO users (a, b, c, d) VALUES (1, 0, null, 'desc')`, and in prepare mode `VALUES (?, ?, ?, ?)` deferring the four literals in order |
| UpdateStatement.Targets | src/table/statements/update.rs:39 | each assignment's left-hand side is the column name and ` = ` |
| UpdateStatement.Assignments | src/table/statements/update.rs:37-45 | one assignment per column, in key order: the target and then `?` in prepare mode or the literal |
| UpdateStatement.ToSql | src/table/statements/update.rs:27-52 | without assignments only the header; with them, success exactly for an object of scalars; a value that is not an object is refused with `Error: Update Value <{:?} form> Not Support`, an object holding a list or an object with the error of its first such value; in prepare mode the deferred list is the literals in key order; otherwise nothing is deferred |
| UpdateStatement.AssignmentsSnoc | src/table/statements/update.rs:37-45 | one more assignment extends the joined text by `, ` and that assignment |
| UpdateStatement.PushAssignments | src/table/statements/update.rs:37-45 | the loop appends the assignments separated by `, ` and defers the literals in prepare mode |
| UpdateStatement.UpdateToSql | src/table/statements/update.rs:27-52 | the method computes `ToSql` |
| UpdateStatement.AssignmentsPrepared | src/table/statements/update.rs:37-45 | prepared assignments render to the assignments of the literals they defer |
| UpdateStatement.UpdatePrepared | src/table/statements/update.rs:27-52 | a prepared update renders to the same string as the inline one and holds one `?` per assigned column |
| UpdateStatement.RefusedRowExample | src/table/statements/update.rs:47 | the value `1` is refused with `Error: Update Value Number(1) Not Support` |
| UpdateStatement.SampleAssignments | src/table/statements/update.rs:37-45 | the sample row assigns each column its literal, in key order |
| UpdateStatement.SampleMarks | src/table/statements/update.rs:37-45 | in prepare mode each column takes a `?` and the literals are deferred in column order |
| UpdateStatement.SampleExample | src/table/statements/update.rs:64-78 | the sample row renders `UPDATE users SET a = 1, b = 0, c = null, d = 'desc'`, and in prepare mode `a = ?, b = ?, c = ?, d = ?` |
| OrderStatement.Item | src/table/statements/order.rs:37-42 | a list item is its string when it is one and its JSON text otherwise |
| OrderStatement.Clauses | src/table/statements/order.rs:30-34 | each entry of a direction object becomes `column direction`, in iteration order |
| OrderStatement.ToSql | src/table/statements/order.rs:24-53 | success exactly for no value, an object, a list or a string; nothing is deferred; no value gives the empty fragment; a string is kept; a list gives its items comma-separated and an object its `column direction` clauses comma-separated (see Findings); any other value is refused with `Error: Value <{:?} form of Some(value)> Type Not Support` |
| OrderStatement.ClausesToSql | src/table/statements/order.rs:29-35 | the entry loop writes the clauses with a comma before every clause but the first |
| OrderStatement.OrderToSql | src/table/statements/order.rs:24-53 | the method computes `ToSql` |
| OrderStatement.ObjectClausesRunTogether | src/table/statements/order.rs:29-35 | as written, a two-key direction object renders `a ascb desc`; the corrected rendering is `a asc,b desc` |
| OrderStatement.SingleKeyUnaffected | src/table/statements/order.rs:29-35 | with at most one key the written and the corrected renderings agree |
| OrderStatement.ObjectSplit | src/table/statements/order.rs:29-35 | splitting a direction object in two and ordering by each part, as the managers comma-join them, gives the same clause |
| OrderStatement.ListSplit | src/table/statements/order.rs:36-44 | a list split in two orders like its halves joined by a comma |
| OrderStatement.RefusedNumberExample | src/table/statements/order.rs:48 | ordering by `1` is refused with `Error: Value Some(Number(1)) Type Not Support` |
| GroupStatement.Names | src/table/statements/group.rs:30 | each list element's string, in order |
| GroupStatement.ToSql | src/table/statements/group.rs:24-42 | success exactly for no value, a list or a string; nothing is deferred; no value gives the empty fragment; a string is kept as it is; a list gives its names comma-separated; any other value is refused with `Error: Value <{:?} form of Some(value)> Type Not Support!` |
| GroupStatement.ListSplit | src/table/statements/group.rs:29-33 | a list split in two, as two manager items joined by a comma, gives the same clause |
| GroupStatement.SingletonList | src/table/statements/group.rs:29-36 | a one-name list groups like the name given as text |
| GroupStatement.RefusedBoolExample | src/table/statements/group.rs:37 | grouping by `true` is refused with `Error: Value Some(Bool(true)) Type Not Support!` |
| SelectStatement.ToSql | src/table/statements/select.rs:21-41 | never fails and defers nothing; the text is `SELECT `, `DISTINCT ` when set, the comma-joined columns or `*`, then `FROM` and the table |
| SelectStatement.SelectUnmarked | src/table/statements/select.rs:21-41 | a projection and table without `?` give a clause without `?` |
| JoinStatement.ToSql | src/table/statements/join.rs:19-29 | success exactly when the join has text, and then that text with nothing deferred; otherwise the fixed error |
| LimitStatement.ToSql | src/table/statements/limit.rs:24-29 | never fails and defers nothing; `LIMIT ` followed only by decimal digits |
| LimitStatement.ReadBack | src/table/statements/limit.rs:24-29 | the digits after `LIMIT ` read back as the limit |
| OffsetStatement.ToSql | src/table/statements/offset.rs:24-29 | never fails and defers nothing; `OFFSET ` followed only by decimal digits |
| OffsetStatement.ReadBack | src/table/statements/offset.rs:24-29 | the digits after `OFFSET ` read back as the offset |
| Clauses.Flag | src/table/manager/select_manager/mod.rs:59-121 | a builder records the modifier its name carries as set, and leaves the others unset |
| Clauses.Appended | src/table/manager/select_manager/mod.rs:50-58 | one more push leaves the earlier entries in place and puts the new one last; the first push creates the list |
| Clauses.PageStart | src/table/manager/select_manager/mod.rs:238-243 | page 1 starts at offset 0 and each later page starts one page size after the previous one, that is `(page - 1) * size` |
| Clauses.Conditions | src/table/manager/select_manager/mod.rs:254-266 | the conditions succeed exactly when every condition does |
| Clauses.ConditionClause | src/table/manager/select_manager/mod.rs:254-266 | no list gives nothing; otherwise success exactly when the conditions succeed, the text starts with the keyword, and the deferred values are the conditions' in order |
| Clauses.ConditionClauseToSql | src/table/manager/select_manager/mod.rs:254-290 | the method computes `ConditionClause` |
| Clauses.ConditionsPrefixErr | src/table/manager/select_manager/mod.rs:256-265 | the first failing condition's error is the error of the whole list |
| Clauses.ConditionsToSql | src/table/manager/select_manager/mod.rs:256-265 | the loop writes ` AND` between conditions and wraps or-conditions in parentheses, stopping at the first error |
| Clauses.ConditionToSql | src/table/manager/select_manager/mod.rs:257-264 | one turn of that loop: ` AND` unless the condition is the first, then ` c` or ` (c)` for an or-condition; the condition's own error otherwise |
| Clauses.Unprepared | src/table/manager/select_manager/mod.rs:86-121 | the same conditions with the prepare flag cleared and the other modifiers kept |
| Clauses.ConditionsPrepared | src/table/manager/select_manager/mod.rs:254-266 | a list of prepared conditions renders like the same list with the literals inline |
| Clauses.Joins | src/table/manager/select_manager/mod.rs:248-252 | the joins succeed exactly when every join has text, and defer nothing |
| Clauses.JoinsPrefixErr | src/table/manager/select_manager/mod.rs:248-252 | the first join without text fails the whole list |
| Clauses.JoinsToSql | src/table/manager/select_manager/mod.rs:248-252 | the loop computes `Joins` |
| Clauses.JoinClause | src/table/manager/select_manager/mod.rs:248-252 | no list gives nothing; otherwise the joins |
| Clauses.JoinTexts | src/table/manager/select_manager/mod.rs:248-252 | the text of each join, in insertion order |
| Clauses.JoinsJoined | src/table/manager/select_manager/mod.rs:248-252 | the join clause is a space and then the join texts separated by single spaces, in insertion order |
| Clauses.JoinClauseToSql | src/table/manager/select_manager/mod.rs:248-252 | pushing the joins one by one gives `JoinClause` of the list, nothing without a list |
| Clauses.Groups | src/table/manager/select_manager/mod.rs:268-276 | the groups succeed exactly when every group does, and defer nothing |
| Clauses.GroupClause | src/table/manager/select_manager/mod.rs:268-276 | no list gives nothing; otherwise success exactly when the groups succeed |
| Clauses.GroupsPrefixErr | src/table/manager/select_manager/mod.rs:270-275 | the first failing group fails the whole list |
| Clauses.GroupsToSql | src/table/manager/select_manager/mod.rs:270-275 | the loop writes the groups comma-separated and stops at the first error |
| Clauses.Orders | src/table/manager/select_manager/mod.rs:292-300 | the orders succeed exactly when every order does, and defer nothing |
| Clauses.OrderClause | src/table/manager/select_manager/mod.rs:292-300 | no list gives nothing; otherwise success exactly when the orders succeed |
| Clauses.OrdersPrefixErr | src/table/manager/select_manager/mod.rs:294-299 | the first failing order fails the whole list |
| Clauses.OrdersToSql | src/table/manager/select_manager/mod.rs:294-299 | the loop writes the orders comma-separated and stops at the first error |
| Clauses.LimitClause | src/table/manager/select_manager/mod.rs:302-304 | nothing without a limit; with one, ` LIMIT ` followed by the decimal digits of its count; no mark and nothing deferred |
| Clauses.OffsetClause | src/table/manager/select_manager/mod.rs:306-308 | nothing without an offset; with one, ` OFFSET ` followed by the decimal digits of its count; no mark and nothing deferred |
| Clauses.JoinsUnmarked | src/table/manager/select_manager/mod.rs:248-252 | join texts without `?` give a join clause without `?` |
| Clauses.GroupUnmarked | src/table/statements/group.rs:24-42 | a grouping of names without `?` renders without `?` |
| Clauses.GroupsUnmarked | src/table/manager/select_manager/mod.rs:268-276 | groups without `?` give a clause without `?` |
| Clauses.OrderUnmarked | src/table/statements/order.rs:24-53 | an ordering without `?` renders without `?` |
| Clauses.OrdersUnmarked | src/table/manager/select_manager/mod.rs:292-300 | orders without `?` give a clause without `?` |
| Clauses.AgreeUnmarked | src/collectors/sql.rs:93-95 | a clause that defers nothing and has no mark renders like itself |
| Clauses.JoinClauseAgrees | src/table/manager/select_manager/mod.rs:248-252 | the join clause defers nothing and renders like itself |
| Clauses.GroupClauseAgrees | src/table/manager/select_manager/mod.rs:268-276 | the group clause defers nothing and renders like itself |
| Clauses.GroupClauseToSql | src/table/manager/select_manager/mod.rs:268-276 | ` GROUP BY ` and the groups pushed one by one give `GroupClause` of the list, nothing without a list |
| Clauses.OrderClauseAgrees | src/table/manager/select_manager/mod.rs:292-300 | the order clause defers nothing and renders like itself |
| Clauses.OrderClauseToSql | src/table/manager/select_manager/mod.rs:292-300 | ` ORDER BY ` and the orders pushed one by one give `OrderClause` of the list, nothing without a list |
| Clauses.UnpreparedClause | src/table/manager/select_manager/mod.rs:254-266 | the optional list with every prepare flag cleared; absent exactly when the list is absent |
| Clauses.ConditionClausePrepared | src/table/manager/select_manager/mod.rs:254-290 | a WHERE or HAVING clause renders like the same clause with the literals inline |
| Clauses.Restriction | src/table/manager/delete_manager/mod.rs:133-167 | success exactly when the conditions and the orders succeed; the text starts with ` WHERE`; the deferred values are the conditions' |
| Clauses.RestrictionToSql | src/table/manager/delete_manager/mod.rs:133-167 | the method computes `Restriction` |
| Clauses.RestrictionPrepared | src/table/manager/delete_manager/mod.rs:133-167 | the restriction renders like the same restriction with the conditions' literals inline |
| Clauses.ConditionsJoined | src/table/manager/select_manager/mod.rs:254-266 | the conditions' text is the written conditions separated by ` AND`, in insertion order |
| Clauses.ConditionClauseJoined | src/table/manager/select_manager/mod.rs:254-266 | a WHERE or HAVING clause is the keyword and then the written conditions separated by ` AND` |
| Clauses.ConditionsPlain | src/table/manager/select_manager/mod.rs:254-266 | conditions that each defer nothing give a list that defers nothing |
| Clauses.GroupsJoined | src/table/manager/select_manager/mod.rs:268-276 | the groups' text is the groups' texts separated by commas, in insertion order |
| Clauses.GroupClauseJoined | src/table/manager/select_manager/mod.rs:268-276 | the GROUP BY clause is ` GROUP BY ` and then the groups' texts separated by commas |
| Clauses.OrdersJoined | src/table/manager/select_manager/mod.rs:292-300 | the orders' text is the orders' texts separated by commas, in insertion order |
| Clauses.OrderClauseJoined | src/table/manager/select_manager/mod.rs:292-300 | the ORDER BY clause is ` ORDER BY ` and then the orders' texts separated by commas |
| Clauses.RestrictionText | src/table/manager/delete_manager/mod.rs:133-167 | the restriction's text is the WHERE, ORDER BY, LIMIT and OFFSET texts in that order; only the conditions defer values |
| Clauses.PlainWhereClause | src/table/manager/delete_manager/mod.rs:188-195 | the condition `a = 1` gives the clause ` WHERE a = 1`, which defers nothing |
| SelectManagers.QuerySql | src/table/manager/select_manager/mod.rs:244-311 | success exactly when the joins, WHERE, GROUP BY, HAVING and ORDER BY clauses all succeed; the statement starts with the SELECT clause; its deferred values are the WHERE values followed by the HAVING values |
| SelectManagers.SelectManager.constructor | src/table/manager/select_manager/mod.rs:18-33 | a new manager has an empty projection and no joins, conditions, groups, orders, limit or offset |
| SelectManagers.SelectManager.Distinct | src/table/manager/select_manager/mod.rs:36-39 | only the projection's distinct flag changes, to set |
| SelectManagers.SelectManager.AddJoin | src/table/manager/select_manager/mod.rs:40-49 | the raw join is appended after the earlier joins; nothing else changes |
| SelectManagers.SelectManager.AddWhere | src/table/manager/select_manager/mod.rs:50-121 | the condition, with the modifiers the builder's name carries, is appended after the earlier conditions; nothing else changes |
| SelectManagers.SelectManager.WhereRange | src/table/manager/select_manager/mod.rs:122-130 | the range condition is appended after the earlier conditions; a range without bounds is refused |
| SelectManagers.SelectManager.AddGroup | src/table/manager/select_manager/mod.rs:131-139 | the grouping is appended after the earlier ones; nothing else changes |
| SelectManagers.SelectManager.AddHaving | src/table/manager/select_manager/mod.rs:140-211 | the HAVING condition, with its modifiers, is appended after the earlier ones; nothing else changes |
| SelectManagers.SelectManager.HavingRange | src/table/manager/select_manager/mod.rs:212-220 | the range is appended to the HAVING conditions; a range without bounds is refused |
| SelectManagers.SelectManager.AddOrder | src/table/manager/select_manager/mod.rs:221-229 | the ordering is appended after the earlier ones; nothing else changes |
| SelectManagers.SelectManager.SetLimit | src/table/manager/select_manager/mod.rs:230-233 | the limit is replaced; nothing else changes |
| SelectManagers.SelectManager.SetOffset | src/table/manager/select_manager/mod.rs:234-237 | the offset is replaced; nothing else changes |
| SelectManagers.SelectManager.Paginate | src/table/manager/select_manager/mod.rs:238-243 | the limit becomes the page size and the offset the start of the page; page 0 and an overflowing start are refused, as they panic |
| SelectManagers.SelectManager.ToSql | src/table/manager/select_manager/mod.rs:244-311 | the clause-by-clause method computes `QuerySql` of the manager's state |
| SelectManagers.QueryToSql | src/table/manager/select_manager/mod.rs:244-311 | rendering each clause with its loop and pushing them in statement order computes `QuerySql`; the first failing clause fails the statement |
| SelectManagers.Inline | src/table/manager/select_manager/mod.rs:86-121 | the same query with the WHERE and HAVING prepare flags cleared and everything else kept |
| SelectManagers.AssembleAgrees | src/table/manager/select_manager/mod.rs:244-311 | clauses that each render like their inline forms, assembled in statement order, render like the assembled inline forms |
| SelectManagers.QueryPrepared | src/table/manager/select_manager/mod.rs:244-311 | a prepared query renders, once its deferred values are filled in, to exactly the statement the same query gives with every value inline |
| SelectManagers.QueryText | src/table/manager/select_manager/mod.rs:244-311 | a rendered query's text is the SELECT clause followed by the join, WHERE, GROUP BY, HAVING, ORDER BY, LIMIT and OFFSET texts in that order |
| SelectManagers.GroupedQuerySql | src/table/manager/select_manager/mod.rs:244-311 | a query with only GROUP BY and HAVING set is those two clauses after the SELECT clause |
| SelectManagers.OrderedQuerySql | src/table/manager/select_manager/mod.rs:244-311 | a query with only ORDER BY set is that clause after the SELECT clause |
| SelectManagers.PagedQuerySql | src/table/manager/select_manager/mod.rs:244-311 | a query with only LIMIT and OFFSET set is their texts after the SELECT clause, with nothing deferred |
| SelectManagers.GroupHavingExample | src/table/manager/select_manager/mod.rs:384-389 | the groups `age`, `name`, `province` and the HAVING conditions render `SELECT * FROM users GROUP BY age,name,province HAVING a = 1 AND b = 2 AND c >= 1 AND c < 100` |
| SelectManagers.OrderExample | src/table/manager/select_manager/mod.rs:392-397 | a text, an object and a list ordering render `SELECT * FROM users ORDER BY id desc,created desc,updated_at desc` |
| SelectManagers.LimitExample | src/table/manager/select_manager/mod.rs:400-403 | `limit(10)` renders `SELECT * FROM users LIMIT 10` |
| SelectManagers.OffsetExample | src/table/manager/select_manager/mod.rs:405-409 | `offset(5)` renders `SELECT * FROM users OFFSET 5` |
| SelectManagers.PaginateExamples | src/table/manager/select_manager/mod.rs:411-418 | pages 1 and 2 of size 20 render `LIMIT 20 OFFSET 0` and `LIMIT 20 OFFSET 20` after the SELECT clause |
| DeleteManagers.DeletionSql | src/table/manager/delete_manager/mod.rs:132-169 | no conditions is the error "delete table data where statements must exist"; otherwise success exactly when the conditions and the orders succeed; the statement starts with `DELETE FROM <table> WHERE`; its deferred values are the conditions' |
| DeleteManagers.DeleteManager.constructor | src/table/manager/delete_manager/mod.rs:14-25 | a new manager has no conditions, orders, limit or offset |
| DeleteManagers.DeleteManager.AddWhere | src/table/manager/delete_manager/mod.rs:28-99 | the condition, with its modifiers, is appended after the earlier ones; nothing else changes |
| DeleteManagers.DeleteManager.WhereRange | src/table/manager/delete_manager/mod.rs:100-108 | the range condition is appended; a range without bounds is refused |
| DeleteManagers.DeleteManager.AddOrder | src/table/manager/delete_manager/mod.rs:109-117 | the ordering is appended after the earlier ones |
| DeleteManagers.DeleteManager.SetLimit | src/table/manager/delete_manager/mod.rs:118-121 | the limit is replaced; nothing else changes |
| DeleteManagers.DeleteManager.SetOffset | src/table/manager/delete_manager/mod.rs:122-125 | the offset is replaced; nothing else changes |
| DeleteManagers.DeleteManager.Paginate | src/table/manager/delete_manager/mod.rs:126-131 | the limit becomes the page size and the offset the page's start; page 0 and an overflowing start are refused |
| DeleteManagers.DeleteManager.ToSql | src/table/manager/delete_manager/mod.rs:132-169 | the method computes `DeletionSql` of the manager's state |
| DeleteManagers.Inline | src/table/manager/delete_manager/mod.rs:64-99 | the same deletion with every condition's prepare flag cleared |
| DeleteManagers.DeletionPrepared | src/table/manager/delete_manager/mod.rs:132-169 | a prepared deletion, filled in, is exactly the deletion with its values inline |
| DeleteManagers.ConditionedDeletion | src/table/manager/delete_manager/mod.rs:132-169 | a deletion with only conditions is the head, ` WHERE` and the conditions |
| DeleteManagers.OrderedDeletion | src/table/manager/delete_manager/mod.rs:132-169 | a deletion with conditions and ORDER BY items is the head and those two clauses |
| DeleteManagers.LimitedDeletion | src/table/manager/delete_manager/mod.rs:132-169 | a deletion with conditions and a limit is the head, the WHERE clause and the LIMIT text |
| DeleteManagers.PagedDeletion | src/table/manager/delete_manager/mod.rs:132-169 | a deletion with conditions, a limit and an offset is the head and those clauses in that order |
| DeleteManagers.OneMarkDeletion | src/table/manager/delete_manager/mod.rs:132-169 | conditions that defer one value behind one mark give a deletion with that mark and that value |
| DeleteManagers.TemplateExample | src/table/manager/delete_manager/mod.rs:197-200 | the template `["a = ?", 1]` renders `DELETE FROM users WHERE a = ?` deferring `1`, and `DELETE FROM users WHERE a = 1` filled in |
| DeleteManagers.TemplateNotExample | src/table/manager/delete_manager/mod.rs:201-203 | adding `where_not` on a list appends ` AND b NOT IN (1,2,3)`, inline, after the template |
| DeleteManagers.OrderExample | src/table/manager/delete_manager/mod.rs:221-230 | ORDER BY items without a condition are refused; with `where_not_or` they render `DELETE FROM users WHERE (a != 1 OR b NOT IN (1,2,3)) ORDER BY id desc,created_at desc,updated_at desc` |
| DeleteManagers.LimitExample | src/table/manager/delete_manager/mod.rs:233-237 | `limit(10)` with `where("a = 1")` renders `DELETE FROM users WHERE a = 1 LIMIT 10` |
| DeleteManagers.PaginateExamples | src/table/manager/delete_manager/mod.rs:246-254 | pages 1 and 2 of size 20 with `where("a = 1")` render `... WHERE a = 1 LIMIT 20 OFFSET 0` and `... LIMIT 20 OFFSET 20` |
| UpdateManagers.ChangeSql | src/table/manager/update_manager/mod.rs:142-185 | no assignment is the error "update table data update value must exist"; no conditions after a good assignment is the error "delete table data where statements must exist"; otherwise success exactly when every part succeeds; the statement starts with the UPDATE clause and ` WHERE`; its deferred values are the assignment's followed by the conditions' |
| UpdateManagers.UpdateManager.constructor | src/table/manager/update_manager/mod.rs:15-27 | a new manager has no assignment, conditions, orders, limit or offset |
| UpdateManagers.UpdateManager.Update | src/table/manager/update_manager/mod.rs:30-33 | the assignment is replaced by an inline one |
| UpdateManagers.UpdateManager.UpdatePrepare | src/table/manager/update_manager/mod.rs:34-37 | the assignment is replaced by a prepared one |
| UpdateManagers.UpdateManager.AddWhere | src/table/manager/update_manager/mod.rs:38-109 | the condition, with its modifiers, is appended after the earlier ones |
| UpdateManagers.UpdateManager.WhereRange | src/table/manager/update_manager/mod.rs:110-118 | the range condition is appended; a range without bounds is refused |
| UpdateManagers.UpdateManager.AddOrder | src/table/manager/update_manager/mod.rs:119-127 | the ordering is appended after the earlier ones |
| UpdateManagers.UpdateManager.SetLimit | src/table/manager/update_manager/mod.rs:128-131 | the limit is replaced; nothing else changes |
| UpdateManagers.UpdateManager.SetOffset | src/table/manager/update_manager/mod.rs:132-135 | the offset is replaced; nothing else changes |
| UpdateManagers.UpdateManager.Paginate | src/table/manager/update_manager/mod.rs:136-141 | the limit becomes the page size and the offset the page's start; page 0 and an overflowing start are refused |
| UpdateManagers.UpdateManager.ToSql | src/table/manager/update_manager/mod.rs:142-185 | the method computes `ChangeSql` of the manager's state |
| UpdateManagers.Inline | src/table/manager/update_manager/mod.rs:30-37 | the same change with the assignment's and the conditions' prepare flags cleared |
| UpdateManagers.ChangePrepared | src/table/manager/update_manager/mod.rs:142-185 | a prepared change, filled in, is exactly the change with its values inline |
| UpdateManagers.ConditionedChange | src/table/manager/update_manager/mod.rs:142-185 | assignments with conditions and nothing else set give the assignments, then the WHERE clause |
| UpdateManagers.ChangeRendersInline | src/table/manager/update_manager/mod.rs:142-185 | a prepared change holds one mark per deferred value and renders to the text of its all-inline counterpart |
| UpdateManagers.SampleExample | src/table/manager/update_manager/mod.rs:199-207 | no assignment is refused; the sample row with `where("a = 1")` renders `UPDATE users SET a = 1, b = 1, c = null, d = 'desc' WHERE a = 1` |
| UpdateManagers.SamplePreparedExample | src/table/manager/update_manager/mod.rs:208-211 | `update_prepare` defers the four literals behind four marks and renders, filled in, to the same statement |
| InsertManagers.InsertionSql | src/table/manager/insert_manager/mod.rs:28-38 | no row is the error "insert table data insert value must exist"; otherwise the INSERT statement of the row |
| InsertManagers.InsertManager.constructor | src/table/manager/insert_manager/mod.rs:10-17 | a new manager holds no row |
| InsertManagers.InsertManager.Insert | src/table/manager/insert_manager/mod.rs:20-23 | the row is replaced by an inline one |
| InsertManagers.InsertManager.InsertPrepare | src/table/manager/insert_manager/mod.rs:24-27 | the row is replaced by a prepared one |
| InsertManagers.InsertManager.ToSql | src/table/manager/insert_manager/mod.rs:28-38 | the method computes `InsertionSql` of the manager's state |
| InsertManagers.InsertionPrepared | src/table/manager/insert_manager/mod.rs:28-38 | a prepared insertion, filled in, is exactly the insertion with the row inline |
| ColumnTypes.PrimaryKeyOf | src/table/column/column_type/mod.rs:215 | only the value types and the primary-key descriptor answer; the other constraint types answer nothing |
| ColumnTypes.UniqueOf | src/table/column/column_type/mod.rs:212 | the primary-key and foreign-key descriptors answer nothing |
| ColumnTypes.IndexOf | src/table/column/column_type/mod.rs:209 | the primary-key and foreign-key descriptors answer nothing |
| ColumnTypes.ForeignKeyOf | src/table/column/column_type/integer.rs:101 | only an integer and the foreign-key descriptor can hold a foreign key |
| ColumnTypes.Descriptor.constructor | src/table/column/column_type/integer.rs:24-41 | a descriptor starts from the given type's state |
| ColumnTypes.Descriptor.SetNull | src/table/column/column_type/integer.rs:79-82 | a value type records the null flag and nothing else changes; the constraint types ignore it, as the trait's default does |
| ColumnTypes.Descriptor.SetNotNull | src/table/column/column_type/mod.rs:203-205 | the same as setting the null flag to the negation |
| ColumnTypes.Descriptor.SetComment | src/table/column/column_type/integer.rs:84-87 | a value type records the comment; the constraint types ignore it |
| ColumnTypes.Descriptor.SetIndex | src/table/column/column_type/integer.rs:90 | value types and the unique descriptor record the index flag; the index, primary-key and foreign-key descriptors keep theirs |
| ColumnTypes.Descriptor.SetUnique | src/table/column/column_type/integer.rs:93 | value types and the index descriptor record the unique flag; the others keep theirs |
| ColumnTypes.Descriptor.SetPrimaryKey | src/table/column/column_type/integer.rs:96-99 | a value type records the primary-key flag; the primary-key descriptor, whose setter is disabled, stays as it is |
| ColumnTypes.Descriptor.SetForeignKey | src/table/column/column_type/integer.rs:102-105 | an integer or the foreign-key descriptor records the foreign key; other types are unchanged |
| ColumnTypes.Descriptor.SetLimit | src/table/column/column_type/integer.rs:44-47 | an integer records the byte width, a `u8` |
| ColumnTypes.Descriptor.SetTinyintType | src/table/column/column_type/integer.rs:48-50 | the byte width becomes 1 |
| ColumnTypes.Descriptor.SetBigintType | src/table/column/column_type/integer.rs:51-53 | the byte width becomes 8 |
| ColumnTypes.Descriptor.SetBitType | src/table/column/column_type/integer.rs:54-57 | an integer records the bit width, a `u8` |
| ColumnTypes.Descriptor.SetUnsigned | src/table/column/column_type/integer.rs:58-61 | an integer records the unsigned flag |
| ColumnTypes.Descriptor.SetZerofill | src/table/column/column_type/integer.rs:62-66 | an integer records the zerofill flag |
| ColumnTypes.Descriptor.SetNumberDefault | src/table/column/column_type/integer.rs:67-70 | an integer records an `i64` default |
| ColumnTypes.Descriptor.SetAutoIncrement | src/table/column/column_type/integer.rs:71-74 | an integer records the auto-increment flag |
| ColumnTypes.Descriptor.SetFlagDefault | src/table/column/column_type/boolean.rs:28-31 | a boolean records its default |
| ColumnTypes.Descriptor.SetTextDefault | src/table/column/column_type/string.rs:42-45 | a type with a textual default records it |
| ColumnTypes.Descriptor.SetBytesDefault | src/table/column/column_type/binary.rs:42-45 | a binary column records its byte default |
| ColumnTypes.Descriptor.SetPrecisionScale | src/table/column/column_type/decimal.rs:32-36 | a decimal records precision and scale, both `u8` |
| ColumnTypes.Descriptor.SetCharType | src/table/column/column_type/string.rs:33-37 | a string becomes fixed-width CHAR of the given `u8` length |
| ColumnTypes.Descriptor.SetLength | src/table/column/column_type/string.rs:38-41 | a string records a `u32` length |
| ColumnTypes.Descriptor.SetBinaryType | src/table/column/column_type/binary.rs:33-37 | a binary column becomes fixed-width BINARY of the given `u32` size |
| ColumnTypes.Descriptor.SetByte | src/table/column/column_type/binary.rs:38-41 | a binary column records a `u32` size |
| ColumnTypes.Descriptor.SetOnCreateCurrentTimestamp | src/table/column/column_type/timestamp.rs:45-48 | a timestamp records the on-create flag |
| ColumnTypes.Descriptor.SetOnUpdateCurrentTimestamp | src/table/column/column_type/timestamp.rs:49-52 | a timestamp records the on-update flag |
| ColumnTypes.Definition | src/table/column/column_type/mod.rs:80-138 | a definition exists exactly for the value types; the index, unique, primary-key and foreign-key descriptors render none |
| ColumnTypes.DefinitionShape | src/table/column/column_type/integer.rs:107-154 | a definition starts with the type keyword and ends with the comment clause |
| ColumnTypes.DefinitionIgnoresIndexFlags | src/table/column/column_type/integer.rs:107-154 | the index and unique flags never change a definition |
| ColumnTypes.IntegerDefinitionIgnoresKeys | src/table/column/column_type/integer.rs:137-141 | an integer's primary-key flag and foreign key never appear in its definition |
| ColumnTypes.FalseFlagsAreUnset | src/table/column/column_type/integer.rs:118-136 | a flag set to false renders exactly as an unset one |
| ColumnTypes.ZerofillNeedsUnsigned | src/table/column/column_type/integer.rs:118-127 | the zerofill flag changes nothing unless the integer is unsigned and the dialect is MySQL |
| ColumnTypes.BitTypeOverridesLimit | src/table/column/column_type/integer.rs:110-120 | once a bit width is set, the byte width changes nothing |
| ColumnTypes.OnCreateSuppressesDefault | src/table/column/column_type/timestamp.rs:91-97 | once the on-create flag is set, either way, the explicit default changes nothing |
| ColumnTypes.ConstraintSql | src/table/column/column_type/mod.rs:222-291 | none exactly when no key clause and no foreign key is emitted; a foreign key alone gives just its clause |
| ColumnTypes.PrimaryKeyComesFirst | src/table/column/column_type/mod.rs:224-236 | a set primary key starts the constraint text with `PRIMARY KEY pk_on_` and the first column |
| ColumnTypes.ForeignKeyComesLast | src/table/column/column_type/mod.rs:286-289 | a foreign key's clause ends the constraint text |
| ColumnTypes.ConstraintDependsOnlyOnKeys | src/table/column/column_type/mod.rs:222-291 | the constraints depend only on which key flags are `Some(true)` and on the foreign key |
| Strings.NatToString | src/table/statements/limit.rs:26 | the decimal text of a number is non-empty, made only of digits, and starts with `0` only for zero |
| LimitStatement.New | src/table/statements/limit.rs:19-23 | the limit holds the given `usize` value |
| OffsetStatement.New | src/table/statements/offset.rs:19-23 | the offset holds the given `usize` value |
| Dialects.AutoIncrement | src/const_data/mod.rs:6-13 | the auto-increment keyword is `AUTOINCREMENT` exactly on SQLite and `AUTO_INCREMENT` exactly elsewhere |
| Columns.New | src/table/column/mod.rs:18-25 | a new entry names exactly one column, the given one, with the given action and descriptor |
| Columns.ColumnSql | src/table/column/mod.rs:29-79 | column text exists exactly when the action needs no definition or the type has one; a dropped column or constraint renders just its name |
| Columns.ColumnSqlShape | src/table/column/mod.rs:29-79 | the column text starts with the name and, for adding, modifying, changing and adding a constraint, continues with the definition |
| Columns.RenameAndDropIgnoreType | src/table/column/mod.rs:53-76 | renaming and dropping render the same text whatever the descriptor |
| Columns.ConstraintTypesHaveNoDefinition | src/table/column/mod.rs:32-67 | an index, unique, primary-key or foreign-key entry gives no column text for an action that needs a definition |
| Columns.AddColumnSql | src/table/column/mod.rs:32-40 | adding a column without a position renders its name, a space and its definition |
| Columns.IdDefinitionExample | tests/table/mysql.rs:5-10 | the test table's `id` integer is defined as `INT NOT NULL AUTO_INCREMENT COMMENT 'ID'` |
| Columns.IdConstraintExample | tests/table/mysql.rs:5-10 | the same column's primary-key flag renders as `PRIMARY KEY pk_on_id (id)` |
| Columns.EmptyNameExample | src/table/column/mod.rs:32-40 | an entry with an empty name renders a space before its definition |
| Columns.UniqueIndexExample | src/table/column/column_type/mod.rs:245-249 | a unique index over two columns renders `UNIQUE INDEX unique_index_on_user_id_and_order_id (user_id,order_id)` |
| Columns.DropPrimaryKeyExample | src/table/column/column_type/mod.rs:226-233 | dropping a primary key renders the drop clause right after the key name, with no space |
| ForeignKeys.ReferenceSqlAsWritten | src/table/define_table.rs:586-598 | the source's spelling agrees with the SQL keywords except for `Cascade` |
| ForeignKeys.ReferenceSql | src/table/define_table.rs:586-598 | a custom action renders its own text; the named ones render one of the four SQL keywords |
| ForeignKeys.ReferenceSqlInjective | src/table/define_table.rs:586-598 | the four named actions render four different keywords |
| ForeignKeys.CascadeMisspelt | src/table/define_table.rs:592 | the source renders `Cascade` as `CANSCADE`, the corrected model as `CASCADE`, and every other action the same in both |
| ForeignKeys.StripId | src/table/define_table.rs:615 | a trailing `_id` is removed once; any other name is unchanged |
| ForeignKeys.ForeignKeySqlShape | src/table/define_table.rs:624-640 | a dropped key renders exactly its head; any other starts with the head, the columns and the referenced table |
| ForeignKeys.FromSql | src/table/define_table.rs:610-621 | the conventional key on `c` renders `FOREIGN KEY fk_on_c (c) REFERENCES <plural stem> (id)`, or only its head when dropped |
| ForeignKeys.IdColumnReferencesStem | src/table/define_table.rs:615 | a `<stem>_id` column references the plural of its stem; `user_id` references `users` |
| DefineTables.TableSql | src/table/define_table.rs:434-569 | no action renders nothing and DROP renders `DROP TABLE IF EXISTS <name>;`; CREATE is stated in full by `CreateListsEveryClause`, and both CREATE and ALTER by `CreateSqlShape`, `AlterSqlShape`, and worked through on the tests by `CreateIdTableExample`, `TableSamples.AlterSampleExample` and `TableSamples.CreateKeysExample` |
| DefineTables.TableSqlAsWritten | src/table/define_table.rs:434-569 | as written, no action and DROP render as the corrected statement, and CREATE renders as the corrected statement exactly when no engine is set |
| DefineTables.CreateListsEveryClause | src/table/define_table.rs:436-473 | a CREATE with at least one column line is `CREATE TABLE IF NOT EXISTS <name> (`, a newline, the column lines followed by the constraint clauses all joined by `,\n`, a newline, `)`, the table options and `;` |
| DefineTables.CreateIdTableExample | tests/table/mysql.rs:5-10 | the table with one `id` integer column, not null, auto-incremented, primary key and commented `ID`, renders `CREATE TABLE IF NOT EXISTS users (\nid INT NOT NULL AUTO_INCREMENT COMMENT 'ID',\nPRIMARY KEY pk_on_id (id)\n);` |
| TableSamples.AlterSampleExample | tests/table/mysql.rs:101-158 | the ALTER test's entries other than the `FLOAT` one render `ALTER TABLE users`, a newline, and the test's other sixteen lines in order, comma-separated, closed by `;`; the builder accepts them |
| TableSamples.AlterSampleEntries | tests/table/mysql.rs:101-158 | every entry is readable, and the column clauses followed by the constraint clauses are the sixteen lines of the test's statement |
| TableSamples.AlterSixteen | src/table/define_table.rs:477-569 | an ALTER without options whose entries give sixteen clauses renders the head, a newline and the clauses separated by `,\n`, then `;` |
| TableSamples.FourEntries | src/table/define_table.rs:480-541 | four entries' column clauses and constraint clauses are each entry's own, in entry order |
| TableSamples.AlterItemsAppend | src/table/define_table.rs:480-522 | the column clauses of two entry lists are those of the first, then those of the second |
| TableSamples.ConstraintsAppend | src/table/define_table.rs:524-541 | the constraint clauses of two entry lists are those of the first, then those of the second |
| TableSamples.DefinedColumnLines | src/table/define_table.rs:485-498 | an added or modified column without position or key renders `ADD COLUMN`/`MODIFY COLUMN`, its name, a space and its definition, and no constraint |
| TableSamples.ChangedColumnLines | src/table/define_table.rs:499-505 | a changed column renders `CHANGE COLUMN`, its old and new names and its definition, and no constraint |
| TableSamples.RenamedColumnLines | src/table/define_table.rs:506-512 | a renamed column renders `RENAME COLUMN <name> TO <new name>` and no constraint |
| TableSamples.DroppedColumnLines | src/table/define_table.rs:513-519 | a dropped column of a keyless value type renders `DROP COLUMN <name>` and no constraint |
| TableSamples.IndexLines | src/table/column/column_type/mod.rs:242-284 | a dropped index or unique key renders only `DROP INDEX <name>`, a renamed index only `RENAME INDEX <name> TO <new name>` |
| TableSamples.DroppedPrimaryKeyLines | src/table/column/column_type/mod.rs:224-237 | a dropped primary key renders only `PRIMARY KEY pk_on_<name>DROP INDEX <name>`, with no space, as written |
| TableSamples.DroppedForeignKeyLines | src/table/define_table.rs:624-630 | a dropped conventional foreign key renders only `FOREIGN KEY fk_on_<name>` |
| TableSamples.AddedIndexLines | src/table/column/column_type/mod.rs:243-248 | an added unique index over two columns renders only `ADD CONSTRAINT UNIQUE INDEX unique_index_on_<a>_and_<b> (<a>,<b>)` |
| TableSamples.SingleKeyLine | src/table/column/column_type/mod.rs:238-284 | an added single-column entry with a unique or index flag and no other key gives one clause, the key's name and its column in parentheses |
| TableSamples.ForeignKeyLine | src/table/define_table.rs:624-640 | an added entry with its column's conventional foreign key and no other key gives `FOREIGN KEY fk_on_<c> (<c>) REFERENCES <plural of the stem> (id)` |
| TableSamples.CreateKeysExample | tests/table/mysql.rs:13-90 | the key-carrying entries of the second CREATE test give the seven constraint lines of its statement, in the test's order |
| DefineTables.CreateSqlShape | src/table/define_table.rs:436-473 | CREATE opens with `CREATE TABLE IF NOT EXISTS <name> (` and a newline and closes with `)`, the table options and `;` |
| DefineTables.AlterSqlShape | src/table/define_table.rs:475-563 | ALTER opens with `ALTER TABLE <name>` and closes with the rename, engine, character set, collation and `;` |
| DefineTables.RenameSql | src/table/define_table.rs:64-66 | a renamed table renders only its new name |
| DefineTables.AlterBodySnoc | src/table/define_table.rs:524-541 | in the corrected ALTER list each further constraint adds a comma unless nothing precedes it |
| DefineTables.AlterBodyAgrees | src/table/define_table.rs:524-541 | after a column clause, or with at most one constraint, the source's ALTER list equals the corrected one |
| DefineTables.AlterConstraintsUnseparated | src/table/define_table.rs:524-541 | with no column clause, the source writes two constraints without a comma between them, unlike the corrected list |
| DefineTables.EngineMisspelt | src/table/define_table.rs:462-464 | with an engine set, the source's CREATE writes `ENGINE SET <engine>`, which differs from the corrected `ENGINE = <engine>`; without one they agree |
| DefineTables.TableOptionsAgree | src/table/define_table.rs:549-557 | with the engine spelt correctly, CREATE and ALTER without a rename write the same table options |
| DefineTables.AsWrittenAgrees | src/table/define_table.rs:434-569 | outside the two findings, the source's statement and the corrected one are equal |
| DefineTables.AppendKeepsRenderable | src/table/define_table.rs:78-432 | appending an entry that names a column keeps a definition renderable |
| DefineTables.ConstraintEntriesAddNoLine | src/table/define_table.rs:440-450 | an entry that only adds a constraint adds no CREATE column line |
| DefineTables.DefinitionsAppend | src/table/define_table.rs:440-450 | the column lines of two entry lists are those of each, in order |
| DefineTables.EntryLines | src/table/define_table.rs:440-450 | an entry with a name adds its own column text, and only that, to each list |
| DefineTables.DefineTable.Default | src/table/define_table.rs:23-39 | a new definition has no action, an empty name, no options and no entries |
| DefineTables.DefineTable.Create | src/table/define_table.rs:43-51 | CREATE records the name and the `ON UPDATE CASCADE ON DELETE RESTRICT` referential attribute |
| DefineTables.DefineTable.Alter | src/table/define_table.rs:53-70 | ALTER records the name and no new name |
| DefineTables.DefineTable.Rename | src/table/define_table.rs:53-66 | a rename is an ALTER that records the new name |
| DefineTables.DefineTable.Drop | src/table/define_table.rs:71-76 | DROP records the name |
| DefineTables.DefineTable.SetColumn | src/table/define_table.rs:78-82 | one entry for the column, with the configured descriptor, is appended; nothing else changes |
| DefineTables.DefineTable.AddColumn | src/table/define_table.rs:83-85 | appends an add-column entry without a position |
| DefineTables.DefineTable.ModifyColumn | src/table/define_table.rs:86-88 | appends a modify-column entry without a position |
| DefineTables.DefineTable.ChangeColumn | src/table/define_table.rs:89-91 | appends a change-column entry with the new name |
| DefineTables.DefineTable.RenameColumn | src/table/define_table.rs:92-94 | appends a rename-column entry holding the kind's default descriptor |
| DefineTables.DefineTable.DropColumn | src/table/define_table.rs:95-97 | appends a drop-column entry holding the kind's default descriptor |
| DefineTables.DefineTable.SetIndex | src/table/define_table.rs:374-381 | appends an index entry over all the given columns |
| DefineTables.DefineTable.AddIndex | src/table/define_table.rs:382-385 | appends an add-constraint index entry; an empty column list is refused, as the source asserts |
| DefineTables.DefineTable.RenameIndex | src/table/define_table.rs:386-388 | appends a rename-index entry with the default index descriptor |
| DefineTables.DefineTable.DropIndex | src/table/define_table.rs:389-391 | appends a drop-constraint entry with the default index descriptor |
| DefineTables.DefineTable.SetUnique | src/table/define_table.rs:393-400 | appends a unique entry over all the given columns |
| DefineTables.DefineTable.AddUnique | src/table/define_table.rs:401-403 | appends an add-constraint unique entry |
| DefineTables.DefineTable.DropUnique | src/table/define_table.rs:404-406 | appends a drop-constraint entry with the default unique descriptor |
| DefineTables.DefineTable.SetPrimaryKey | src/table/define_table.rs:408-413 | appends a primary-key entry with the default descriptor, which accepts no setting |
| DefineTables.DefineTable.AddPrimaryKey | src/table/define_table.rs:414-416 | appends an add-constraint primary-key entry |
| DefineTables.DefineTable.DropPrimaryKey | src/table/define_table.rs:417-419 | appends a drop-constraint primary-key entry |
| DefineTables.DefineTable.SetForeignKey | src/table/define_table.rs:421-426 | appends a foreign-key entry holding the conventional key for the column, or the callback's replacement |
| DefineTables.ForeignKeyDescriptor | src/table/define_table.rs:421-426 | the configured descriptor holds the callback's key when one is given, otherwise the conventional key for the column |
| DefineTables.DefineTable.AddForeignKey | src/table/define_table.rs:427-429 | appends an add-constraint foreign-key entry |
| DefineTables.DefineTable.DropForeignKey | src/table/define_table.rs:430-432 | appends a drop-constraint entry holding the conventional key |
| DefineTables.DefineTable.ToSql | src/table/define_table.rs:434-569 | the method computes `TableSql` of the definition |
| DefineTables.DefineTable.CreateToSql | src/table/define_table.rs:436-473 | the two CREATE loops and the options compute `TableSql` |
| DefineTables.DefineTable.AlterToSql | src/table/define_table.rs:475-563 | the two ALTER loops and the options compute the corrected `TableSql` |
| DefineTables.PushDefinitions | src/table/define_table.rs:440-450 | the first CREATE loop writes the column lines joined by `,\n` and counts them from -1 |
| DefineTables.PushConstraints | src/table/define_table.rs:452-460 | the second CREATE loop writes every constraint after `,\n` |
| DefineTables.PushAlterItems | src/table/define_table.rs:478-521 | the first ALTER loop writes the column clauses after a newline, separated by `,\n`, and counts them |
| DefineTables.PushAlterConstraints | src/table/define_table.rs:524-541 | the second ALTER loop, corrected, continues the same list with the constraint clauses |
| DefineTables.AlterConstraintPush | src/table/define_table.rs:526-540 | one turn of the corrected constraint loop adds entry `i`'s clause, if any, to the ALTER list and keeps the count |
| DefineTables.ColumnText | src/table/define_table.rs:443-448 | entry `i` adds exactly its own column line, if any |
| DefineTables.AlterText | src/table/define_table.rs:480-519 | entry `i` adds exactly its own ALTER column clause, if any |
| DefineTables.ConstraintText | src/table/define_table.rs:454-459 | entry `i` adds exactly its own constraint clause, if any |
| DefineDatabases.DatabaseSql | src/database/define_database.rs:60-98 | nothing exactly when there is no action; otherwise a statement ending in `;` |
| DefineDatabases.AlterWritesOnlySetOptions | src/database/define_database.rs:76-92 | ALTER writes only the name exactly when no option is set |
| DefineDatabases.CreateIgnoresReadOnly | src/database/define_database.rs:62-75 | CREATE never writes the read-only flag |
| DefineDatabases.EncryptionQuotedOnlyInAlter | src/database/define_database.rs:62-92 | the same encryption flag is written bare by CREATE and quoted by ALTER |
| DefineDatabases.DropDistinguishesNames | src/database/define_database.rs:93-95 | two DROP statements are equal exactly when the names are |
| DefineDatabases.CreateDefaultsSql | tests/database/mysql.rs:3-8 | a created database is written with `utf8mb4` and `utf8mb4_0900_ai_ci` |
| DefineDatabases.AlterExampleSql | tests/database/mysql.rs:10-18 | encryption `Y` and read-only 1 give `ALTER DATABASE db_prod ENCRYPTION 'Y' READ ONLY 1;` |
| DefineDatabases.DefineDatabase.Default | src/database/define_database.rs:21-32 | a new definition has no action, an empty name and no options |
| DefineDatabases.DefineDatabase.Create | src/database/define_database.rs:36-43 | CREATE records the name and the default character set and collation |
| DefineDatabases.DefineDatabase.Alter | src/database/define_database.rs:45-51 | ALTER records the name and no options before the callback |
| DefineDatabases.DefineDatabase.Drop | src/database/define_database.rs:53-58 | DROP records the name |
| DefineDatabases.DefineDatabase.ToSql | src/database/define_database.rs:60-98 | the method computes `DatabaseSql` of the definition |
| DefineDatabases.Statement | src/database/define_database.rs:60-98 | pushing the clauses one by one gives `DatabaseSql` |
| DefineDatabases.PushClause | src/database/define_database.rs:64-72 | a set option adds its prefix and value; an unset one adds nothing |
| DefineDatabases.PushCreateOptions | src/database/define_database.rs:64-72 | CREATE pushes the set character set, collation and bare encryption, in that order |
| DefineDatabases.PushAlterOptions | src/database/define_database.rs:78-89 | ALTER pushes the set character set, collation, quoted encryption and read-only flag, in that order |
| DatabaseManagers.ManagerSql | src/database/database_manager/mod.rs:50-77 | every statement is non-empty and ends in `;`; renaming is refused where the build has no rename |
| DatabaseManagers.CreateDatabaseSql | src/database/database_manager/mod.rs:52-58 | SQLite writes only the name; every other dialect also writes the default character set and collation |
| DatabaseManagers.CharsetWrittenUnlessSqlite | src/database/database_manager/mod.rs:52-58 | SQLite ignores the character set; any other dialect writes exactly the one it holds |
| DatabaseManagers.DropSameInEveryDialect | src/database/database_manager/mod.rs:73-75 | every dialect drops with `DROP DATABASE <name>;` |
| DatabaseManagers.PostgresRenameSql | src/database/database_manager/mod.rs:61-64 | PostgreSQL renames with one `ALTER DATABASE ... RENAME TO ...;` |
| DatabaseManagers.MsSqlRenameSql | src/database/database_manager/mod.rs:65-71 | SQL Server renames with three `;`-terminated statements on three lines |
| TableManagers.TableManagerSql | src/table/table_manager/mod.rs:54-90 | every statement is non-empty and ends in `;` |
| TableManagers.Separators | src/table/table_manager/mod.rs:61-63 | `n` separators are `2n` characters |
| TableManagers.ColumnLinesAreSeparators | src/table/table_manager/mod.rs:61-63 | since a table column renders nothing, the columns contribute only their separators |
| TableManagers.CreateSqlShape | src/table/table_manager/mod.rs:56-70 | CREATE is the head, the key column, one separator per column, `)` and the options |
| TableManagers.CreateTableSqlite | src/table/table_manager/mod.rs:56-70 | a new SQLite table has the `AUTOINCREMENT` key column and no options |
| TableManagers.CreateTableElsewhere | tests/table_manager/mysql.rs:3-8 | elsewhere, the `AUTO_INCREMENT` key column and the default character set and collation |
| TableManagers.UnderscoredId | src/table/table_manager/mod.rs:60 | outside SQLite the key column is `id INTEGER NOT NULL AUTO_INCREMENT PRIMARY KEY` |
| TableManagers.DefaultOptions | src/table/table_manager/mod.rs:66-67 | outside SQLite the default options are ` CHARACTER SET utf8mb4 COLLATE utf8mb4_0900_ai_ci` |
| TableManagers.ForceNeverRendered | src/table/table_manager/mod.rs:17 | the foreign-key restriction is held but never changes the statement |
| TableManagers.RenameNamesBothTables | src/table/table_manager/mod.rs:72-84 | every rename names the former table first and ends with the new name and `;`; PostgreSQL and SQLite agree and MySQL differs |
| TableManagers.TableManager.Default | src/table/table_manager/mod.rs:21-32 | create, an empty name, the MySQL defaults and no columns |
| TableManagers.TableManager.CreateTable | src/table/table_manager/mod.rs:35-40 | create with the name and the defaults |
| TableManagers.TableManager.RenameTable | src/table/table_manager/mod.rs:41-47 | rename from the former name with the defaults |
| TableManagers.TableManager.DropTable | src/table/table_manager/mod.rs:48-53 | drop with the name and the defaults |
| TableManagers.TableManager.ToSql | src/table/table_manager/mod.rs:54-90 | the method computes `TableManagerSql` of the manager's state |
| TableManagers.PushColumns | src/table/table_manager/mod.rs:61-63 | the column loop appends each column after `,\n` |

## Left out

- `Float` and `Time` column types: their source files are not part of this model. The `ColumnType` dispatch in `src/table/column/column_type/mod.rs` covers the other sixteen kinds.
- Floating-point defaults of `Decimal` and `Double`: Rust's `f64` formatting is not modelled. The default is the text the formatter prints.
- JSON numbers: a number is the text `serde_json` prints for it. The model does no numeric conversion, and string escaping in the JSON text is not modelled.
- Conversion of arbitrary `Serialize` inputs with `json!`, and `chrono` formatting of range bounds: the inputs are already JSON values and the bounds are text.
- Table names derived from Rust types (`type_to_pluralize_string`, `Manageable::table_name`): this needs reflection, a regular expression and an inflection library. The table name is a parameter.
- `ForeignKeys.Plural`: English pluralisation from the inflection library is simplified to appending `s`. The regular expression `_id$` is modelled by `StripId`.
- The global keyword tables and `#[cfg(feature = ...)]` branches in `src/const_data/mod.rs`: compile-time configuration. They become the `Dialect` and `Keywords` parameters. Only the `auto_increment` entry is fixed, in `Dialects.AutoIncrement`. The other keyword strings are fields of `Keywords`.
- Closure callbacks on builders (`impl Fn(&mut T)`): the caller passes an already configured descriptor, or assigns the public fields directly.
- `eprintln!` in the GROUP BY array arm (src/table/statements/group.rs:31): output to standard error, with no effect on the result.
- `TableColumn` types under `src/table/table_column` and `src/table/column/column_value`: they render nothing. `TableManagers.TableColumnSql` is the empty text, and the column type a table column holds is not modelled.
- The `force` field of `TableManager` and the foreign-key attributes of the definition: they are held but never rendered. `TableManagers.ForceNeverRendered` states this for `force`.
- The thin delegators of `src/lib.rs`, the re-exports of `src/prelude.rs`, and the trait defaults of `src/table/manager/mod.rs`: they have no logic of their own. The crate's error enum is `Wrappers.SqlError`, with the same two variants.
- `TryFrom`/`String` conversions of the DDL builders: they cannot fail, and the DDL renders no deferred values. So the DDL renderers return plain text rather than a `Sql` fragment.
- Async test plumbing (`tokio_test::block_on`): the repository's tests only supply expected strings, which appear here as example lemmas.
- `DefineTable`'s comment field: the struct has no setter for it, so it is always unset. The model keeps the source's ` COLLATE <comment>` rendering, which never fires.
- `DatabaseManagers.Default`, `CreateDatabase`, `RenameDatabase`, `DropDatabase`: these constructor functions carry no contract of their own. `CreateDatabaseSql`, `PostgresRenameSql`, `MsSqlRenameSql` and `DropSameInEveryDialect` state what they render.
- Columns.ColumnSql: the source panics when an entry without a name is rendered. This is a precondition here, not a modelled failure.
- LimitStatement.New, OffsetStatement.New: values above `usize::MAX` cannot be built in Rust, so they are excluded by a precondition. Arithmetic overflow in `paginate` is excluded the same way.
- WhereStatement.NewRange: a range with two unbounded ends panics in the source, and is a precondition here.
- OrderStatement.ToSql, GroupStatement.ToSql: a non-string direction or group item makes the source panic on `unwrap`, and is a precondition here.
- Collectors.Sql.ToSqlString: the source panics when there are fewer deferred values than `?` marks. This is a precondition here.
- WhereStatement.Condition, WhereStatement.ToSql: a list condition whose first element is not a string makes the source panic on `as_str().unwrap()` (src/table/statements/where.rs:150). `WellFormed` is a precondition here instead of a modelled failure.
- Json.Debug: the `\u{..}` escapes Rust prints for non-printable characters other than `\0`, `\t`, `\r` and `\n` are not modelled. Those characters print as themselves.
- The `price` entries of the two table tests in tests/table/mysql.rs (lines 29-31 and 111-113): they use the `Float` type, which is not part of this model. `TableSamples.AlterSampleExample` reproduces every other line of the ALTER statement at lines 141-158.
- The `time_at` entry of the second CREATE test (line 52): it uses the `Time` type, which is not part of this model. So the full statement text at lines 68-91 is not reproduced. `TableSamples.CreateKeysExample` reproduces its constraint lines 84-90, and `DefineTables.CreateIdTableExample` the first CREATE test. The other column lines (69-79, 81-83) are representable, with the `f64` defaults `1.0` written as the text `1` that Rust prints, but they are not worked through as an example.
- JSON objects: an object is the list of entries in the order the caller gives them. `serde_json`'s map keeps one value per key and fixes its own key order; the model assumes its input already has distinct keys in that order, and no predicate states it.
- `ForeignKeys.ForeignKeySql`: the on-update and on-delete options render bare after the referenced columns (a space and the action, with no `ON UPDATE`/`ON DELETE` keyword), as src/table/define_table.rs:633-638 writes them. The options are private fields that `From` sets to `None` and nothing sets, so no public input renders them.

## Findings

| source | as written | input that shows it | evidently intended | confidence | as-written member | corrected member |
|---|---|---|---|---|---|---|
| src/table/statements/order.rs:29-35 | the clauses of a direction object are pushed one after another with no separator | `{"a": "asc", "b": "desc"}` renders `a ascb desc` | `a asc,b desc`, comma-separated like the list form | not executed | OrderStatement.ToSqlAsWritten | OrderStatement.ToSql |
| src/table/define_table.rs:462-464 | CREATE TABLE writes a set engine as ` ENGINE SET <engine>` | engine `InnoDB` gives `... ) ENGINE SET InnoDB;` | ` ENGINE = InnoDB`, as ALTER TABLE writes it at src/table/define_table.rs:549-551 | not executed | DefineTables.CreateOptionsAsWritten | DefineTables.CreateOptions |
| src/table/define_table.rs:592 | the `Cascade` referential action is spelt `CANSCADE` | a foreign key whose on-delete option is `Cascade` renders ` CANSCADE` after its referenced columns (the option is pushed bare, src/table/define_table.rs:636-638); the option fields are private, `From` leaves them `None` and no setter exists, so only code inside the crate can build that input | `CASCADE` | not executed | ForeignKeys.ReferenceSqlAsWritten | ForeignKeys.ReferenceSql |
| src/table/define_table.rs:524-541 | the ALTER constraint loop never increments `column_append_idx`, so with no column clause before them, constraints get no comma between them | an ALTER with two add-constraint entries and no column entry renders `\nc1\nc2` | `\nc1,\nc2`, one comma-separated ALTER list | not executed | DefineTables.AlterBodyAsWritten | DefineTables.AlterBody |

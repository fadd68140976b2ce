/**
 * The table definition builder: CREATE TABLE, ALTER TABLE and DROP TABLE statements
 * assembled from a list of column and constraint entries.
 */
module DefineTables {
  import opened Wrappers
  import opened Strings
  import opened Dialects
  import opened ColumnActions
  import opened ForeignKeys
  import opened ColumnTypes
  import opened Columns

  datatype ActionTable = CreateTable | AlterTable(newName: Option<string>) | DropTable

  /** Everything a table definition holds, in the order the builder collected it. */
  datatype Table = Table(
    action: Option<ActionTable>,
    name: string,
    charset: Option<string>,
    engine: Option<string>,
    collation: Option<string>,
    comment: Option<string>,
    fkAttribute: Option<ReferenceOption>,
    columns: seq<Column>)

  /** The referential actions a created table records (and never renders). */
  const CreateFkAttribute := Custom("ON UPDATE CASCADE ON DELETE RESTRICT")

  // ---------------------------------------------------------------------------------
  // Text helpers

  function Listed(o: Option<string>): seq<string> {
    if o.Some? then [o.value] else []
  }

  /** Every element preceded by `sep`, as a loop that pushes the separator before each item writes it. */
  function Prefixed(xs: seq<string>, sep: string): string {
    if xs == [] then "" else sep + Join(xs, sep)
  }

  /** One more element adds the separator and the element. */
  lemma PrefixedSnoc(xs: seq<string>, x: string, sep: string)
    ensures Prefixed(xs + [x], sep) == Prefixed(xs, sep) + sep + x
  {
    if xs == [] {
      assert xs + [x] == [x] && Join([x], sep) == x;
    } else {
      JoinSnoc(xs, x, sep);
    }
  }

  /** An ALTER TABLE clause list: a newline, then the clauses separated by `,\n`; nothing for none. */
  function Block(xs: seq<string>): string {
    if xs == [] then "" else "\n" + Join(xs, ",\n")
  }

  lemma Framed(head: string, body: string, tail: string)
    ensures head <= head + body + tail && EndsWith(head + body + tail, tail)
  {
    var r := head + body + tail;
    assert r[..|head|] == head;
    assert r[|r| - |tail|..] == tail;
  }

  /** The CREATE TABLE frame: the head, the two entry lists, then `\n)`, the options and `;`. */
  lemma Parenthesised(head: string, lines: string, constraints: string, options: string)
    ensures var r := head + lines + constraints + "\n)" + options + ";";
      head <= r && EndsWith(r, "\n)" + options + ";")
  {
    Framed(head, lines + constraints, "\n)" + options + ";");
    assert head + lines + constraints + "\n)" + options + ";" == head + (lines + constraints) + ("\n)" + options + ";");
  }

  /** One more clause adds a comma (unless it is the first), a newline and the clause. */
  lemma BlockSnoc(xs: seq<string>, x: string)
    ensures Block(xs + [x]) == Block(xs) + (if xs == [] then "" else ",") + "\n" + x
  {
    if xs == [] {
      assert xs + [x] == [x];
    } else {
      JoinSnoc(xs, x, ",\n");
    }
  }

  /** A joined list followed by prefixed elements is the join of both lists. */
  lemma JoinThenPrefixed(xs: seq<string>, ys: seq<string>, sep: string)
    requires |xs| > 0
    ensures Join(xs, sep) + Prefixed(ys, sep) == Join(xs + ys, sep)
  {
    if ys == [] {
      assert xs + ys == xs;
    } else {
      JoinAppend(xs, ys, sep);
    }
  }

  /** Writing one more, possibly absent, item of a `Join`ed list: the separator unless it is the first, then the item. */
  lemma JoinStep(head: string, sql: string, xs: seq<string>, x: Option<string>, piece: string, sep: string)
    requires sql == head + Join(xs, sep)
    requires piece == if x.Some? then (if xs == [] then "" else sep) + x.value else ""
    ensures sql + piece == head + Join(xs + Listed(x), sep)
  {
    if x.None? {
      assert xs + Listed(x) == xs;
    } else if xs == [] {
      assert xs + Listed(x) == [x.value];
    } else {
      JoinSnoc(xs, x.value, sep);
    }
  }

  /** Writing one more, possibly absent, item of a `Prefixed` list: the separator, then the item. */
  lemma PrefixedStep(head: string, sql: string, xs: seq<string>, x: Option<string>, piece: string, sep: string)
    requires sql == head + Prefixed(xs, sep)
    requires piece == if x.Some? then sep + x.value else ""
    ensures sql + piece == head + Prefixed(xs + Listed(x), sep)
  {
    if x.None? {
      assert xs + Listed(x) == xs;
    } else {
      PrefixedSnoc(xs, x.value, sep);
    }
  }

  /** Writing one more, possibly absent, clause of a `Block`: a comma unless it is the first, a newline, the clause. */
  lemma BlockStep(head: string, sql: string, xs: seq<string>, x: Option<string>, piece: string)
    requires sql == head + Block(xs)
    requires piece == if x.Some? then (if xs == [] then "" else ",") + "\n" + x.value else ""
    ensures sql + piece == head + Block(xs + Listed(x))
  {
    if x.None? {
      assert xs + Listed(x) == xs;
    } else {
      BlockSnoc(xs, x.value);
    }
  }

  /** Push one more, possibly absent, item of a `Join`ed list; `idx` counts the items pushed, from -1. */
  method JoinPush(ghost head: string, sql: string, ghost xs: seq<string>, idx: int, line: Option<string>, sep: string)
    returns (sql': string, idx': int)
    requires sql == head + Join(xs, sep) && idx == |xs| - 1
    ensures sql' == head + Join(xs + Listed(line), sep) && idx' == |xs + Listed(line)| - 1
  {
    var piece := "";
    idx' := idx;
    if line.Some? {
      piece := (if idx >= 0 then sep else "") + line.value;
      idx' := idx + 1;
    }
    JoinStep(head, sql, xs, line, piece, sep);
    sql' := sql + piece;
  }

  /** Push one more, possibly absent, item of a `Prefixed` list. */
  method PrefixedPush(ghost head: string, sql: string, ghost xs: seq<string>, line: Option<string>, sep: string)
    returns (sql': string)
    requires sql == head + Prefixed(xs, sep)
    ensures sql' == head + Prefixed(xs + Listed(line), sep)
  {
    var piece := "";
    if line.Some? {
      piece := sep + line.value;
    }
    PrefixedStep(head, sql, xs, line, piece, sep);
    sql' := sql + piece;
  }

  /** Push one more, possibly absent, clause of a `Block`; `idx` counts the clauses pushed, from -1. */
  method BlockPush(ghost head: string, sql: string, ghost xs: seq<string>, idx: int, line: Option<string>)
    returns (sql': string, idx': int)
    requires sql == head + Block(xs) && idx == |xs| - 1
    ensures sql' == head + Block(xs + Listed(line)) && idx' == |xs + Listed(line)| - 1
  {
    var piece := "";
    idx' := idx;
    if line.Some? {
      piece := (if idx >= 0 then "," else "") + "\n" + line.value;
      idx' := idx + 1;
    }
    BlockStep(head, sql, xs, line, piece);
    sql' := sql + piece;
  }

  // ---------------------------------------------------------------------------------
  // The entry lists of the statements

  /** CREATE renders every entry's column text and every entry's constraint text. */
  predicate CreateReadable(cols: seq<Column>, kw: Keywords) {
    forall i | 0 <= i < |cols| :: Nameable(cols[i], kw, true)
  }

  /** ALTER renders column text only for the entries that change a column. */
  predicate AlterReadable(cols: seq<Column>, kw: Keywords) {
    forall i | 0 <= i < |cols| :: Nameable(cols[i], kw, cols[i].action.AltersColumn())
  }

  /**
   * The column line of one entry for CREATE TABLE, if its action and type give one. An
   * entry without the name it would read gives none here; the source panics on it, and
   * `Renderable` excludes it.
   */
  function ColumnLine(c: Column, kw: Keywords): seq<string> {
    if DefinitionNeedsName(c, kw) && |c.names| == 0 then [] else Listed(ColumnSql(c, kw))
  }

  /** The constraint clause of one entry, if any; ALTER prefixes an added one with `ADD CONSTRAINT`. */
  function ConstraintLine(c: Column, alter: bool): seq<string> {
    if ConstraintNeedsName(c.columnType, c.action) && |c.names| == 0 then []
    else
      var s := ConstraintSql(c.columnType, c.names, c.action);
      if s.Some? then [(if alter && c.action.AddConstraint? then "ADD CONSTRAINT " else "") + s.value] else []
  }

  function AlterKeyword(a: ColumnTypeAction): string
    requires a.AltersColumn()
  {
    match a
    case AddColumn(_) => "ADD COLUMN "
    case ModifyColumn(_) => "MODIFY COLUMN "
    case ChangeColumn(_, _) => "CHANGE COLUMN "
    case RenameColumn(_, _) => "RENAME COLUMN "
    case DropColumn => "DROP COLUMN "
  }

  /** The ALTER TABLE clause of one entry that changes a column: its keyword, then its column text. */
  function AlterLine(c: Column, kw: Keywords): seq<string> {
    var line := ColumnLine(c, kw);
    if c.action.AltersColumn() && line != [] then [AlterKeyword(c.action) + line[0]] else []
  }

  /** The column lines of CREATE TABLE, in entry order. */
  function Definitions(cols: seq<Column>, kw: Keywords): (r: seq<string>)
  {
    if cols == [] then [] else Definitions(cols[..|cols| - 1], kw) + ColumnLine(cols[|cols| - 1], kw)
  }

  /** The constraint clauses of the entries, in entry order. */
  function Constraints(cols: seq<Column>, alter: bool): (r: seq<string>)
  {
    if cols == [] then [] else Constraints(cols[..|cols| - 1], alter) + ConstraintLine(cols[|cols| - 1], alter)
  }

  /** The column clauses of ALTER TABLE, in entry order. */
  function AlterItems(cols: seq<Column>, kw: Keywords): (r: seq<string>)
  {
    if cols == [] then [] else AlterItems(cols[..|cols| - 1], kw) + AlterLine(cols[|cols| - 1], kw)
  }

  /** One more entry adds its own column line, if any. */
  lemma DefinitionsSnoc(cols: seq<Column>, i: nat, kw: Keywords)
    requires i < |cols|
    ensures Definitions(cols[..i + 1], kw) == Definitions(cols[..i], kw) + ColumnLine(cols[i], kw)
  {
    assert cols[..i + 1][..i] == cols[..i];
  }

  /** One more entry adds its own ALTER column clause, if any. */
  lemma AlterItemsSnoc(cols: seq<Column>, i: nat, kw: Keywords)
    requires i < |cols|
    ensures AlterItems(cols[..i + 1], kw) == AlterItems(cols[..i], kw) + AlterLine(cols[i], kw)
  {
    assert cols[..i + 1][..i] == cols[..i];
  }

  /** One more entry adds its own constraint clause, if any. */
  lemma ConstraintsSnoc(cols: seq<Column>, i: nat, alter: bool)
    requires i < |cols|
    ensures Constraints(cols[..i + 1], alter) == Constraints(cols[..i], alter) + ConstraintLine(cols[i], alter)
  {
    assert cols[..i + 1][..i] == cols[..i];
  }

  /** The column lines of two entry lists are those of each, in order. */
  lemma {:induction false} DefinitionsAppend(a: seq<Column>, b: seq<Column>, kw: Keywords)
    ensures Definitions(a + b, kw) == Definitions(a, kw) + Definitions(b, kw)
  {
    if b == [] {
      assert a + b == a;
    } else {
      var init := b[..|b| - 1];
      DefinitionsAppend(a, init, kw);
      assert (a + b)[..|a + b| - 1] == a + init;
      assert (a + b)[|a + b| - 1] == b[|b| - 1];
    }
  }

  /** Entries that only add constraints (keys, indexes, foreign keys) never give a CREATE column line. */
  lemma ConstraintEntriesAddNoLine(cols: seq<Column>, c: Column, kw: Keywords)
    requires c.action.UsesDefinition() && !c.columnType.HasAttrs()
    ensures Definitions(cols + [c], kw) == Definitions(cols, kw)
  {
    assert (cols + [c])[..|cols|] == cols;
  }

  /** An entry with a name adds its own clause, and only that, to each list. */
  lemma EntryLines(c: Column, kw: Keywords)
    requires |c.names| > 0
    ensures ColumnLine(c, kw) == Listed(ColumnSql(c, kw))
    ensures c.action.AltersColumn() && ColumnSql(c, kw).Some? ==>
      AlterLine(c, kw) == [AlterKeyword(c.action) + ColumnSql(c, kw).value]
    ensures !c.action.AltersColumn() || ColumnSql(c, kw).None? ==> AlterLine(c, kw) == []
  {
  }

  /** The column text entry `i` pushes in CREATE TABLE, if any: what it adds to the column lines. */
  method ColumnText(cols: seq<Column>, i: nat, kw: Keywords) returns (line: Option<string>)
    requires i < |cols| && Nameable(cols[i], kw, true)
    ensures Definitions(cols[..i + 1], kw) == Definitions(cols[..i], kw) + Listed(line)
  {
    DefinitionsSnoc(cols, i, kw);
    line := ColumnSql(cols[i], kw);
  }

  /** The clause entry `i` pushes among ALTER TABLE's column changes, if any. */
  method AlterText(cols: seq<Column>, i: nat, kw: Keywords) returns (line: Option<string>)
    requires i < |cols| && Nameable(cols[i], kw, cols[i].action.AltersColumn())
    ensures AlterItems(cols[..i + 1], kw) == AlterItems(cols[..i], kw) + Listed(line)
  {
    AlterItemsSnoc(cols, i, kw);
    var c := cols[i];
    line := None;
    if c.action.AltersColumn() {
      var text := ColumnSql(c, kw);
      if text.Some? {
        line := Some(AlterKeyword(c.action) + text.value);
      }
    }
  }

  /** The constraint clause entry `i` pushes, if any; ALTER TABLE prefixes an added one. */
  method ConstraintText(cols: seq<Column>, i: nat, alter: bool) returns (line: Option<string>)
    requires i < |cols| && (ConstraintNeedsName(cols[i].columnType, cols[i].action) ==> |cols[i].names| > 0)
    ensures Constraints(cols[..i + 1], alter) == Constraints(cols[..i], alter) + Listed(line)
  {
    ConstraintsSnoc(cols, i, alter);
    var c := cols[i];
    var s := ConstraintSql(c.columnType, c.names, c.action);
    line := None;
    if s.Some? {
      line := Some((if alter && c.action.AddConstraint? then "ADD CONSTRAINT " else "") + s.value);
    }
  }

  // ---------------------------------------------------------------------------------
  // The statements

  /** The table options after CREATE TABLE's closing parenthesis; the engine as the source spells it. */
  function CreateOptionsAsWritten(t: Table): string {
    Clause(" ENGINE SET ", t.engine) + Clause(" CHARACTER SET ", t.charset) + Clause(" COLLATE ", t.collation)
    + Clause(" COLLATE ", t.comment)
  }

  /** The same options with MySQL's `ENGINE = name` table option, as ALTER TABLE already writes it. */
  function CreateOptions(t: Table): string {
    Clause(" ENGINE = ", t.engine) + Clause(" CHARACTER SET ", t.charset) + Clause(" COLLATE ", t.collation)
    + Clause(" COLLATE ", t.comment)
  }

  function AlterOptions(t: Table, newName: Option<string>): string {
    Clause(" RENAME TO ", newName) + Clause(" ENGINE = ", t.engine) + Clause(" CHARACTER SET ", t.charset)
    + Clause(" COLLATE ", t.collation)
  }

  /** ALTER's entry list as the source writes it: the constraints are separated only when a column clause came first. */
  function AlterBodyAsWritten(items: seq<string>, cons: seq<string>): string {
    Block(items) + Prefixed(cons, (if items == [] then "" else ",") + "\n")
  }

  /** ALTER's entry list with every two clauses, column or constraint, separated by a comma. */
  function AlterBody(items: seq<string>, cons: seq<string>): string {
    Block(items + cons)
  }

  predicate Renderable(t: Table, kw: Keywords) {
    match t.action
    case Some(CreateTable) => CreateReadable(t.columns, kw)
    case Some(AlterTable(_)) => AlterReadable(t.columns, kw)
    case _ => true
  }

  /** `DefineTable::to_sql` with the two corrections this model makes (see the findings). */
  function TableSql(t: Table, kw: Keywords): (r: string)
    requires Renderable(t, kw)
    ensures t.action.None? ==> r == ""
    ensures t.action == Some(DropTable) ==> r == "DROP TABLE IF EXISTS " + t.name + ";"
  {
    match t.action
    case None => ""
    case Some(CreateTable) =>
      "CREATE TABLE IF NOT EXISTS " + t.name + " (\n" + Join(Definitions(t.columns, kw), ",\n")
      + Prefixed(Constraints(t.columns, false), ",\n") + "\n)" + CreateOptions(t) + ";"
    case Some(AlterTable(n)) =>
      "ALTER TABLE " + t.name + Block(AlterItems(t.columns, kw) + Constraints(t.columns, true))
      + AlterOptions(t, n) + ";"
    case Some(DropTable) => "DROP TABLE IF EXISTS " + t.name + ";"
  }

  /** A CREATE statement opens with its head and closes with the table options and `;`. */
  lemma CreateSqlShape(t: Table, kw: Keywords)
    requires t.action == Some(CreateTable) && CreateReadable(t.columns, kw)
    ensures "CREATE TABLE IF NOT EXISTS " + t.name + " (\n" <= TableSql(t, kw)
    ensures EndsWith(TableSql(t, kw), "\n)" + CreateOptions(t) + ";")
  {
    Parenthesised("CREATE TABLE IF NOT EXISTS " + t.name + " (\n", Join(Definitions(t.columns, kw), ",\n"),
      Prefixed(Constraints(t.columns, false), ",\n"), CreateOptions(t));
  }

  /** An ALTER statement opens with its head and closes with the table options and `;`. */
  lemma AlterSqlShape(t: Table, kw: Keywords)
    requires t.action.Some? && t.action.value.AlterTable? && AlterReadable(t.columns, kw)
    ensures "ALTER TABLE " + t.name <= TableSql(t, kw)
    ensures EndsWith(TableSql(t, kw), AlterOptions(t, t.action.value.newName) + ";")
  {
    var head := "ALTER TABLE " + t.name;
    var body := Block(AlterItems(t.columns, kw) + Constraints(t.columns, true));
    var tail := AlterOptions(t, t.action.value.newName) + ";";
    assert TableSql(t, kw) == head + body + tail;
    Framed(head, body, tail);
  }

  /**
   * Once a CREATE has a column line, its column lines and constraint clauses form one list:
   * every two of them, of either kind, are separated by `,\n`.
   */
  lemma CreateListsEveryClause(t: Table, kw: Keywords)
    requires t.action == Some(CreateTable) && CreateReadable(t.columns, kw)
    requires Definitions(t.columns, kw) != []
    ensures TableSql(t, kw) == "CREATE TABLE IF NOT EXISTS " + t.name + " (\n"
      + Join(Definitions(t.columns, kw) + Constraints(t.columns, false), ",\n") + "\n)" + CreateOptions(t) + ";"
  {
    var defs, cons := Definitions(t.columns, kw), Constraints(t.columns, false);
    JoinThenPrefixed(defs, cons, ",\n");
    Regrouped("CREATE TABLE IF NOT EXISTS ", t.name, " (\n", Join(defs, ",\n"), Prefixed(cons, ",\n"),
      "\n)", CreateOptions(t), ";");
  }

  lemma Regrouped(a: string, n: string, b: string, j: string, p: string, c: string, o: string, e: string)
    ensures a + n + b + j + p + c + o + e == a + n + b + (j + p) + c + o + e
  {
  }

  /** The table of the first CREATE test: `users`, with only the primary-key integer `id`. */
  const IdTable := Table(Some(CreateTable), "users", None, None, None, None, Some(CreateFkAttribute),
    [Column(["id"], ColumnTypeAction.AddColumn(None), IdType)])

  /** Its one entry gives the column line `id INT …` and the `pk_on_id` key. */
  lemma IdTableLists()
    ensures CreateReadable(IdTable.columns, MySqlKeywords)
    ensures Definitions(IdTable.columns, MySqlKeywords) == ["id" + " " + ("INT" + " NOT NULL" + " AUTO_INCREMENT" + " COMMENT 'ID'")]
    ensures Constraints(IdTable.columns, false) == ["PRIMARY KEY pk_on_id (id)"]
  {
    var c, kw := IdTable.columns[0], MySqlKeywords;
    var d := "INT" + " NOT NULL" + " AUTO_INCREMENT" + " COMMENT 'ID'";
    IdDefinitionExample();
    IdConstraintExample();
    AddColumnSql(c, kw, d);
    assert Nameable(c, kw, true);
    EntryLines(c, kw);
    assert IdTable.columns[..0] == [];
    var k := "PRIMARY KEY pk_on_id (id)";
    assert "" + k == k;
    assert ConstraintLine(c, false) == [k];
    assert Constraints(IdTable.columns, false) == Constraints(IdTable.columns[..0], false) + ConstraintLine(c, false);
    assert Constraints(IdTable.columns[..0], false) == [];
  }

  /**
   * The first CREATE test (`tests/table/mysql.rs`): the column line, then its primary key,
   * separated by `,\n`, and no table options; the pieces concatenate to the test's string.
   */
  lemma CreateIdTableExample()
    ensures Renderable(IdTable, MySqlKeywords)
    ensures TableSql(IdTable, MySqlKeywords)
         == "CREATE TABLE IF NOT EXISTS " + "users" + " (\n"
          + ("id" + " " + ("INT" + " NOT NULL" + " AUTO_INCREMENT" + " COMMENT 'ID'"))
          + ",\n" + "PRIMARY KEY pk_on_id (id)" + "\n)" + ";"
  {
    IdTableLists();
    var d := "id" + " " + ("INT" + " NOT NULL" + " AUTO_INCREMENT" + " COMMENT 'ID'");
    var k := "PRIMARY KEY pk_on_id (id)";
    assert Join([d], ",\n") == d;
    assert Prefixed([k], ",\n") == ",\n" + k;
    assert CreateOptions(IdTable) == "";
    var head := "CREATE TABLE IF NOT EXISTS " + "users" + " (\n";
    assert TableSql(IdTable, MySqlKeywords) == head + Join([d], ",\n") + Prefixed([k], ",\n") + "\n)" + CreateOptions(IdTable) + ";";
    assert head + d + (",\n" + k) + "\n)" + "" + ";" == head + d + ",\n" + k + "\n)" + ";";
  }

  /** `DefineTable::to_sql` exactly as the source writes it. */
  function TableSqlAsWritten(t: Table, kw: Keywords): (r: string)
    requires Renderable(t, kw)
    ensures t.action.None? || t.action == Some(DropTable) ==> r == TableSql(t, kw)
    ensures t.action == Some(CreateTable) ==> (r == TableSql(t, kw) <==> t.engine.None?)
  {
    match t.action
    case None => ""
    case Some(CreateTable) =>
      var head := "CREATE TABLE IF NOT EXISTS " + t.name + " (\n" + Join(Definitions(t.columns, kw), ",\n")
        + Prefixed(Constraints(t.columns, false), ",\n") + "\n)";
      EngineDiffersInLength(t);
      head + CreateOptionsAsWritten(t) + ";"
    case Some(AlterTable(n)) =>
      "ALTER TABLE " + t.name + AlterBodyAsWritten(AlterItems(t.columns, kw), Constraints(t.columns, true))
      + AlterOptions(t, n) + ";"
    case Some(DropTable) => "DROP TABLE IF EXISTS " + t.name + ";"
  }

  // ---------------------------------------------------------------------------------
  // Properties

  /** The corrected ALTER list: each further constraint adds a comma unless nothing precedes it. */
  lemma AlterBodySnoc(items: seq<string>, cons: seq<string>, c: string)
    ensures AlterBody(items, cons + [c])
         == AlterBody(items, cons) + (if items + cons == [] then "" else ",") + "\n" + c
  {
    assert items + (cons + [c]) == (items + cons) + [c];
    BlockSnoc(items + cons, c);
  }

  /** After a column clause the source's ALTER list is already the corrected one; so it is with at most one constraint. */
  lemma AlterBodyAgrees(items: seq<string>, cons: seq<string>)
    requires items != [] || |cons| <= 1
    ensures AlterBodyAsWritten(items, cons) == AlterBody(items, cons)
  {
    if cons == [] {
      assert items + cons == items;
    } else if items == [] {
      assert |cons| == 1 && items + cons == cons;
      assert Join(cons, "\n") == cons[0] == Join(cons, ",\n");
    } else {
      JoinAppend(items, cons, ",\n");
      var sep := (if items == [] then "" else ",") + "\n";
      assert sep == ",\n";
      assert AlterBodyAsWritten(items, cons) == "\n" + Join(items, ",\n") + (",\n" + Join(cons, ",\n"));
      assert AlterBody(items, cons) == "\n" + (Join(items, ",\n") + ",\n" + Join(cons, ",\n"));
    }
  }

  /** Without a column clause, two constraints are written on separate lines with no comma between them. */
  lemma AlterConstraintsUnseparated(c1: string, c2: string)
    ensures AlterBodyAsWritten([], [c1, c2]) == "\n" + c1 + "\n" + c2
    ensures AlterBody([], [c1, c2]) == "\n" + c1 + ",\n" + c2
    ensures AlterBodyAsWritten([], [c1, c2]) != AlterBody([], [c1, c2])
  {
    assert [c1, c2][1..] == [c2] && Join([c2], "\n") == c2;
    assert Join([c1, c2], "\n") == c1 + "\n" + c2;
    assert Prefixed([c1, c2], "\n") == "\n" + (c1 + "\n" + c2);
    assert Block([]) == "";
    var none: seq<string> := [];
    var sep := (if none == [] then "" else ",") + "\n";
    assert sep == "\n";
    assert AlterBodyAsWritten(none, [c1, c2]) == Block(none) + Prefixed([c1, c2], sep);
    assert [] + [c1, c2] == [c1, c2] && [c1, c2][1..] == [c2];
    assert Join([c1, c2], ",\n") == c1 + ",\n" + c2;
    var w, f := "\n" + c1 + "\n" + c2, "\n" + c1 + ",\n" + c2;
    assert |w| + 1 == |f|;
  }

  /** The source's CREATE spells a set engine `ENGINE SET`, which is not MySQL's table option syntax. */
  lemma EngineMisspelt(t: Table)
    ensures t.engine.None? ==> CreateOptionsAsWritten(t) == CreateOptions(t)
    ensures t.engine.Some? ==> CreateOptionsAsWritten(t) != CreateOptions(t)
    ensures t.engine.Some? ==> " ENGINE SET " + t.engine.value <= CreateOptionsAsWritten(t)
  {
    if t.engine.Some? {
      var e := t.engine.value;
      var rest := Clause(" CHARACTER SET ", t.charset) + Clause(" COLLATE ", t.collation) + Clause(" COLLATE ", t.comment);
      var w, f := " ENGINE SET " + e, " ENGINE = " + e;
      assert CreateOptionsAsWritten(t) == w + rest;
      assert CreateOptions(t) == f + rest;
      assert (w + rest)[8] == 'S' && (f + rest)[8] == '=';
      assert (w + rest)[..|w|] == w;
    }
  }

  /** The source's options are two characters longer exactly when an engine is set, and the same otherwise. */
  lemma EngineDiffersInLength(t: Table)
    ensures t.engine.None? ==> CreateOptionsAsWritten(t) == CreateOptions(t)
    ensures t.engine.Some? ==> |CreateOptionsAsWritten(t)| == |CreateOptions(t)| + 2
  {
  }

  /** With the engine spelt correctly, CREATE and ALTER write the same table options. */
  lemma TableOptionsAgree(t: Table)
    requires t.comment.None?
    ensures CreateOptions(t) == AlterOptions(t, None)
  {
  }

  /** The source's statements differ from the corrected ones only by the two findings. */
  lemma AsWrittenAgrees(t: Table, kw: Keywords)
    requires Renderable(t, kw)
    requires t.action == Some(CreateTable) ==> t.engine.None?
    requires t.action.Some? && t.action.value.AlterTable? ==>
      AlterItems(t.columns, kw) != [] || |Constraints(t.columns, true)| <= 1
    ensures TableSqlAsWritten(t, kw) == TableSql(t, kw)
  {
    EngineMisspelt(t);
    if t.action.Some? && t.action.value.AlterTable? {
      AlterBodyAgrees(AlterItems(t.columns, kw), Constraints(t.columns, true));
    }
  }

  /** Appending an entry that names a column keeps a definition renderable. */
  lemma AppendKeepsRenderable(t: Table, c: Column, kw: Keywords)
    requires Renderable(t, kw) && |c.names| > 0
    ensures Renderable(t.(columns := t.columns + [c]), kw)
  {
    assert forall i | 0 <= i < |t.columns + [c]| :: (t.columns + [c])[i] == if i < |t.columns| then t.columns[i] else c;
  }

  // ---------------------------------------------------------------------------------
  // The builder

  /** The descriptor `set_foreign_key` configures: the conventional key, then the callback's replacement, if any. */
  method ForeignKeyDescriptor(column: string, replacement: Option<ForeignKey>) returns (t: ColumnType)
    ensures t == ForeignKeyType(Some(replacement.GetOr(From(column))))
  {
    var d := new Descriptor(DefaultForeignKey);
    d.SetForeignKey(From(column));
    if replacement.Some? {
      d.SetForeignKey(replacement.value);
    }
    t := d.def;
  }

  class DefineTable {
    var action: Option<ActionTable>
    var name: string
    var charset: Option<string>
    var engine: Option<string>
    var collation: Option<string>
    var comment: Option<string>
    var fkAttribute: Option<ReferenceOption>
    var columns: seq<Column>

    function Model(): Table
      reads this
    {
      Table(action, name, charset, engine, collation, comment, fkAttribute, columns)
    }

    /** `DefineTable::default`: no action, no name, nothing set. */
    constructor Default()
      ensures Model() == Table(None, "", None, None, None, None, None, [])
    {
      action, name, charset, engine, collation, comment, fkAttribute, columns :=
        None, "", None, None, None, None, None, [];
    }

    /** `create`: the entries are then added by the calls the source makes in its callback. */
    constructor Create(name: string)
      ensures Model() == Table(Some(CreateTable), name, None, None, None, None, Some(CreateFkAttribute), [])
    {
      action, this.name, charset, engine, collation, comment, fkAttribute, columns :=
        Some(CreateTable), name, None, None, None, None, Some(CreateFkAttribute), [];
    }

    constructor Alter(name: string)
      ensures Model() == Table(Some(AlterTable(None)), name, None, None, None, None, None, [])
    {
      action, this.name, charset, engine, collation, comment, fkAttribute, columns :=
        Some(AlterTable(None)), name, None, None, None, None, None, [];
    }

    constructor Rename(name: string, newName: string)
      ensures Model() == Table(Some(AlterTable(Some(newName))), name, None, None, None, None, None, [])
    {
      action, this.name, charset, engine, collation, comment, fkAttribute, columns :=
        Some(AlterTable(Some(newName))), name, None, None, None, None, None, [];
    }

    constructor Drop(name: string)
      ensures Model() == Table(Some(DropTable), name, None, None, None, None, None, [])
    {
      action, this.name, charset, engine, collation, comment, fkAttribute, columns :=
        Some(DropTable), name, None, None, None, None, None, [];
    }

    /**
     * `set_column_<kind>`: one more entry for the column, with the value descriptor `t`
     * the callback configured.
     */
    method SetColumn(column: string, a: ColumnTypeAction, t: ColumnType)
      requires t.HasAttrs()
      modifies this
      ensures Model() == old(Model()).(columns := old(columns) + [New(column, a, t)])
    {
      columns := columns + [New(column, a, t)];
    }

    method AddColumn(column: string, t: ColumnType)
      requires t.HasAttrs()
      modifies this
      ensures Model() == old(Model()).(columns := old(columns) + [New(column, ColumnTypeAction.AddColumn(None), t)])
    {
      SetColumn(column, ColumnTypeAction.AddColumn(None), t);
    }

    method ModifyColumn(column: string, t: ColumnType)
      requires t.HasAttrs()
      modifies this
      ensures Model() == old(Model()).(columns := old(columns) + [New(column, ColumnTypeAction.ModifyColumn(None), t)])
    {
      SetColumn(column, ColumnTypeAction.ModifyColumn(None), t);
    }

    method ChangeColumn(column: string, newName: string, t: ColumnType)
      requires t.HasAttrs()
      modifies this
      ensures Model() == old(Model()).(columns := old(columns) + [New(column, ColumnTypeAction.ChangeColumn(None, newName), t)])
    {
      SetColumn(column, ColumnTypeAction.ChangeColumn(None, newName), t);
    }

    /** `rename_column_<kind>`: `t` is that kind's default descriptor (the callback is empty). */
    method RenameColumn(column: string, newName: string, t: ColumnType)
      requires IsValueDefault(t)
      modifies this
      ensures Model() == old(Model()).(columns := old(columns) + [New(column, ColumnTypeAction.RenameColumn(None, newName), t)])
    {
      SetColumn(column, ColumnTypeAction.RenameColumn(None, newName), t);
    }

    method DropColumn(column: string, t: ColumnType)
      requires IsValueDefault(t)
      modifies this
      ensures Model() == old(Model()).(columns := old(columns) + [New(column, ColumnTypeAction.DropColumn, t)])
    {
      SetColumn(column, ColumnTypeAction.DropColumn, t);
    }

    /** `set_index`: an entry over several columns; the index descriptor's own flag cannot be cleared. */
    method SetIndex(names: seq<string>, a: ColumnTypeAction, t: ColumnType)
      requires t.Index? && t.index == Some(true)
      modifies this
      ensures Model() == old(Model()).(columns := old(columns) + [Column(names, a, t)])
    {
      columns := columns + [Column(names, a, t)];
    }

    method AddIndex(names: seq<string>, t: ColumnType)
      requires |names| >= 1
      requires t.Index? && t.index == Some(true)
      modifies this
      ensures Model() == old(Model()).(columns := old(columns) + [Column(names, AddConstraint, t)])
    {
      SetIndex(names, AddConstraint, t);
    }

    method RenameIndex(index: string, newName: string)
      modifies this
      ensures Model() == old(Model()).(columns := old(columns) + [Column([index], ColumnTypeAction.RenameIndex(newName), DefaultIndex)])
    {
      SetIndex([index], ColumnTypeAction.RenameIndex(newName), DefaultIndex);
    }

    method DropIndex(index: string)
      modifies this
      ensures Model() == old(Model()).(columns := old(columns) + [Column([index], DropConstraint, DefaultIndex)])
    {
      SetIndex([index], DropConstraint, DefaultIndex);
    }

    /** `set_unique`: the unique descriptor's own flag cannot be cleared; its index flag can be set. */
    method SetUnique(names: seq<string>, a: ColumnTypeAction, t: ColumnType)
      requires t.Unique? && t.unique == Some(true)
      modifies this
      ensures Model() == old(Model()).(columns := old(columns) + [Column(names, a, t)])
    {
      columns := columns + [Column(names, a, t)];
    }

    method AddUnique(names: seq<string>, t: ColumnType)
      requires t.Unique? && t.unique == Some(true)
      modifies this
      ensures Model() == old(Model()).(columns := old(columns) + [Column(names, AddConstraint, t)])
    {
      SetUnique(names, AddConstraint, t);
    }

    method DropUnique(unique: string)
      modifies this
      ensures Model() == old(Model()).(columns := old(columns) + [Column([unique], DropConstraint, DefaultUnique)])
    {
      SetUnique([unique], DropConstraint, DefaultUnique);
    }

    /**
     * `set_primary_key`: the primary-key descriptor accepts no setting (its foreign-key
     * setter is the trait's no-op), so the entry always holds the default.
     */
    method SetPrimaryKey(column: string, a: ColumnTypeAction)
      modifies this
      ensures Model() == old(Model()).(columns := old(columns) + [New(column, a, DefaultPrimaryKey)])
    {
      columns := columns + [New(column, a, DefaultPrimaryKey)];
    }

    method AddPrimaryKey(column: string)
      modifies this
      ensures Model() == old(Model()).(columns := old(columns) + [New(column, AddConstraint, DefaultPrimaryKey)])
    {
      SetPrimaryKey(column, AddConstraint);
    }

    method DropPrimaryKey(column: string)
      modifies this
      ensures Model() == old(Model()).(columns := old(columns) + [New(column, DropConstraint, DefaultPrimaryKey)])
    {
      SetPrimaryKey(column, DropConstraint);
    }

    /**
     * `set_foreign_key`: the key is the conventional one for the column, unless the
     * callback replaced it (`replacement`).
     */
    method SetForeignKey(column: string, a: ColumnTypeAction, replacement: Option<ForeignKey>)
      modifies this
      ensures Model() == old(Model()).(columns := old(columns)
        + [New(column, a, ForeignKeyType(Some(replacement.GetOr(From(column)))))])
    {
      var t := ForeignKeyDescriptor(column, replacement);
      columns := columns + [New(column, a, t)];
    }

    method AddForeignKey(column: string, replacement: Option<ForeignKey>)
      modifies this
      ensures Model() == old(Model()).(columns := old(columns)
        + [New(column, AddConstraint, ForeignKeyType(Some(replacement.GetOr(From(column)))))])
    {
      SetForeignKey(column, AddConstraint, replacement);
    }

    method DropForeignKey(column: string)
      modifies this
      ensures Model() == old(Model()).(columns := old(columns)
        + [New(column, DropConstraint, ForeignKeyType(Some(From(column))))])
    {
      SetForeignKey(column, DropConstraint, None);
    }

    /** `to_sql`: the statement the definition's action calls for. */
    method ToSql(kw: Keywords) returns (r: string)
      requires Renderable(Model(), kw)
      ensures r == TableSql(Model(), kw)
    {
      match action {
        case None =>
          r := "";
        case Some(DropTable) =>
          r := "DROP TABLE IF EXISTS " + name + ";";
        case Some(CreateTable) =>
          r := CreateToSql(kw);
        case Some(AlterTable(n)) =>
          r := AlterToSql(kw, n);
      }
    }

    method CreateToSql(kw: Keywords) returns (r: string)
      requires action == Some(CreateTable) && CreateReadable(columns, kw)
      ensures r == TableSql(Model(), kw)
    {
      var head := "CREATE TABLE IF NOT EXISTS " + name + " (\n";
      var lines, _ := PushDefinitions(columns, kw, head);
      var sql := PushConstraints(columns, kw, lines);
      r := sql + "\n)" + CreateOptions(Model()) + ";";
    }

    /** The ALTER statement, with each constraint separated from whatever clause precedes it. */
    method AlterToSql(kw: Keywords, newName: Option<string>) returns (r: string)
      requires action == Some(AlterTable(newName)) && AlterReadable(columns, kw)
      ensures r == TableSql(Model(), kw)
    {
      var head := "ALTER TABLE " + name;
      var sql, idx := PushAlterItems(columns, kw, head);
      sql := PushAlterConstraints(columns, kw, head, AlterItems(columns, kw), sql, idx);
      r := sql + AlterOptions(Model(), newName) + ";";
    }
  }

  /** CREATE TABLE's first loop: every column line, separated by `,\n`; `idx` counts them from -1. */
  method PushDefinitions(cols: seq<Column>, kw: Keywords, head: string) returns (sql: string, idx: int)
    requires CreateReadable(cols, kw)
    ensures sql == head + Join(Definitions(cols, kw), ",\n")
    ensures idx == |Definitions(cols, kw)| - 1
  {
    sql := head;
    idx := -1;
    var i := 0;
    assert cols[..0] == [] && head + "" == head;
    while i < |cols|
      invariant 0 <= i <= |cols|
      invariant idx == |Definitions(cols[..i], kw)| - 1
      invariant sql == head + Join(Definitions(cols[..i], kw), ",\n")
    {
      assert Nameable(cols[i], kw, true);
      var line := ColumnText(cols, i, kw);
      sql, idx := JoinPush(head, sql, Definitions(cols[..i], kw), idx, line, ",\n");
      i := i + 1;
    }
    assert cols[..i] == cols;
  }

  /** CREATE TABLE's second loop: every constraint clause, each after `,\n`. */
  method PushConstraints(cols: seq<Column>, kw: Keywords, lines: string) returns (sql: string)
    requires CreateReadable(cols, kw)
    ensures sql == lines + Prefixed(Constraints(cols, false), ",\n")
  {
    sql := lines;
    var i := 0;
    assert cols[..0] == [] && lines + "" == lines;
    while i < |cols|
      invariant 0 <= i <= |cols|
      invariant sql == lines + Prefixed(Constraints(cols[..i], false), ",\n")
    {
      assert Nameable(cols[i], kw, true);
      var line := ConstraintText(cols, i, false);
      sql := PrefixedPush(lines, sql, Constraints(cols[..i], false), line, ",\n");
      i := i + 1;
    }
    assert cols[..i] == cols;
  }

  /** ALTER TABLE's first loop: the column clauses as a block; `idx` counts them from -1. */
  method PushAlterItems(cols: seq<Column>, kw: Keywords, head: string) returns (sql: string, idx: int)
    requires AlterReadable(cols, kw)
    ensures sql == head + Block(AlterItems(cols, kw))
    ensures idx == |AlterItems(cols, kw)| - 1
  {
    sql := head;
    idx := -1;
    var i := 0;
    assert cols[..0] == [] && head + "" == head;
    while i < |cols|
      invariant 0 <= i <= |cols|
      invariant idx == |AlterItems(cols[..i], kw)| - 1
      invariant sql == head + Block(AlterItems(cols[..i], kw))
    {
      assert Nameable(cols[i], kw, cols[i].action.AltersColumn());
      var line := AlterText(cols, i, kw);
      sql, idx := BlockPush(head, sql, AlterItems(cols[..i], kw), idx, line);
      i := i + 1;
    }
    assert cols[..i] == cols;
  }

  /**
   * ALTER TABLE's second loop, corrected: each constraint clause continues the block, after
   * a comma whenever any clause precedes it, and counts itself in `idx`.
   */
  method PushAlterConstraints(cols: seq<Column>, kw: Keywords, head: string, items: seq<string>, sql0: string, idx0: int)
    returns (sql: string)
    requires AlterReadable(cols, kw)
    requires sql0 == head + Block(items) && idx0 == |items| - 1
    ensures sql == head + Block(items + Constraints(cols, true))
  {
    sql := sql0;
    var idx := idx0;
    var i := 0;
    assert cols[..0] == [] && items + [] == items;
    while i < |cols|
      invariant 0 <= i <= |cols|
      invariant idx == |items + Constraints(cols[..i], true)| - 1
      invariant sql == head + Block(items + Constraints(cols[..i], true))
    {
      assert Nameable(cols[i], kw, cols[i].action.AltersColumn());
      sql, idx := AlterConstraintPush(cols, i, head, items, sql, idx);
      i := i + 1;
    }
    assert cols[..i] == cols;
  }

  /** One turn of the ALTER constraint loop: entry `i`'s clause, if any, continues the list. */
  method AlterConstraintPush(cols: seq<Column>, i: nat, ghost head: string, ghost items: seq<string>,
                             sql: string, idx: int)
    returns (sql': string, idx': int)
    requires i < |cols| && (ConstraintNeedsName(cols[i].columnType, cols[i].action) ==> |cols[i].names| > 0)
    requires sql == head + Block(items + Constraints(cols[..i], true))
    requires idx == |items + Constraints(cols[..i], true)| - 1
    ensures sql' == head + Block(items + Constraints(cols[..i + 1], true))
    ensures idx' == |items + Constraints(cols[..i + 1], true)| - 1
  {
    ghost var xs := items + Constraints(cols[..i], true);
    var line := ConstraintText(cols, i, true);
    sql', idx' := BlockPush(head, sql, xs, idx, line);
    Reassociated(items, Constraints(cols[..i], true), Listed(line));
  }

  lemma Reassociated(a: seq<string>, b: seq<string>, c: seq<string>)
    ensures a + (b + c) == (a + b) + c
  {
  }

  /** A renamed table renders only its new name. */
  lemma RenameSql(name: string, newName: string, kw: Keywords)
    ensures TableSql(Table(Some(AlterTable(Some(newName))), name, None, None, None, None, None, []), kw)
         == "ALTER TABLE " + name + " RENAME TO " + newName + ";"
  {
    assert Block([]) == "";
  }
}

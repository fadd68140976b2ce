/**
 * `TableManager`: the dialect-aware CREATE / RENAME / DROP TABLE statements. CREATE always
 * starts with an auto-incrementing `id` key and then lists the manager's table columns.
 */
module TableManagers {
  import opened Dialects

  /** What the manager does; renaming carries the former name. */
  datatype TableAction = Create | Rename(formerName: string) | Drop

  /** A `TableColumn` as the manager holds it; its column type is never rendered and is not modelled. */
  datatype TableColumn = TableColumn(columnName: string)

  /** `TableColumn::to_sql`: an empty fragment, whatever the column. */
  function TableColumnSql(c: TableColumn): string {
    ""
  }

  datatype TableModel = TableModel(
    action: TableAction,
    tableName: string,
    charset: string,
    collation: string,
    force: string,
    columns: seq<TableColumn>)

  const DefaultCharset := "utf8mb4"
  const DefaultCollation := "utf8mb4_0900_ai_ci"
  const DefaultForce := "ON UPDATE CASCADE"

  /** The key column every created table starts with; SQLite spells the keyword without the underscore. */
  function IdColumn(d: Dialect): string {
    "id INTEGER NOT NULL " + AutoIncrement(d) + " PRIMARY KEY"
  }

  /** Each further column after a comma and a line break. */
  function ColumnLines(cols: seq<TableColumn>): string {
    if cols == [] then ""
    else ColumnLines(cols[..|cols| - 1]) + ",\n" + TableColumnSql(cols[|cols| - 1])
  }

  /** The character set and collation, written by every dialect but SQLite. */
  function TableOptions(m: TableModel, d: Dialect): string {
    if d.Sqlite? then "" else " CHARACTER SET " + m.charset + " COLLATE " + m.collation
  }

  /** How each dialect renames a table. */
  function RenameSql(former: string, n: string, d: Dialect): string {
    match d
    case MySql => "ALTER TABLE " + former + " RENAME " + n + ";"
    case PostgreSql => "ALTER TABLE " + former + " RENAME TO " + n + ";"
    case Sqlite => "ALTER TABLE " + former + " RENAME TO " + n + ";"
    case MsSql => "sp_rename " + former + "," + n + ";"
  }

  /** `to_sql` for a build of dialect `d`: every statement is non-empty and ends in `;`. */
  function TableManagerSql(m: TableModel, d: Dialect): (r: string)
    ensures |r| > 0 && r[|r| - 1] == ';'
  {
    match m.action
    case Create =>
      "CREATE TABLE IF NOT EXISTS " + m.tableName + " (\n" + IdColumn(d) + ColumnLines(m.columns) + "\n)"
      + TableOptions(m, d) + ";"
    case Rename(former) => RenameSql(former, m.tableName, d)
    case Drop => "DROP TABLE IF EXISTS " + m.tableName + ";"
  }

  /** `n` comma-and-newline separators. */
  function Separators(n: nat): (r: string)
    ensures |r| == 2 * n
  {
    if n == 0 then "" else Separators(n - 1) + ",\n"
  }

  /** Since a table column renders nothing, the columns contribute only their separators. */
  lemma {:induction false} ColumnLinesAreSeparators(cols: seq<TableColumn>)
    ensures ColumnLines(cols) == Separators(|cols|)
  {
    if cols != [] {
      ColumnLinesAreSeparators(cols[..|cols| - 1]);
    }
  }

  /** A created table's statement: the key column, one separator per further column, the options. */
  lemma CreateSqlShape(m: TableModel, d: Dialect)
    requires m.action.Create?
    ensures TableManagerSql(m, d)
         == "CREATE TABLE IF NOT EXISTS " + m.tableName + " (\n" + IdColumn(d) + Separators(|m.columns|) + "\n)"
            + TableOptions(m, d) + ";"
  {
    ColumnLinesAreSeparators(m.columns);
  }

  /** A new SQLite table: the key column alone, closed, and no options. */
  lemma CreateTableSqlite(n: string)
    ensures TableManagerSql(TableModel(Create, n, DefaultCharset, DefaultCollation, DefaultForce, []), Sqlite)
         == "CREATE TABLE IF NOT EXISTS " + n + " (\n" + "id INTEGER NOT NULL AUTOINCREMENT PRIMARY KEY" + "\n)" + ";"
  {
    var m := TableModel(Create, n, DefaultCharset, DefaultCollation, DefaultForce, []);
    CreateSqlShape(m, Sqlite);
    Closed("CREATE TABLE IF NOT EXISTS " + n + " (\n", IdColumn(Sqlite), Separators(0), TableOptions(m, Sqlite),
      "id INTEGER NOT NULL AUTOINCREMENT PRIMARY KEY", "");
  }

  /** A new table in any other dialect: the key column alone, closed, then the default character set and collation. */
  lemma CreateTableElsewhere(n: string, d: Dialect)
    requires !d.Sqlite?
    ensures TableManagerSql(TableModel(Create, n, DefaultCharset, DefaultCollation, DefaultForce, []), d)
         == "CREATE TABLE IF NOT EXISTS " + n + " (\n" + "id INTEGER NOT NULL AUTO_INCREMENT PRIMARY KEY" + "\n)"
            + " CHARACTER SET utf8mb4 COLLATE utf8mb4_0900_ai_ci" + ";"
  {
    var m := TableModel(Create, n, DefaultCharset, DefaultCollation, DefaultForce, []);
    CreateSqlShape(m, d);
    UnderscoredId(d);
    DefaultOptions(m, d);
    Closed("CREATE TABLE IF NOT EXISTS " + n + " (\n", IdColumn(d), Separators(0), TableOptions(m, d),
      "id INTEGER NOT NULL AUTO_INCREMENT PRIMARY KEY", " CHARACTER SET utf8mb4 COLLATE utf8mb4_0900_ai_ci");
  }

  /** Outside SQLite, the key column as literal text. */
  lemma UnderscoredId(d: Dialect)
    requires !d.Sqlite?
    ensures IdColumn(d) == "id INTEGER NOT NULL AUTO_INCREMENT PRIMARY KEY"
  {
  }

  /** Outside SQLite, the default options as literal text. */
  lemma DefaultOptions(m: TableModel, d: Dialect)
    requires !d.Sqlite? && m.charset == DefaultCharset && m.collation == DefaultCollation
    ensures TableOptions(m, d) == " CHARACTER SET utf8mb4 COLLATE utf8mb4_0900_ai_ci"
  {
    assert TableOptions(m, d) == " CHARACTER SET " + "utf8mb4" + " COLLATE " + "utf8mb4_0900_ai_ci";
  }

  /** Replacing the pieces of a created statement that has no further columns by their values. */
  lemma Closed(head: string, id: string, seps: string, opts: string, idText: string, optsText: string)
    requires seps == "" && id == idText && opts == optsText
    ensures head + id + seps + "\n)" + opts + ";" == head + idText + "\n)" + optsText + ";"
  {
  }

  /** The foreign-key restriction `force` is held but never written. */
  lemma ForceNeverRendered(m: TableModel, f: string, d: Dialect)
    ensures TableManagerSql(m.(force := f), d) == TableManagerSql(m, d)
  {
  }

  /**
   * Every dialect's rename names the former table first and ends with the new name and `;`;
   * PostgreSQL and SQLite agree, and MySQL differs from them (it leaves out `TO`).
   */
  lemma RenameNamesBothTables(former: string, n: string, d: Dialect)
    ensures var r := RenameSql(former, n, d);
      |r| >= |n| + 1 && r[|r| - |n| - 1..] == n + ";"
      && (d.MsSql? ==> r[..10 + |former|] == "sp_rename " + former)
      && (!d.MsSql? ==> r[..12 + |former|] == "ALTER TABLE " + former)
    ensures RenameSql(former, n, PostgreSql) == RenameSql(former, n, Sqlite)
    ensures RenameSql(former, n, MySql) != RenameSql(former, n, PostgreSql)
  {
    var r := RenameSql(former, n, d);
    assert |RenameSql(former, n, MySql)| + 3 == |RenameSql(former, n, PostgreSql)|;
    match d {
      case MySql =>
        assert r == ("ALTER TABLE " + former) + (" RENAME " + n + ";");
      case PostgreSql =>
        assert r == ("ALTER TABLE " + former) + (" RENAME TO " + n + ";");
      case Sqlite =>
        assert r == ("ALTER TABLE " + former) + (" RENAME TO " + n + ";");
      case MsSql =>
        assert r == ("sp_rename " + former) + ("," + n + ";");
    }
  }

  class TableManager {
    var action: TableAction
    var tableName: string
    var charset: string
    var collation: string
    var force: string
    var columns: seq<TableColumn>

    function Model(): TableModel
      reads this
    {
      TableModel(action, tableName, charset, collation, force, columns)
    }

    /** `TableManager::default`: create, an empty name, the MySQL defaults and no columns. */
    constructor Default()
      ensures Model() == TableModel(Create, "", DefaultCharset, DefaultCollation, DefaultForce, [])
    {
      action, tableName, columns := Create, "", [];
      charset, collation, force := DefaultCharset, DefaultCollation, DefaultForce;
    }

    /** `create_table`. */
    constructor CreateTable(n: string)
      ensures Model() == TableModel(Create, n, DefaultCharset, DefaultCollation, DefaultForce, [])
    {
      action, tableName, columns := Create, n, [];
      charset, collation, force := DefaultCharset, DefaultCollation, DefaultForce;
    }

    /** `rename_table`. */
    constructor RenameTable(former: string, n: string)
      ensures Model() == TableModel(Rename(former), n, DefaultCharset, DefaultCollation, DefaultForce, [])
    {
      action, tableName, columns := Rename(former), n, [];
      charset, collation, force := DefaultCharset, DefaultCollation, DefaultForce;
    }

    /** `drop_table`. */
    constructor DropTable(n: string)
      ensures Model() == TableModel(Drop, n, DefaultCharset, DefaultCollation, DefaultForce, [])
    {
      action, tableName, columns := Drop, n, [];
      charset, collation, force := DefaultCharset, DefaultCollation, DefaultForce;
    }

    /** `to_sql`: CREATE pushes the key column, then each column after its separator. */
    method ToSql(d: Dialect) returns (r: string)
      ensures r == TableManagerSql(Model(), d)
    {
      var m := Model();
      match m.action {
        case Create =>
          var head := "CREATE TABLE IF NOT EXISTS " + m.tableName + " (\n" + IdColumn(d);
          var sql := PushColumns(head, m.columns);
          sql := sql + "\n)";
          if !d.Sqlite? {
            sql := sql + " CHARACTER SET " + m.charset + " COLLATE " + m.collation;
          }
          assert sql == head + ColumnLines(m.columns) + "\n)" + TableOptions(m, d);
          r := sql + ";";
        case Rename(former) =>
          r := RenameSql(former, m.tableName, d);
        case Drop =>
          r := "DROP TABLE IF EXISTS " + m.tableName + ";";
      }
    }
  }

  /** The column loop of CREATE: each column pushed after `,` and a line break. */
  method PushColumns(head: string, cols: seq<TableColumn>) returns (sql: string)
    ensures sql == head + ColumnLines(cols)
  {
    sql := head;
    var i := 0;
    while i < |cols|
      invariant 0 <= i <= |cols|
      invariant sql == head + ColumnLines(cols[..i])
    {
      assert cols[..i + 1][..i] == cols[..i];
      sql := sql + ",\n" + TableColumnSql(cols[i]);
      i := i + 1;
    }
    assert cols[..i] == cols;
  }
}

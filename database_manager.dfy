/**
 * `DatabaseManager`: the dialect-aware CREATE / RENAME / DROP DATABASE statements. The
 * crate picks the dialect with cargo features; here it is a parameter of the renderer.
 */
module DatabaseManagers {
  import opened Strings
  import opened Dialects

  /** What the manager does; renaming carries the former name. */
  datatype ManagerAction = Create | Rename(oldName: string) | Drop

  datatype DatabaseManager = DatabaseManager(
    action: ManagerAction,
    name: string,
    charset: string,
    collation: string)

  const DefaultCharset := "utf8mb4"
  const DefaultCollation := "utf8mb4_0900_ai_ci"

  /** `DatabaseManager::default`: create, an empty name, the MySQL default character set and collation. */
  function Default(): DatabaseManager {
    DatabaseManager(Create, "", DefaultCharset, DefaultCollation)
  }

  /** `create_database`. */
  function CreateDatabase(n: string): DatabaseManager {
    Default().(action := Create, name := n)
  }

  /** `rename_database`, compiled only for PostgreSQL and SQL Server. */
  function RenameDatabase(former: string, n: string): DatabaseManager {
    Default().(action := Rename(former), name := n)
  }

  /** `drop_database`. */
  function DropDatabase(n: string): DatabaseManager {
    Default().(action := Drop, name := n)
  }

  /** The dialects whose builds have the rename action. */
  predicate RenameAvailable(d: Dialect) {
    d.PostgreSql? || d.MsSql?
  }

  /** The SQL Server rename: three statements, one per line. */
  function MsSqlRename(former: string, n: string): seq<string> {
    ["ALTER DATABASE " + former + " SET SINGLE_USER WITH ROLLBACK IMMEDIATE;",
     "ALTER DATABASE " + former + " MODIFY NAME = " + n + ";",
     "ALTER DATABASE " + n + " SET MULTI_USER;"]
  }

  /** `to_sql` for a build of dialect `d`: every statement is non-empty and ends in `;`. */
  function ManagerSql(m: DatabaseManager, d: Dialect): (r: string)
    requires m.action.Rename? ==> RenameAvailable(d)
    ensures |r| > 0 && r[|r| - 1] == ';'
  {
    match m.action
    case Create =>
      "CREATE DATABASE " + m.name
      + (if d.Sqlite? then "" else " CHARACTER SET " + m.charset + " COLLATE " + m.collation) + ";"
    case Rename(former) =>
      if d.PostgreSql? then "ALTER DATABASE " + former + " RENAME TO " + m.name + ";"
      else
        var s := MsSqlRename(former, m.name);
        s[0] + "\n" + s[1] + "\n" + s[2]
    case Drop => "DROP DATABASE " + m.name + ";"
  }

  /** A created database: SQLite writes only the name, every other dialect the default character set and collation. */
  lemma CreateDatabaseSql(n: string, d: Dialect)
    ensures d.Sqlite? ==> ManagerSql(CreateDatabase(n), d) == "CREATE DATABASE " + n + ";"
    ensures !d.Sqlite? ==>
      ManagerSql(CreateDatabase(n), d) == "CREATE DATABASE " + n + " CHARACTER SET utf8mb4 COLLATE utf8mb4_0900_ai_ci;"
  {
  }

  /** SQLite ignores the character set and collation; any other dialect writes exactly the one it is given. */
  lemma CharsetWrittenUnlessSqlite(m: DatabaseManager, c: string, d: Dialect)
    requires m.action.Create?
    ensures d.Sqlite? ==> ManagerSql(m.(charset := c), d) == ManagerSql(m, d)
    ensures !d.Sqlite? ==> (ManagerSql(m.(charset := c), d) == ManagerSql(m, d) <==> c == m.charset)
  {
    if !d.Sqlite? && ManagerSql(m.(charset := c), d) == ManagerSql(m, d) {
      var p := "CREATE DATABASE " + m.name + " CHARACTER SET ";
      var q := " COLLATE " + m.collation + ";";
      assert ManagerSql(m.(charset := c), d) == p + c + q;
      assert ManagerSql(m, d) == p + m.charset + q;
      assert |c| == |m.charset|;
      assert c == (p + c + q)[|p|..|p| + |c|];
      assert m.charset == (p + m.charset + q)[|p|..|p| + |c|];
    }
  }

  /** Dropping is written the same way by every dialect. */
  lemma DropSameInEveryDialect(n: string, d1: Dialect, d2: Dialect)
    ensures ManagerSql(DropDatabase(n), d1) == ManagerSql(DropDatabase(n), d2) == "DROP DATABASE " + n + ";"
  {
  }

  /** PostgreSQL renames in one statement. */
  lemma PostgresRenameSql(former: string, n: string)
    ensures ManagerSql(RenameDatabase(former, n), PostgreSql) == "ALTER DATABASE " + former + " RENAME TO " + n + ";"
  {
  }

  /**
   * SQL Server renames in three statements on three lines: single-user mode on the former
   * name, the rename, multi-user mode on the new name; each statement ends in `;`.
   */
  lemma MsSqlRenameSql(former: string, n: string)
    ensures var s := MsSqlRename(former, n);
      ManagerSql(RenameDatabase(former, n), MsSql) == Join(s, "\n")
      && |s| == 3 && forall i :: 0 <= i < 3 ==> |s[i]| > 0 && s[i][|s[i]| - 1] == ';'
  {
    var s := MsSqlRename(former, n);
    assert Join(s[1..], "\n") == s[1] + "\n" + s[2] by {
      assert s[1..][1..] == [s[2]];
    }
  }
}

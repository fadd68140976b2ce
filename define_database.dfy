/**
 * `DefineDatabase`: MySQL's CREATE / ALTER / DROP DATABASE statements. A definition holds
 * the action, the database name and the optional database options; the alter builder's
 * callback assigns the public option fields, which callers here assign directly.
 */
module DefineDatabases {
  import opened Wrappers
  import opened Strings

  /** Rust's `u8`, the type of the read-only flag. */
  newtype Byte = x: int | 0 <= x < 256

  datatype ActionDatabase = CreateDatabase | AlterDatabase | DropDatabase

  datatype Database = Database(
    action: Option<ActionDatabase>,
    name: string,
    charset: Option<string>,
    collation: Option<string>,
    encryption: Option<char>,
    readOnly: Option<Byte>)

  const DefaultCharset := "utf8mb4"
  const DefaultCollation := "utf8mb4_0900_ai_ci"

  /** The encryption flag as CREATE writes it, bare. */
  function Bare(e: Option<char>): Option<string> {
    if e.Some? then Some([e.value]) else None
  }

  /** The encryption flag as ALTER writes it, in single quotes. */
  function Quoted(e: Option<char>): Option<string> {
    if e.Some? then Some("'" + [e.value] + "'") else None
  }

  /** The read-only flag in decimal, as Rust's `Display` writes a `u8`. */
  function Decimal(b: Option<Byte>): Option<string> {
    if b.Some? then Some(NatToString(b.value as nat)) else None
  }

  /** The options CREATE writes after the name; the read-only flag is not one of them. */
  function CreateOptions(d: Database): string {
    Clause(" CHARACTER SET ", d.charset) + Clause(" COLLATE ", d.collation) + Clause(" ENCRYPTION ", Bare(d.encryption))
  }

  /** The options ALTER writes after the name, each only when it is set. */
  function AlterOptions(d: Database): string {
    Clause(" CHARACTER SET ", d.charset) + Clause(" COLLATE ", d.collation) + Clause(" ENCRYPTION ", Quoted(d.encryption))
    + Clause(" READ ONLY ", Decimal(d.readOnly))
  }

  /** `DefineDatabase::to_sql`: nothing without an action; otherwise one statement ending in `;`. */
  function DatabaseSql(d: Database): (r: string)
    ensures r == "" <==> d.action.None?
    ensures d.action.Some? ==> r[|r| - 1] == ';'
  {
    match d.action
    case None => ""
    case Some(CreateDatabase) => "CREATE DATABASE IF NOT EXISTS " + d.name + CreateOptions(d) + ";"
    case Some(AlterDatabase) => "ALTER DATABASE " + d.name + AlterOptions(d) + ";"
    case Some(DropDatabase) => "DROP DATABASE IF EXISTS " + d.name + ";"
  }

  /** ALTER writes nothing but the name exactly when no option is set. */
  lemma AlterWritesOnlySetOptions(d: Database)
    requires d.action == Some(AlterDatabase)
    ensures DatabaseSql(d) == "ALTER DATABASE " + d.name + ";"
      <==> d.charset.None? && d.collation.None? && d.encryption.None? && d.readOnly.None?
  {
    var o := AlterOptions(d);
    assert DatabaseSql(d) == "ALTER DATABASE " + d.name + o + ";";
    if d.charset.Some? || d.collation.Some? || d.encryption.Some? || d.readOnly.Some? {
      assert |o| > 0;
      assert |DatabaseSql(d)| > |"ALTER DATABASE " + d.name + ";"|;
    } else {
      assert o == "";
    }
  }

  /** CREATE does not write the read-only flag, whatever it is. */
  lemma CreateIgnoresReadOnly(d: Database, b: Option<Byte>)
    requires d.action == Some(CreateDatabase)
    ensures DatabaseSql(d.(readOnly := b)) == DatabaseSql(d)
  {
  }

  /** The same encryption flag is written bare by CREATE and quoted by ALTER. */
  lemma EncryptionQuotedOnlyInAlter(e: char)
    ensures Clause(" ENCRYPTION ", Bare(Some(e))) == " ENCRYPTION " + [e]
    ensures Clause(" ENCRYPTION ", Quoted(Some(e))) == " ENCRYPTION '" + [e] + "'"
  {
  }

  /** Dropping renders the name between fixed text, so different names give different statements. */
  lemma DropDistinguishesNames(a: string, b: string)
    ensures var da, db := Database(Some(DropDatabase), a, None, None, None, None), Database(Some(DropDatabase), b, None, None, None, None);
      DatabaseSql(da) == DatabaseSql(db) <==> a == b
  {
    var p := "DROP DATABASE IF EXISTS ";
    var ra, rb := p + a + ";", p + b + ";";
    if ra == rb {
      assert |a| == |b|;
      assert a == ra[|p|..|p| + |a|] == rb[|p|..|p| + |b|] == b;
    }
  }

  class DefineDatabase {
    var action: Option<ActionDatabase>
    var name: string
    var charset: Option<string>
    var collation: Option<string>
    var encryption: Option<char>
    var readOnly: Option<Byte>

    function Model(): Database
      reads this
    {
      Database(action, name, charset, collation, encryption, readOnly)
    }

    /** `DefineDatabase::default`: no action, an empty name and no options. */
    constructor Default()
      ensures Model() == Database(None, "", None, None, None, None)
    {
      action, name := None, "";
      charset, collation, encryption, readOnly := None, None, None, None;
    }

    /** `create_database`: MySQL's 4-byte UTF-8 character set and its default collation. */
    constructor Create(n: string)
      ensures Model() == Database(Some(CreateDatabase), n, Some(DefaultCharset), Some(DefaultCollation), None, None)
    {
      action, name := Some(CreateDatabase), n;
      charset, collation, encryption, readOnly := Some(DefaultCharset), Some(DefaultCollation), None, None;
    }

    /** `alter_database` before its callback runs: no option is set. */
    constructor Alter(n: string)
      ensures Model() == Database(Some(AlterDatabase), n, None, None, None, None)
    {
      action, name := Some(AlterDatabase), n;
      charset, collation, encryption, readOnly := None, None, None, None;
    }

    /** `drop_database`. */
    constructor Drop(n: string)
      ensures Model() == Database(Some(DropDatabase), n, None, None, None, None)
    {
      action, name := Some(DropDatabase), n;
      charset, collation, encryption, readOnly := None, None, None, None;
    }

    /** `to_sql`: the statement pushed option by option. */
    method ToSql() returns (r: string)
      ensures r == DatabaseSql(Model())
    {
      r := Statement(Model());
    }
  }

  /** The statement of a definition, pushed clause by clause as `to_sql` does. */
  method Statement(d: Database) returns (r: string)
    ensures r == DatabaseSql(d)
  {
    match d.action {
      case None =>
        r := "";
      case Some(CreateDatabase) =>
        r := PushCreateOptions("CREATE DATABASE IF NOT EXISTS " + d.name, d);
        r := r + ";";
      case Some(AlterDatabase) =>
        r := PushAlterOptions("ALTER DATABASE " + d.name, d);
        r := r + ";";
      case Some(DropDatabase) =>
        r := "DROP DATABASE IF EXISTS " + d.name + ";";
    }
  }

  /** CREATE's options, pushed one by one after `head`. */
  method PushCreateOptions(head: string, d: Database) returns (r: string)
    ensures r == head + CreateOptions(d)
  {
    r := PushClause(head, " CHARACTER SET ", d.charset);
    r := PushClause(r, " COLLATE ", d.collation);
    r := PushClause(r, " ENCRYPTION ", Bare(d.encryption));
  }

  /** ALTER's options, pushed one by one after `head`. */
  method PushAlterOptions(head: string, d: Database) returns (r: string)
    ensures r == head + AlterOptions(d)
  {
    r := PushClause(head, " CHARACTER SET ", d.charset);
    r := PushClause(r, " COLLATE ", d.collation);
    r := PushClause(r, " ENCRYPTION ", Quoted(d.encryption));
    r := PushClause(r, " READ ONLY ", Decimal(d.readOnly));
    Regrouped(head, Clause(" CHARACTER SET ", d.charset), Clause(" COLLATE ", d.collation),
      Clause(" ENCRYPTION ", Quoted(d.encryption)), Clause(" READ ONLY ", Decimal(d.readOnly)));
  }

  lemma Regrouped(head: string, a: string, b: string, c: string, e: string)
    ensures head + a + b + c + e == head + (a + b + c + e)
  {
  }

  /** Push `prefix` and the value when it is set, nothing otherwise. */
  method PushClause(sql: string, prefix: string, o: Option<string>) returns (r: string)
    ensures r == sql + Clause(prefix, o)
  {
    r := sql;
    if o.Some? {
      r := r + prefix + o.value;
    }
  }

  /** A created database is written with the default character set and collation. */
  lemma CreateDefaultsSql(n: string)
    ensures DatabaseSql(Database(Some(CreateDatabase), n, Some(DefaultCharset), Some(DefaultCollation), None, None))
         == "CREATE DATABASE IF NOT EXISTS " + n + " CHARACTER SET " + "utf8mb4" + " COLLATE " + "utf8mb4_0900_ai_ci" + ";"
  {
    var d := Database(Some(CreateDatabase), n, Some(DefaultCharset), Some(DefaultCollation), None, None);
    assert CreateOptions(d) == (" CHARACTER SET " + DefaultCharset) + (" COLLATE " + DefaultCollation) + "";
  }

  /** The repository's ALTER example: encryption `Y` and read-only `1`, no character set or collation. */
  lemma AlterExampleSql()
    ensures DatabaseSql(Database(Some(AlterDatabase), "db_prod", None, None, Some('Y'), Some(1)))
         == "ALTER DATABASE " + "db_prod" + " ENCRYPTION " + "'Y'" + " READ ONLY " + "1" + ";"
  {
    var d := Database(Some(AlterDatabase), "db_prod", None, None, Some('Y'), Some(1));
    ExampleFlags();
    assert AlterOptions(d) == "" + "" + (" ENCRYPTION " + "'Y'") + (" READ ONLY " + "1");
  }

  /** The example's flags as ALTER writes them. */
  lemma ExampleFlags()
    ensures Decimal(Some(1)) == Some("1")
    ensures Quoted(Some('Y')) == Some("'Y'")
  {
    assert Digit(1) == '1';
    assert NatToString(1) == "1";
    assert "'" + ['Y'] + "'" == "'Y'";
  }
}

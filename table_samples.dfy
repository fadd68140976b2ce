/**
 * The table tests of `tests/table/mysql.rs` worked through the table builder: the ALTER
 * statement of the ALTER test, every line but the `FLOAT` one, and the constraint list of
 * the second CREATE test.
 */
module TableSamples {
  import opened Wrappers
  import opened Strings
  import opened Dialects
  import opened ColumnActions
  import opened ForeignKeys
  import opened ColumnTypes
  import opened Columns
  import opened DefineTables
  /**
   * The entries the ALTER test of `tests/table/mysql.rs` adds, as the builder calls append
   * them, except the `FLOAT` column (floats are not part of this model). Each value type is
   * its default descriptor with the setters the test's callback calls applied.
   */
  const AddedName := New("name", ColumnTypeAction.AddColumn(None), Str(None, 255, None, Attrs(Some(false), None, None, None, None)))
  const ModifiedDeleted := New("is_deleted", ColumnTypeAction.ModifyColumn(None), Boolean(Some(false), NoAttrs))
  const ModifiedAge := New("age", ColumnTypeAction.ModifyColumn(None), Integer(None, None, Some(true), None, None, None, None, NoAttrs))
  const ModifiedRateDouble := New("rate", ColumnTypeAction.ModifyColumn(None), Double(Some("0"), NoAttrs))
  const ModifiedRateDecimal := New("rate", ColumnTypeAction.ModifyColumn(None), Decimal(10, 6, None, NoAttrs))
  const ModifiedPhone :=
    New("phone", ColumnTypeAction.ModifyColumn(None), Str(None, 20, None, Attrs(None, None, None, Some(true), None)))
  const ModifiedRemark := New("remark", ColumnTypeAction.ModifyColumn(None), Text(Some(""), NoAttrs))
  const ChangedDesc :=
    New("desc", ColumnTypeAction.ChangeColumn(None, "description"), Text(None, Attrs(Some(false), None, None, None, None)))
  const RenamedAddr := New("addr", ColumnTypeAction.RenameColumn(None, "address"), DefaultString)
  const DroppedEmail := New("email", DropColumn, DefaultString)
  const NamePhoneIndex := Column(["name", "phone"], AddConstraint, Index(Some(true), Some(true)))
  const DroppedUsernameIndex := Column(["index_on_username"], DropConstraint, DefaultIndex)
  const DroppedUsernameUnique := Column(["unique_on_username"], DropConstraint, DefaultUnique)
  const DroppedIdKey := New("id", DropConstraint, DefaultPrimaryKey)
  const DroppedOrderKey := New("order_id", DropConstraint, ForeignKeyType(Some(From("order_id"))))
  const RenamedUidIndex := Column(["index_on_uid"], ColumnTypeAction.RenameIndex("idx_on_uid"), DefaultIndex)

  /** The entries in the test's order, four at a time. */
  const AlterAdds := [AddedName, ModifiedDeleted, ModifiedAge, ModifiedRateDouble]
  const AlterModifies := [ModifiedRateDecimal, ModifiedPhone, ModifiedRemark, ChangedDesc]
  const AlterDrops := [RenamedAddr, DroppedEmail, NamePhoneIndex, DroppedUsernameIndex]
  const AlterKeys := [DroppedUsernameUnique, DroppedIdKey, DroppedOrderKey, RenamedUidIndex]
  const AlterSample := AlterAdds + AlterModifies + AlterDrops + AlterKeys

  const AlterSampleTable := Table(Some(AlterTable(None)), "users", None, None, None, None, None, AlterSample)

  /** An entry is readable and gives these column clauses and these constraint clauses. */
  predicate ClausesOf(c: Column, items: seq<string>, cons: seq<string>) {
    Nameable(c, MySqlKeywords, c.action.AltersColumn())
    && AlterLine(c, MySqlKeywords) == items && ConstraintLine(c, true) == cons
  }

  /**
   * An added or modified column of a value type without a primary or foreign key renders
   * its keyword, name and definition; it adds a constraint only when it is added with a
   * unique or index flag.
   */
  lemma DefinedColumnLines(c: Column, d: string)
    requires |c.names| == 1 && Definition(c.columnType, MySqlKeywords) == Some(d)
    requires c.action == ColumnTypeAction.AddColumn(None) || c.action == ColumnTypeAction.ModifyColumn(None)
    requires !IsSet(PrimaryKeyOf(c.columnType)) && ForeignKeyOf(c.columnType).None?
    requires c.action.AddColumn? ==> !IsSet(UniqueOf(c.columnType)) && !IsSet(IndexOf(c.columnType))
    ensures ClausesOf(c, [AlterKeyword(c.action) + c.names[0] + " " + d], [])
  {
    assert PositionClause(None) == "";
    assert KeyParts(c.columnType, c.names, c.action) == "";
    var line := c.names[0] + " " + d;
    assert ColumnSql(c, MySqlKeywords) == Some(line + "");
    assert AlterKeyword(c.action) + (line + "") == AlterKeyword(c.action) + c.names[0] + " " + d;
  }

  /** A changed column of a value type without a primary or foreign key renders both names and the definition. */
  lemma ChangedColumnLines(c: Column, d: string)
    requires |c.names| == 1 && Definition(c.columnType, MySqlKeywords) == Some(d)
    requires c.action.ChangeColumn? && c.action.position.None?
    requires !IsSet(PrimaryKeyOf(c.columnType)) && ForeignKeyOf(c.columnType).None?
    ensures ClausesOf(c, ["CHANGE COLUMN " + c.names[0] + " " + c.action.newName + " " + d], [])
  {
    assert PositionClause(None) == "";
    assert KeyParts(c.columnType, c.names, c.action) == "";
    var line := c.names[0] + " " + c.action.newName + " " + d;
    assert ColumnSql(c, MySqlKeywords) == Some(line + "");
    assert "CHANGE COLUMN " + (line + "") == "CHANGE COLUMN " + c.names[0] + " " + c.action.newName + " " + d;
  }

  /** A dropped column is a column clause of its name alone, whatever its type, and a keyless type adds no constraint. */
  lemma DroppedColumnLines(name: string, t: ColumnType)
    requires IsValueDefault(t)
    ensures ClausesOf(Column([name], DropColumn, t), ["DROP COLUMN " + name], [])
  {
    assert ColumnSql(Column([name], DropColumn, t), MySqlKeywords) == Some(name);
  }

  /** A renamed column is a column clause only, whatever its type. */
  lemma RenamedColumnLines(name: string, newName: string, t: ColumnType)
    requires IsValueDefault(t)
    ensures ClausesOf(Column([name], ColumnTypeAction.RenameColumn(None, newName), t),
                       ["RENAME COLUMN " + name + " TO " + newName], [])
  {
    var line := name + " TO " + newName;
    assert ColumnSql(Column([name], ColumnTypeAction.RenameColumn(None, newName), t), MySqlKeywords) == Some(line + "");
    assert "RENAME COLUMN " + (line + "") == "RENAME COLUMN " + name + " TO " + newName;
  }

  /** A dropped or renamed index, or a dropped unique key, is a constraint clause only. */
  lemma IndexLines(name: string, a: ColumnTypeAction, t: ColumnType)
    requires a.DropConstraint? || a.RenameIndex?
    requires t == DefaultIndex || (t == DefaultUnique && a.DropConstraint?)
    ensures ClausesOf(Column([name], a, t), [],
                       [if a.DropConstraint? then "DROP INDEX " + name else "RENAME INDEX " + name + " TO " + a.newName])
  {
    var k := if a.DropConstraint? then "DROP INDEX " + name else "RENAME INDEX " + name + " TO " + a.newName;
    assert IsSet(IndexOf(t)) || IsSet(UniqueOf(t));
    assert !IsSet(PrimaryKeyOf(t)) && ForeignKeyOf(t).None?;
    assert "" + k == k && |k| > 0;
    assert KeyParts(t, [name], a) == k;
    assert ConstraintSql(t, [name], a) == Some(k);
  }

  /** A dropped primary key is a constraint clause only, with the drop run into the key name. */
  lemma DroppedPrimaryKeyLines(name: string)
    ensures ClausesOf(Column([name], DropConstraint, DefaultPrimaryKey), [],
                       ["PRIMARY KEY pk_on_" + name + ("DROP INDEX " + name)])
  {
    var k := "PRIMARY KEY pk_on_" + name + ("DROP INDEX " + name);
    assert IsSet(PrimaryKeyOf(DefaultPrimaryKey));
    assert !IsSet(UniqueOf(DefaultPrimaryKey)) && !IsSet(IndexOf(DefaultPrimaryKey));
    assert ForeignKeyOf(DefaultPrimaryKey).None?;
    assert k + "" == k && "" + k == k && |k| > 0;
    assert KeyParts(DefaultPrimaryKey, [name], DropConstraint) == k;
    assert ConstraintSql(DefaultPrimaryKey, [name], DropConstraint) == Some(k);
  }

  /** A dropped foreign key is a constraint clause only: the head of the column's conventional key. */
  lemma DroppedForeignKeyLines(name: string)
    ensures ClausesOf(Column([name], DropConstraint, ForeignKeyType(Some(From(name)))), [],
                       ["FOREIGN KEY fk_on_" + name])
  {
    var t := ForeignKeyType(Some(From(name)));
    FromSql(name, DropConstraint);
    assert !IsSet(PrimaryKeyOf(t)) && !IsSet(UniqueOf(t)) && !IsSet(IndexOf(t));
    assert KeyParts(t, [name], DropConstraint) == "";
  }

  /** An added unique index over two columns is a constraint clause only, after `ADD CONSTRAINT`. */
  lemma AddedIndexLines(a: string, b: string)
    ensures ClausesOf(Column([a, b], AddConstraint, Index(Some(true), Some(true))), [],
                       ["ADD CONSTRAINT " + ("UNIQUE INDEX unique_index_on_" + (a + "_and_" + b) + " (" + (a + "," + b) + ")")])
  {
    var t := Index(Some(true), Some(true));
    JoinThree(a, b, b, "_and_");
    JoinThree(a, b, b, ",");
    var k := "UNIQUE INDEX unique_index_on_" + (a + "_and_" + b) + " (" + (a + "," + b) + ")";
    assert IsSet(UniqueOf(t)) && IsSet(IndexOf(t)) && !IsSet(PrimaryKeyOf(t)) && ForeignKeyOf(t).None?;
    assert KeyParts(t, [a, b], AddConstraint) == "" + k;
    assert "" + k == k;
  }

  /** The widths, precisions and scales the table tests write. */
  lemma SampleNumbers()
    ensures NatToString(255) == "255" && NatToString(20) == "20"
    ensures NatToString(10) == "10" && NatToString(6) == "6"
  {
    assert NatToString(2) == "2" && NatToString(25) == "25";
    assert NatToString(1) == "1" && NatToString(0) == "0";
  }

  /** The definition of the test's first column. */
  lemma NameDefinition()
    ensures Definition(AddedName.columnType, MySqlKeywords) == Some("VARCHAR(255) NOT NULL")
  {
    SampleNumbers();
    assert "VARCHAR" + "(" + "255" + ")" == "VARCHAR(255)";
    assert "VARCHAR(255)" + "" + " NOT NULL" + "" + "" + "" == "VARCHAR(255) NOT NULL";
  }

  /** The definitions of the test's second and third columns. */
  lemma FlagAndAgeDefinitions()
    ensures Definition(ModifiedDeleted.columnType, MySqlKeywords) == Some("BOOLEAN DEFAULT false")
    ensures Definition(ModifiedAge.columnType, MySqlKeywords) == Some("INT UNSIGNED")
  {
    assert "BOOLEAN" + "" + "" + (" DEFAULT " + "false") + "" + "" == "BOOLEAN DEFAULT false";
    assert "INT" + (" UNSIGNED" + "") + "" + "" + "" + "" == "INT UNSIGNED";
  }

  /** The definitions of the test's two `rate` columns. */
  lemma RateDefinitions()
    ensures Definition(ModifiedRateDouble.columnType, MySqlKeywords) == Some("DOUBLE DEFAULT 0")
    ensures Definition(ModifiedRateDecimal.columnType, MySqlKeywords) == Some("DECIMAL(10, 6)")
  {
    SampleNumbers();
    assert "DOUBLE" + "" + "" + (" DEFAULT " + "0") + "" + "" == "DOUBLE DEFAULT 0";
    assert "DECIMAL" + "(" + "10" + ", " + "6" + ")" + "" + "" + "" + "" + "" == "DECIMAL(10, 6)";
  }

  /** The definitions of the test's other three defined columns. */
  lemma LastDefinitions()
    ensures Definition(ModifiedPhone.columnType, MySqlKeywords) == Some("VARCHAR(20)")
    ensures Definition(ModifiedRemark.columnType, MySqlKeywords) == Some("TEXT DEFAULT ")
    ensures Definition(ChangedDesc.columnType, MySqlKeywords) == Some("TEXT NOT NULL")
  {
    SampleNumbers();
    assert "VARCHAR" + "(" + "20" + ")" + "" + "" + "" + "" + "" == "VARCHAR(20)";
    assert "TEXT" + "" + "" + (" DEFAULT " + "") + "" + "" == "TEXT DEFAULT ";
    assert "TEXT" + "" + " NOT NULL" + "" + "" + "" == "TEXT NOT NULL";
  }

  /** The clauses of the first four entries. */
  lemma FirstEntries()
    ensures ClausesOf(AddedName, ["ADD COLUMN " + "name" + " " + "VARCHAR(255) NOT NULL"], [])
    ensures ClausesOf(ModifiedDeleted, ["MODIFY COLUMN " + "is_deleted" + " " + "BOOLEAN DEFAULT false"], [])
    ensures ClausesOf(ModifiedAge, ["MODIFY COLUMN " + "age" + " " + "INT UNSIGNED"], [])
    ensures ClausesOf(ModifiedRateDouble, ["MODIFY COLUMN " + "rate" + " " + "DOUBLE DEFAULT 0"], [])
  {
    NameDefinition();
    FlagAndAgeDefinitions();
    RateDefinitions();
    DefinedColumnLines(AddedName, "VARCHAR(255) NOT NULL");
    DefinedColumnLines(ModifiedDeleted, "BOOLEAN DEFAULT false");
    DefinedColumnLines(ModifiedAge, "INT UNSIGNED");
    DefinedColumnLines(ModifiedRateDouble, "DOUBLE DEFAULT 0");
  }

  /** The clauses of the next four entries. */
  lemma MiddleEntries()
    ensures ClausesOf(ModifiedRateDecimal, ["MODIFY COLUMN " + "rate" + " " + "DECIMAL(10, 6)"], [])
    ensures ClausesOf(ModifiedPhone, ["MODIFY COLUMN " + "phone" + " " + "VARCHAR(20)"], [])
    ensures ClausesOf(ModifiedRemark, ["MODIFY COLUMN " + "remark" + " " + "TEXT DEFAULT "], [])
    ensures ClausesOf(ChangedDesc, ["CHANGE COLUMN " + "desc" + " " + "description" + " " + "TEXT NOT NULL"], [])
  {
    RateDefinitions();
    LastDefinitions();
    DefinedColumnLines(ModifiedRateDecimal, "DECIMAL(10, 6)");
    DefinedColumnLines(ModifiedPhone, "VARCHAR(20)");
    DefinedColumnLines(ModifiedRemark, "TEXT DEFAULT ");
    ChangedColumnLines(ChangedDesc, "TEXT NOT NULL");
  }

  /** The clauses of the last eight entries: two column clauses, then six constraint clauses. */
  lemma LastEntries()
    ensures ClausesOf(RenamedAddr, ["RENAME COLUMN " + "addr" + " TO " + "address"], [])
    ensures ClausesOf(DroppedEmail, ["DROP COLUMN " + "email"], [])
    ensures ClausesOf(NamePhoneIndex, [],
      ["ADD CONSTRAINT " + ("UNIQUE INDEX unique_index_on_" + ("name" + "_and_" + "phone") + " (" + ("name" + "," + "phone") + ")")])
    ensures ClausesOf(DroppedUsernameIndex, [], ["DROP INDEX " + "index_on_username"])
    ensures ClausesOf(DroppedUsernameUnique, [], ["DROP INDEX " + "unique_on_username"])
    ensures ClausesOf(DroppedIdKey, [], ["PRIMARY KEY pk_on_" + "id" + ("DROP INDEX " + "id")])
    ensures ClausesOf(DroppedOrderKey, [], ["FOREIGN KEY fk_on_" + "order_id"])
    ensures ClausesOf(RenamedUidIndex, [], ["RENAME INDEX " + "index_on_uid" + " TO " + "idx_on_uid"])
  {
    RenamedColumnLines("addr", "address", DefaultString);
    DroppedColumnLines("email", DefaultString);
    AddedIndexLines("name", "phone");
    IndexLines("index_on_username", DropConstraint, DefaultIndex);
    IndexLines("unique_on_username", DropConstraint, DefaultUnique);
    DroppedPrimaryKeyLines("id");
    DroppedForeignKeyLines("order_id");
    IndexLines("index_on_uid", ColumnTypeAction.RenameIndex("idx_on_uid"), DefaultIndex);
  }

  /** The clauses of four entries, from each entry's own; the four are readable. */
  lemma FourEntries(e0: Column, e1: Column, e2: Column, e3: Column,
                    a0: seq<string>, a1: seq<string>, a2: seq<string>, a3: seq<string>,
                    c0: seq<string>, c1: seq<string>, c2: seq<string>, c3: seq<string>)
    requires ClausesOf(e0, a0, c0) && ClausesOf(e1, a1, c1) && ClausesOf(e2, a2, c2) && ClausesOf(e3, a3, c3)
    ensures AlterItems([e0, e1, e2, e3], MySqlKeywords) == a0 + a1 + a2 + a3
    ensures Constraints([e0, e1, e2, e3], true) == c0 + c1 + c2 + c3
    ensures AlterReadable([e0, e1, e2, e3], MySqlKeywords)
  {
    var cols := [e0, e1, e2, e3];
    FourAlterItems(cols, MySqlKeywords, a0, a1, a2, a3);
    FourConstraints(cols, true, c0, c1, c2, c3);
    forall i | 0 <= i < 4
      ensures Nameable(cols[i], MySqlKeywords, cols[i].action.AltersColumn())
    {
      if i == 0 {
      } else if i == 1 {
      } else if i == 2 {
      } else {
      }
    }
  }

  /** The column clauses of four entries, from each entry's own. */
  lemma FourAlterItems(cols: seq<Column>, kw: Keywords, a0: seq<string>, a1: seq<string>, a2: seq<string>, a3: seq<string>)
    requires |cols| == 4
    requires AlterLine(cols[0], kw) == a0 && AlterLine(cols[1], kw) == a1
    requires AlterLine(cols[2], kw) == a2 && AlterLine(cols[3], kw) == a3
    ensures AlterItems(cols, kw) == a0 + a1 + a2 + a3
  {
    assert cols[..0] == [] && cols[..4] == cols;
    assert [] + a0 == a0;
    AlterItemsSnoc(cols, 0, kw);
    AlterItemsSnoc(cols, 1, kw);
    assert AlterItems(cols[..2], kw) == a0 + a1;
    AlterItemsSnoc(cols, 2, kw);
    assert AlterItems(cols[..3], kw) == a0 + a1 + a2;
    AlterItemsSnoc(cols, 3, kw);
  }

  /** The constraint clauses of four entries, from each entry's own. */
  lemma FourConstraints(cols: seq<Column>, alter: bool, c0: seq<string>, c1: seq<string>, c2: seq<string>, c3: seq<string>)
    requires |cols| == 4
    requires ConstraintLine(cols[0], alter) == c0 && ConstraintLine(cols[1], alter) == c1
    requires ConstraintLine(cols[2], alter) == c2 && ConstraintLine(cols[3], alter) == c3
    ensures Constraints(cols, alter) == c0 + c1 + c2 + c3
  {
    assert cols[..0] == [] && cols[..4] == cols;
    assert [] + c0 == c0;
    ConstraintsSnoc(cols, 0, alter);
    ConstraintsSnoc(cols, 1, alter);
    assert Constraints(cols[..2], alter) == c0 + c1;
    ConstraintsSnoc(cols, 2, alter);
    assert Constraints(cols[..3], alter) == c0 + c1 + c2;
    ConstraintsSnoc(cols, 3, alter);
  }

  /** The constraint clauses of three entries, from each entry's own. */
  lemma ThreeConstraints(cols: seq<Column>, alter: bool, c0: seq<string>, c1: seq<string>, c2: seq<string>)
    requires |cols| == 3
    requires ConstraintLine(cols[0], alter) == c0 && ConstraintLine(cols[1], alter) == c1
    requires ConstraintLine(cols[2], alter) == c2
    ensures Constraints(cols, alter) == c0 + c1 + c2
  {
    assert cols[..0] == [] && cols[..3] == cols;
    assert [] + c0 == c0;
    ConstraintsSnoc(cols, 0, alter);
    ConstraintsSnoc(cols, 1, alter);
    assert Constraints(cols[..2], alter) == c0 + c1;
    ConstraintsSnoc(cols, 2, alter);
  }

  /** The column clauses of two entry lists are those of each, in order. */
  lemma {:induction false} AlterItemsAppend(a: seq<Column>, b: seq<Column>, kw: Keywords)
    ensures AlterItems(a + b, kw) == AlterItems(a, kw) + AlterItems(b, kw)
  {
    if b == [] {
      assert a + b == a;
    } else {
      var init := b[..|b| - 1];
      var last := b[|b| - 1];
      assert (a + b)[..|a + b| - 1] == a + init;
      assert (a + b)[|a + b| - 1] == last;
      assert AlterItems(a + b, kw) == AlterItems(a + init, kw) + AlterLine(last, kw);
      AlterItemsAppend(a, init, kw);
      assert AlterItems(b, kw) == AlterItems(init, kw) + AlterLine(last, kw);
    }
  }

  /** The constraint clauses of two entry lists are those of each, in order. */
  lemma {:induction false} ConstraintsAppend(a: seq<Column>, b: seq<Column>, alter: bool)
    ensures Constraints(a + b, alter) == Constraints(a, alter) + Constraints(b, alter)
  {
    if b == [] {
      assert a + b == a;
    } else {
      var init := b[..|b| - 1];
      ConstraintsAppend(a, init, alter);
      assert (a + b)[..|a + b| - 1] == a + init;
      assert (a + b)[|a + b| - 1] == b[|b| - 1];
    }
  }

  /** Two entry lists of which every entry is readable. */
  lemma ReadableAppend(a: seq<Column>, b: seq<Column>, kw: Keywords)
    requires AlterReadable(a, kw) && AlterReadable(b, kw)
    ensures AlterReadable(a + b, kw)
  {
    assert forall i | 0 <= i < |a + b| :: (a + b)[i] == if i < |a| then a[i] else b[i - |a|];
  }

  /** The first four entries are column clauses only. */
  lemma AddsClauses()
    ensures AlterReadable(AlterAdds, MySqlKeywords) && Constraints(AlterAdds, true) == []
    ensures AlterItems(AlterAdds, MySqlKeywords)
         == ["ADD COLUMN " + "name" + " " + "VARCHAR(255) NOT NULL",
             "MODIFY COLUMN " + "is_deleted" + " " + "BOOLEAN DEFAULT false",
             "MODIFY COLUMN " + "age" + " " + "INT UNSIGNED",
             "MODIFY COLUMN " + "rate" + " " + "DOUBLE DEFAULT 0"]
  {
    FirstEntries();
    FourSingles("ADD COLUMN " + "name" + " " + "VARCHAR(255) NOT NULL", "MODIFY COLUMN " + "is_deleted" + " " + "BOOLEAN DEFAULT false",
      "MODIFY COLUMN " + "age" + " " + "INT UNSIGNED", "MODIFY COLUMN " + "rate" + " " + "DOUBLE DEFAULT 0");
    FourEntries(AddedName, ModifiedDeleted, ModifiedAge, ModifiedRateDouble,
      ["ADD COLUMN " + "name" + " " + "VARCHAR(255) NOT NULL"],
      ["MODIFY COLUMN " + "is_deleted" + " " + "BOOLEAN DEFAULT false"],
      ["MODIFY COLUMN " + "age" + " " + "INT UNSIGNED"],
      ["MODIFY COLUMN " + "rate" + " " + "DOUBLE DEFAULT 0"],
      [],
      [],
      [],
      []);
  }

  /** So are the next four. */
  lemma ModifiesClauses()
    ensures AlterReadable(AlterModifies, MySqlKeywords) && Constraints(AlterModifies, true) == []
    ensures AlterItems(AlterModifies, MySqlKeywords)
         == ["MODIFY COLUMN " + "rate" + " " + "DECIMAL(10, 6)",
             "MODIFY COLUMN " + "phone" + " " + "VARCHAR(20)",
             "MODIFY COLUMN " + "remark" + " " + "TEXT DEFAULT ",
             "CHANGE COLUMN " + "desc" + " " + "description" + " " + "TEXT NOT NULL"]
  {
    MiddleEntries();
    FourSingles("MODIFY COLUMN " + "rate" + " " + "DECIMAL(10, 6)", "MODIFY COLUMN " + "phone" + " " + "VARCHAR(20)",
      "MODIFY COLUMN " + "remark" + " " + "TEXT DEFAULT ", "CHANGE COLUMN " + "desc" + " " + "description" + " " + "TEXT NOT NULL");
    FourEntries(ModifiedRateDecimal, ModifiedPhone, ModifiedRemark, ChangedDesc,
      ["MODIFY COLUMN " + "rate" + " " + "DECIMAL(10, 6)"],
      ["MODIFY COLUMN " + "phone" + " " + "VARCHAR(20)"],
      ["MODIFY COLUMN " + "remark" + " " + "TEXT DEFAULT "],
      ["CHANGE COLUMN " + "desc" + " " + "description" + " " + "TEXT NOT NULL"],
      [],
      [],
      [],
      []);
  }

  /** Four single clauses, listed. */
  lemma FourSingles(a: string, b: string, c: string, d: string)
    ensures [a] + [b] + [c] + [d] == [a, b, c, d]
    ensures [a] + [b] + [] + [] == [a, b] && [] + [] + [c] + [d] == [c, d]
  {
  }

  /** The four groups' column clauses, then their constraint clauses, listed. */
  lemma SixteenListed(x0: string, x1: string, x2: string, x3: string, x4: string, x5: string, x6: string, x7: string,
                      x8: string, x9: string, x10: string, x11: string, x12: string, x13: string, x14: string, x15: string)
    ensures [x0, x1, x2, x3] + [x4, x5, x6, x7] + [x8, x9] + [] + ([] + [] + [x10, x11] + [x12, x13, x14, x15])
         == [x0, x1, x2, x3, x4, x5, x6, x7, x8, x9, x10, x11, x12, x13, x14, x15]
  {
  }

  /** Two column clauses, then two constraint clauses. */
  lemma DropsClauses()
    ensures AlterReadable(AlterDrops, MySqlKeywords)
    ensures AlterItems(AlterDrops, MySqlKeywords)
         == ["RENAME COLUMN " + "addr" + " TO " + "address",
             "DROP COLUMN " + "email"]
    ensures Constraints(AlterDrops, true)
         == ["ADD CONSTRAINT " + ("UNIQUE INDEX unique_index_on_" + ("name" + "_and_" + "phone") + " (" + ("name" + "," + "phone") + ")"),
             "DROP INDEX " + "index_on_username"]
  {
    LastEntries();
    FourSingles("RENAME COLUMN " + "addr" + " TO " + "address", "DROP COLUMN " + "email",
      "ADD CONSTRAINT " + ("UNIQUE INDEX unique_index_on_" + ("name" + "_and_" + "phone") + " (" + ("name" + "," + "phone") + ")"), "DROP INDEX " + "index_on_username");
    FourEntries(RenamedAddr, DroppedEmail, NamePhoneIndex, DroppedUsernameIndex,
      ["RENAME COLUMN " + "addr" + " TO " + "address"],
      ["DROP COLUMN " + "email"],
      [],
      [],
      [],
      [],
      ["ADD CONSTRAINT " + ("UNIQUE INDEX unique_index_on_" + ("name" + "_and_" + "phone") + " (" + ("name" + "," + "phone") + ")")],
      ["DROP INDEX " + "index_on_username"]);
  }

  /** The last four entries are constraint clauses only. */
  lemma KeysClauses()
    ensures AlterReadable(AlterKeys, MySqlKeywords) && AlterItems(AlterKeys, MySqlKeywords) == []
    ensures Constraints(AlterKeys, true)
         == ["DROP INDEX " + "unique_on_username",
             "PRIMARY KEY pk_on_" + "id" + ("DROP INDEX " + "id"),
             "FOREIGN KEY fk_on_" + "order_id",
             "RENAME INDEX " + "index_on_uid" + " TO " + "idx_on_uid"]
  {
    FourSingles("DROP INDEX " + "unique_on_username", "PRIMARY KEY pk_on_" + "id" + ("DROP INDEX " + "id"),
      "FOREIGN KEY fk_on_" + "order_id", "RENAME INDEX " + "index_on_uid" + " TO " + "idx_on_uid");
    LastEntries();
    FourEntries(DroppedUsernameUnique, DroppedIdKey, DroppedOrderKey, RenamedUidIndex,
      [],
      [],
      [],
      [],
      ["DROP INDEX " + "unique_on_username"],
      ["PRIMARY KEY pk_on_" + "id" + ("DROP INDEX " + "id")],
      ["FOREIGN KEY fk_on_" + "order_id"],
      ["RENAME INDEX " + "index_on_uid" + " TO " + "idx_on_uid"]);
  }

  /** The sixteen clauses of the ALTER statement, in the order the builder emits them. */
  const NameClause := "ADD COLUMN " + "name" + " " + "VARCHAR(255) NOT NULL"
  const DeletedClause := "MODIFY COLUMN " + "is_deleted" + " " + "BOOLEAN DEFAULT false"
  const AgeClause := "MODIFY COLUMN " + "age" + " " + "INT UNSIGNED"
  const RateDoubleClause := "MODIFY COLUMN " + "rate" + " " + "DOUBLE DEFAULT 0"
  const RateDecimalClause := "MODIFY COLUMN " + "rate" + " " + "DECIMAL(10, 6)"
  const PhoneClause := "MODIFY COLUMN " + "phone" + " " + "VARCHAR(20)"
  const RemarkClause := "MODIFY COLUMN " + "remark" + " " + "TEXT DEFAULT "
  const DescClause := "CHANGE COLUMN " + "desc" + " " + "description" + " " + "TEXT NOT NULL"
  const AddrClause := "RENAME COLUMN " + "addr" + " TO " + "address"
  const EmailClause := "DROP COLUMN " + "email"
  const NamePhoneClause := "ADD CONSTRAINT " + ("UNIQUE INDEX unique_index_on_" + ("name" + "_and_" + "phone") + " (" + ("name" + "," + "phone") + ")")
  const UsernameIndexClause := "DROP INDEX " + "index_on_username"
  const UsernameUniqueClause := "DROP INDEX " + "unique_on_username"
  const IdKeyClause := "PRIMARY KEY pk_on_" + "id" + ("DROP INDEX " + "id")
  const OrderKeyClause := "FOREIGN KEY fk_on_" + "order_id"
  const UidIndexClause := "RENAME INDEX " + "index_on_uid" + " TO " + "idx_on_uid"

  /** The sample's column clauses and constraint clauses, in entry order; every entry is readable. */
  lemma AlterSampleEntries()
    ensures AlterReadable(AlterSampleTable.columns, MySqlKeywords)
    ensures AlterItems(AlterSampleTable.columns, MySqlKeywords) + Constraints(AlterSampleTable.columns, true)
         == [NameClause,
             DeletedClause,
             AgeClause,
             RateDoubleClause,
             RateDecimalClause,
             PhoneClause,
             RemarkClause,
             DescClause,
             AddrClause,
             EmailClause,
             NamePhoneClause,
             UsernameIndexClause,
             UsernameUniqueClause,
             IdKeyClause,
             OrderKeyClause,
             UidIndexClause]
  {
    var kw := MySqlKeywords;
    AddsClauses();
    ModifiesClauses();
    DropsClauses();
    KeysClauses();
    var ab := AlterAdds + AlterModifies;
    AlterItemsAppend(AlterAdds, AlterModifies, kw);
    AlterItemsAppend(ab, AlterDrops, kw);
    AlterItemsAppend(ab + AlterDrops, AlterKeys, kw);
    ConstraintsAppend(AlterAdds, AlterModifies, true);
    ConstraintsAppend(ab, AlterDrops, true);
    ConstraintsAppend(ab + AlterDrops, AlterKeys, true);
    ReadableAppend(AlterAdds, AlterModifies, kw);
    ReadableAppend(ab, AlterDrops, kw);
    ReadableAppend(ab + AlterDrops, AlterKeys, kw);
    SixteenListed(NameClause, DeletedClause,
      AgeClause, RateDoubleClause,
      RateDecimalClause, PhoneClause,
      RemarkClause, DescClause,
      AddrClause, EmailClause,
      NamePhoneClause, UsernameIndexClause,
      UsernameUniqueClause, IdKeyClause,
      OrderKeyClause, UidIndexClause);
  }

  /** Sixteen clauses joined, as the joins of four groups of four. */
  lemma SixteenJoined(xs: seq<string>, sep: string)
    requires |xs| == 16
    ensures Join(xs, sep)
         == Join(xs[..4], sep) + sep + Join(xs[4..8], sep) + sep + Join(xs[8..12], sep) + sep + Join(xs[12..], sep)
  {
    var a, b, c, d := xs[..4], xs[4..8], xs[8..12], xs[12..];
    assert xs == a + b + c + d;
    JoinAppend(a, b, sep);
    JoinAppend(a + b, c, sep);
    JoinAppend(a + b + c, d, sep);
  }

  /** Four clauses joined, written out. */
  lemma FourJoined(xs: seq<string>, sep: string)
    requires |xs| == 4
    ensures Join(xs, sep) == xs[0] + sep + xs[1] + sep + xs[2] + sep + xs[3]
  {
    assert xs == [xs[0], xs[1], xs[2], xs[3]];
    JoinFour(xs[0], xs[1], xs[2], xs[3], sep);
  }

  /** Sixteen clauses as a block after a head, written out. */
  lemma SixteenClauses(head: string, xs: seq<string>)
    requires |xs| == 16
    ensures head + Block(xs) + "" + ";"
         == head + "\n"
          + (xs[0] + ",\n" + xs[1] + ",\n" + xs[2] + ",\n" + xs[3] + ",\n" + xs[4] + ",\n" + xs[5]
             + ",\n" + xs[6] + ",\n" + xs[7] + ",\n" + xs[8] + ",\n" + xs[9] + ",\n" + xs[10] + ",\n" + xs[11]
             + ",\n" + xs[12] + ",\n" + xs[13] + ",\n" + xs[14] + ",\n" + xs[15]) + ";"
  {
    var sep := ",\n";
    SixteenJoined(xs, sep);
    FourJoined(xs[..4], sep);
    FourJoined(xs[4..8], sep);
    FourJoined(xs[8..12], sep);
    FourJoined(xs[12..], sep);
    var j0 := xs[0] + sep + xs[1] + sep + xs[2] + sep + xs[3];
    FourAppended(j0, sep, xs[4], xs[5], xs[6], xs[7]);
    var j1 := j0 + sep + xs[4] + sep + xs[5] + sep + xs[6] + sep + xs[7];
    FourAppended(j1, sep, xs[8], xs[9], xs[10], xs[11]);
    var j2 := j1 + sep + xs[8] + sep + xs[9] + sep + xs[10] + sep + xs[11];
    FourAppended(j2, sep, xs[12], xs[13], xs[14], xs[15]);
    var j3 := j2 + sep + xs[12] + sep + xs[13] + sep + xs[14] + sep + xs[15];
    assert Block(xs) == "\n" + j3;
    assert head + ("\n" + j3) + "" + ";" == head + "\n" + j3 + ";";
  }

  /** Four clauses appended to a text, each after `sep`, regrouped. */
  lemma FourAppended(a: string, sep: string, x0: string, x1: string, x2: string, x3: string)
    ensures a + sep + (x0 + sep + x1 + sep + x2 + sep + x3) == a + sep + x0 + sep + x1 + sep + x2 + sep + x3
  {
  }

  /** An ALTER of sixteen clauses without options, written out. */
  lemma AlterSixteen(t: Table, name: string, x0: string, x1: string, x2: string, x3: string, x4: string, x5: string, x6: string,
                     x7: string, x8: string, x9: string, x10: string, x11: string, x12: string, x13: string,
                     x14: string, x15: string)
    requires t == Table(Some(AlterTable(None)), name, None, None, None, None, None, t.columns)
    requires AlterReadable(t.columns, MySqlKeywords)
    requires AlterItems(t.columns, MySqlKeywords) + Constraints(t.columns, true)
          == [x0, x1, x2, x3, x4, x5, x6, x7, x8, x9, x10, x11, x12, x13, x14, x15]
    ensures Renderable(t, MySqlKeywords)
    ensures TableSql(t, MySqlKeywords)
         == "ALTER TABLE " + name + "\n"
          + (x0 + ",\n" + x1 + ",\n" + x2 + ",\n" + x3 + ",\n" + x4 + ",\n" + x5 + ",\n" + x6 + ",\n" + x7
             + ",\n" + x8 + ",\n" + x9 + ",\n" + x10 + ",\n" + x11 + ",\n" + x12 + ",\n" + x13 + ",\n" + x14
             + ",\n" + x15) + ";"
  {
    assert AlterOptions(t, None) == "";
    SixteenClauses("ALTER TABLE " + name, [x0, x1, x2, x3, x4, x5, x6, x7, x8, x9, x10, x11, x12, x13, x14, x15]);
  }

  /**
   * The ALTER test's statement, every line but the `FLOAT` one: the column clauses, then
   * the constraint clauses, each on its own line after a comma, closed by `;`.
   */
  lemma AlterSampleExample()
    ensures Renderable(AlterSampleTable, MySqlKeywords)
    ensures TableSql(AlterSampleTable, MySqlKeywords)
         == "ALTER TABLE " + "users" + "\n"
          + (NameClause + ",\n"
          + DeletedClause + ",\n"
          + AgeClause + ",\n"
          + RateDoubleClause + ",\n"
          + RateDecimalClause + ",\n"
          + PhoneClause + ",\n"
          + RemarkClause + ",\n"
          + DescClause + ",\n"
          + AddrClause + ",\n"
          + EmailClause + ",\n"
          + NamePhoneClause + ",\n"
          + UsernameIndexClause + ",\n"
          + UsernameUniqueClause + ",\n"
          + IdKeyClause + ",\n"
          + OrderKeyClause + ",\n"
          + UidIndexClause) + ";"
  {
    AlterSampleEntries();
    AlterSixteen(AlterSampleTable, "users",
      NameClause, DeletedClause,
      AgeClause, RateDoubleClause,
      RateDecimalClause, PhoneClause,
      RemarkClause, DescClause,
      AddrClause, EmailClause,
      NamePhoneClause, UsernameIndexClause,
      UsernameUniqueClause, IdKeyClause,
      OrderKeyClause, UidIndexClause);
  }

  /**
   * The entries of the second CREATE test of `tests/table/mysql.rs` that carry a key, as the
   * builder calls append them: the primary-key `id`, the `user_id` integer with its foreign
   * key, the indexed `is_deleted` flag, the unique indexed `email`, and the index, unique key
   * and foreign key the test adds on their own. The test's other entries set no key flag and
   * add no constraint.
   */
  const KeyedId := New("id", ColumnTypeAction.AddColumn(None), IdType)
  const KeyedUserId := New("user_id", ColumnTypeAction.AddColumn(None),
    Integer(None, None, None, None, None, None, Some(From("user_id")), Attrs(Some(false), Some("user_id"), None, None, None)))
  const IndexedDeleted := New("is_deleted", ColumnTypeAction.AddColumn(None),
    Boolean(Some(true), Attrs(Some(false), Some("软删除"), Some(true), None, None)))
  const IndexedEmail := New("email", ColumnTypeAction.AddColumn(None),
    Str(None, 255, None, Attrs(Some(false), None, Some(true), Some(true), None)))
  const NameIndex := Column(["name"], AddConstraint, DefaultIndex)
  const UsernameUnique := Column(["username"], AddConstraint, DefaultUnique)
  const OrderKey := New("order_id", AddConstraint, ForeignKeyType(Some(From("order_id"))))

  const ColumnKeys := [KeyedId, KeyedUserId, IndexedDeleted, IndexedEmail]
  const TableKeys := [NameIndex, UsernameUnique, OrderKey]

  /** An added entry with a unique or index flag and no other key gives one clause: the key's name and its column. */
  lemma SingleKeyLine(c: Column)
    requires |c.names| == 1 && c.action.Adds()
    requires IsSet(UniqueOf(c.columnType)) || IsSet(IndexOf(c.columnType))
    requires !IsSet(PrimaryKeyOf(c.columnType)) && ForeignKeyOf(c.columnType).None?
    ensures ConstraintLine(c, false)
         == [KeyName(IsSet(UniqueOf(c.columnType)), IsSet(IndexOf(c.columnType)), c.names) + " (" + c.names[0] + ")"]
  {
    var k := KeyName(IsSet(UniqueOf(c.columnType)), IsSet(IndexOf(c.columnType)), c.names) + " (" + Join(c.names, ",") + ")";
    assert Join(c.names, ",") == c.names[0];
    assert KeyParts(c.columnType, c.names, c.action) == "" + k;
    assert "" + k == k;
  }

  /** An added entry with only the conventional foreign key of its column gives that key's full clause. */
  lemma ForeignKeyLine(c: Column)
    requires |c.names| == 1 && c.action.Adds() && ForeignKeyOf(c.columnType) == Some(From(c.names[0]))
    requires !IsSet(PrimaryKeyOf(c.columnType)) && !IsSet(UniqueOf(c.columnType)) && !IsSet(IndexOf(c.columnType))
    ensures ConstraintLine(c, false)
         == ["FOREIGN KEY fk_on_" + c.names[0] + " (" + c.names[0] + ") REFERENCES " + Plural(StripId(c.names[0])) + " (id)"]
  {
    FromSql(c.names[0], c.action);
    assert KeyParts(c.columnType, c.names, c.action) == "";
  }

  /** The clauses of the four column entries. */
  lemma ColumnKeyLines()
    ensures ConstraintLine(KeyedId, false) == ["PRIMARY KEY pk_on_id (id)"]
    ensures ConstraintLine(KeyedUserId, false)
         == ["FOREIGN KEY fk_on_" + "user_id" + " (" + "user_id" + ") REFERENCES " + "users" + " (id)"]
    ensures ConstraintLine(IndexedDeleted, false) == ["INDEX index_on_" + "is_deleted" + " (" + "is_deleted" + ")"]
    ensures ConstraintLine(IndexedEmail, false) == ["UNIQUE INDEX unique_index_on_" + "email" + " (" + "email" + ")"]
  {
    IdConstraintExample();
    assert "" + "PRIMARY KEY pk_on_id (id)" == "PRIMARY KEY pk_on_id (id)";
    ForeignKeyLine(KeyedUserId);
    IdColumnReferencesStem("user");
    assert Join(["is_deleted"], "_and_") == "is_deleted" && Join(["email"], "_and_") == "email";
    SingleKeyLine(IndexedDeleted);
    SingleKeyLine(IndexedEmail);
  }

  /** The clauses of the three key entries. */
  lemma TableKeyLines()
    ensures ConstraintLine(NameIndex, false) == ["INDEX index_on_" + "name" + " (" + "name" + ")"]
    ensures ConstraintLine(UsernameUnique, false) == ["UNIQUE unique_on_" + "username" + " (" + "username" + ")"]
    ensures ConstraintLine(OrderKey, false)
         == ["FOREIGN KEY fk_on_" + "order_id" + " (" + "order_id" + ") REFERENCES " + "orders" + " (id)"]
  {
    assert Join(["name"], "_and_") == "name" && Join(["username"], "_and_") == "username";
    SingleKeyLine(NameIndex);
    SingleKeyLine(UsernameUnique);
    ForeignKeyLine(OrderKey);
    IdColumnReferencesStem("order");
    assert "order" + "_id" == "order_id" && Plural("order") == "orders";
  }

  /**
   * The constraint list of the second CREATE test: the column entries' keys in column order,
   * then the keys added on their own, in the order they were added.
   */
  lemma CreateKeysExample()
    ensures Constraints(ColumnKeys + TableKeys, false)
         == ["PRIMARY KEY pk_on_id (id)",
             "FOREIGN KEY fk_on_" + "user_id" + " (" + "user_id" + ") REFERENCES " + "users" + " (id)",
             "INDEX index_on_" + "is_deleted" + " (" + "is_deleted" + ")",
             "UNIQUE INDEX unique_index_on_" + "email" + " (" + "email" + ")",
             "INDEX index_on_" + "name" + " (" + "name" + ")",
             "UNIQUE unique_on_" + "username" + " (" + "username" + ")",
             "FOREIGN KEY fk_on_" + "order_id" + " (" + "order_id" + ") REFERENCES " + "orders" + " (id)"]
  {
    ColumnKeyLines();
    TableKeyLines();
    SevenConstraints(KeyedId, KeyedUserId, IndexedDeleted, IndexedEmail, NameIndex, UsernameUnique, OrderKey,
      "PRIMARY KEY pk_on_id (id)",
      "FOREIGN KEY fk_on_" + "user_id" + " (" + "user_id" + ") REFERENCES " + "users" + " (id)",
      "INDEX index_on_" + "is_deleted" + " (" + "is_deleted" + ")",
      "UNIQUE INDEX unique_index_on_" + "email" + " (" + "email" + ")",
      "INDEX index_on_" + "name" + " (" + "name" + ")",
      "UNIQUE unique_on_" + "username" + " (" + "username" + ")",
      "FOREIGN KEY fk_on_" + "order_id" + " (" + "order_id" + ") REFERENCES " + "orders" + " (id)");
  }

  /** Four column entries and three key entries, each with one constraint clause, list those clauses in order. */
  lemma SevenConstraints(e0: Column, e1: Column, e2: Column, e3: Column, e4: Column, e5: Column, e6: Column,
                         x0: string, x1: string, x2: string, x3: string, x4: string, x5: string, x6: string)
    requires ConstraintLine(e0, false) == [x0] && ConstraintLine(e1, false) == [x1]
    requires ConstraintLine(e2, false) == [x2] && ConstraintLine(e3, false) == [x3]
    requires ConstraintLine(e4, false) == [x4] && ConstraintLine(e5, false) == [x5] && ConstraintLine(e6, false) == [x6]
    ensures Constraints([e0, e1, e2, e3] + [e4, e5, e6], false) == [x0, x1, x2, x3, x4, x5, x6]
  {
    FourConstraints([e0, e1, e2, e3], false, [x0], [x1], [x2], [x3]);
    ThreeConstraints([e4, e5, e6], false, [x4], [x5], [x6]);
    ConstraintsAppend([e0, e1, e2, e3], [e4, e5, e6], false);
    SevenSingles(x0, x1, x2, x3, x4, x5, x6);
  }

  /** Seven one-clause lists, joined, list the seven clauses. */
  lemma SevenSingles(x0: string, x1: string, x2: string, x3: string, x4: string, x5: string, x6: string)
    ensures [x0] + [x1] + [x2] + [x3] + ([x4] + [x5] + [x6]) == [x0, x1, x2, x3, x4, x5, x6]
  {
  }
}

/**
 * One entry of a table definition: the column (or the columns of a key) it names, the
 * action taken, and the type descriptor; and the text it renders as a column definition.
 */
module Columns {
  import opened Wrappers
  import opened Strings
  import opened Dialects
  import opened ColumnActions
  import opened ForeignKeys
  import opened ColumnTypes

  datatype Column = Column(names: seq<string>, action: ColumnTypeAction, columnType: ColumnType)

  /** `Column::new`: an entry naming exactly one column. */
  function New(name: string, action: ColumnTypeAction, t: ColumnType): (c: Column)
    ensures |c.names| == 1 && ColumnName(c) == name
    ensures c.action == action && c.columnType == t
  {
    Column([name], action, t)
  }

  /** The first name; reading it from an entry without names panics in the source. */
  function ColumnName(c: Column): string
    requires |c.names| > 0
  {
    c.names[0]
  }

  function PositionClause(position: Option<string>): string {
    if position.Some? then " " + position.value else ""
  }

  /** The column text reads the first name unless the action needs a definition the type does not have. */
  predicate DefinitionNeedsName(c: Column, kw: Keywords) {
    !c.action.UsesDefinition() || Definition(c.columnType, kw).Some?
  }

  /**
   * Rendering the entry never reads a missing first name: its constraint text always is
   * rendered, its column text only when `definitionRendered`.
   */
  predicate Nameable(c: Column, kw: Keywords, definitionRendered: bool) {
    (ConstraintNeedsName(c.columnType, c.action) || (definitionRendered && DefinitionNeedsName(c, kw))) ==> |c.names| > 0
  }

  /**
   * `Column::to_sql`: the name, followed by what the action says about it. Actions that
   * need the type's definition give None for the constraint-only types; renames and drops
   * never consult the type.
   */
  function ColumnSql(c: Column, kw: Keywords): (r: Option<string>)
    requires DefinitionNeedsName(c, kw) ==> |c.names| > 0
    ensures r.Some? <==> !c.action.UsesDefinition() || c.columnType.HasAttrs()
    ensures c.action.DropColumn? || c.action.DropConstraint? ==> r == Some(c.names[0])
  {
    var d := Definition(c.columnType, kw);
    match c.action
    case AddColumn(p) =>
      if d.Some? then Some(ColumnName(c) + " " + d.value + PositionClause(p)) else None
    case ModifyColumn(p) =>
      if d.Some? then Some(ColumnName(c) + " " + d.value + PositionClause(p)) else None
    case ChangeColumn(p, newName) =>
      if d.Some? then Some(ColumnName(c) + " " + newName + " " + d.value + PositionClause(p)) else None
    case RenameColumn(p, newName) => Some(ColumnName(c) + " TO " + newName + PositionClause(p))
    case AddConstraint => if d.Some? then Some(ColumnName(c) + " " + d.value) else None
    case DropColumn => Some(ColumnName(c))
    case DropConstraint => Some(ColumnName(c))
    case RenameIndex(newName) => Some(ColumnName(c) + " TO " + newName)
  }

  /** The column text starts with the name, then, where the action uses one, the definition. */
  lemma ColumnSqlShape(c: Column, kw: Keywords)
    requires DefinitionNeedsName(c, kw) ==> |c.names| > 0
    ensures var r := ColumnSql(c, kw);
      && (r.Some? ==> c.names[0] <= r.value)
      && ((c.action.AddColumn? || c.action.ModifyColumn? || c.action.AddConstraint?) && r.Some? ==>
            c.names[0] + " " + Definition(c.columnType, kw).value <= r.value)
      && (c.action.ChangeColumn? && r.Some? ==>
            c.names[0] + " " + c.action.newName + " " + Definition(c.columnType, kw).value <= r.value)
  {
    var r := ColumnSql(c, kw);
    if r.Some? {
      var d := Definition(c.columnType, kw);
      assert r.value[..|c.names[0]|] == c.names[0];
      if (c.action.AddColumn? || c.action.ModifyColumn? || c.action.AddConstraint?) {
        var p := c.names[0] + " " + d.value;
        assert r.value[..|p|] == p;
      }
      if c.action.ChangeColumn? {
        var p := c.names[0] + " " + c.action.newName + " " + d.value;
        assert r.value[..|p|] == p;
      }
    }
  }

  /** Renaming and dropping render the same text whatever the descriptor. */
  lemma RenameAndDropIgnoreType(c: Column, t: ColumnType, kw: Keywords)
    requires !c.action.UsesDefinition() && |c.names| > 0
    ensures ColumnSql(c.(columnType := t), kw) == ColumnSql(c, kw)
  {
  }

  /** The constraint-only types never give a column definition, whatever the action that would need one. */
  lemma ConstraintTypesHaveNoDefinition(c: Column, kw: Keywords)
    requires !c.columnType.HasAttrs() && c.action.UsesDefinition()
    ensures ColumnSql(c, kw) == None
  {
  }

  /** A value type's definition is its keyword followed by its clauses, in source order. */
  lemma DefinitionOfValueType(t: ColumnType, kw: Keywords)
    requires t.HasAttrs()
    ensures Definition(t, kw) == Some(TypeName(t, kw) + Modifiers(t, kw) + NullClause(t.attrs.nullable) + DefaultOf(t)
      + KeyClauses(t, kw) + CommentClause(t.attrs.comment))
  {
  }

  /** Adding a column without a position renders exactly its name, a space and its definition. */
  lemma AddColumnSql(c: Column, kw: Keywords, d: string)
    requires c.action == AddColumn(None) && Definition(c.columnType, kw) == Some(d) && |c.names| > 0
    ensures ColumnSql(c, kw) == Some(c.names[0] + " " + d)
  {
    assert PositionClause(None) == "";
    assert c.names[0] + " " + d + "" == c.names[0] + " " + d;
  }

  /** The primary-key integer of the table tests: MySQL's `INT`, not null, auto-incremented, with a comment. */
  const IdType := Integer(None, None, None, None, None, Some(true), None, Attrs(Some(false), Some("ID"), None, None, Some(true)))

  /** Its definition: the primary-key flag does not show there. */
  lemma IdDefinitionExample()
    ensures Definition(IdType, MySqlKeywords) == Some("INT" + " NOT NULL" + " AUTO_INCREMENT" + " COMMENT 'ID'")
  {
    var t, kw := IdType, MySqlKeywords;
    assert TypeName(t, kw) == "INT";
    assert Modifiers(t, kw) == "" && DefaultOf(t) == "";
    assert NullClause(t.attrs.nullable) == " NOT NULL";
    assert KeyClauses(t, kw) == " AUTO_INCREMENT";
    assert CommentClause(t.attrs.comment) == " COMMENT 'ID'";
    DefinitionOfValueType(t, kw);
    EmptyPiecesDropped("INT", " NOT NULL", " AUTO_INCREMENT", " COMMENT 'ID'");
  }

  /** Empty modifier and default pieces leave a definition's other pieces as they are. */
  lemma EmptyPiecesDropped(a: string, b: string, c: string, d: string)
    ensures a + "" + b + "" + c + d == a + b + c + d
  {
  }

  /** The same column's primary-key flag renders as the `pk_on_id` constraint. */
  lemma IdConstraintExample()
    ensures
      ConstraintSql(IdType, ["id"], AddColumn(None)) == Some("PRIMARY KEY pk_on_id (id)")
  {
    var t := IdType;
    assert IsSet(PrimaryKeyOf(t));
    assert !IsSet(UniqueOf(t)) && !IsSet(IndexOf(t));
    assert ForeignKeyOf(t).None?;
    var k := "PRIMARY KEY pk_on_" + "id" + (" (" + "id" + ")");
    assert k == "PRIMARY KEY pk_on_id (id)";
    assert PrimaryKeyPart(["id"], AddColumn(None)) == k;
    assert k + "" == k;
    assert KeyParts(t, ["id"], AddColumn(None)) == k;
  }

  /** An entry with an empty name still renders, with nothing before the space. */
  lemma EmptyNameExample()
    ensures ColumnSql(New("", ModifyColumn(None), Date(None, NoAttrs.(nullable := Some(false)))), MySqlKeywords)
         == Some(" DATE NOT NULL")
  {
    var t := Date(None, NoAttrs.(nullable := Some(false)));
    assert TypeName(t, MySqlKeywords) == "DATE";
    assert DefaultOf(t) == "";
    assert KeyClauses(t, MySqlKeywords) == "";
    assert Definition(t, MySqlKeywords) == Some("DATE" + "" + " NOT NULL" + "" + "" + "");
    assert "DATE" + "" + " NOT NULL" + "" + "" + "" == "DATE NOT NULL";
    assert "" + " " + "DATE NOT NULL" + "" == " DATE NOT NULL";
  }

  /** A unique key with its index flag set, over two columns. */
  lemma UniqueIndexExample()
    ensures ConstraintSql(Unique(Some(true), Some(true)), ["user_id", "order_id"], AddConstraint)
         == Some("UNIQUE INDEX unique_index_on_" + "user_id_and_order_id" + " (" + "user_id,order_id" + ")")
  {
    var names := ["user_id", "order_id"];
    TwoNamesJoined();
    var t := Unique(Some(true), Some(true));
    assert IsSet(UniqueOf(t)) && IsSet(IndexOf(t)) && !IsSet(PrimaryKeyOf(t)) && ForeignKeyOf(t).None?;
    var k := "UNIQUE INDEX unique_index_on_" + Join(names, "_and_") + " (" + Join(names, ",") + ")";
    assert KeyParts(t, names, AddConstraint) == "" + k;
    assert "" + k == k;
  }

  /** The example's two column names, joined for the key name and for the column list. */
  lemma TwoNamesJoined()
    ensures Join(["user_id", "order_id"], "_and_") == "user_id_and_order_id"
    ensures Join(["user_id", "order_id"], ",") == "user_id,order_id"
  {
    var names := ["user_id", "order_id"];
    assert names[1..] == ["order_id"];
    assert Join(names, "_and_") == "user_id" + "_and_" + "order_id";
    assert Join(names, ",") == "user_id" + "," + "order_id";
  }

  /** Dropping a primary key runs the drop clause into the key name. */
  lemma DropPrimaryKeyExample()
    ensures ConstraintSql(DefaultPrimaryKey, ["id"], DropConstraint) == Some("PRIMARY KEY pk_on_idDROP INDEX id")
  {
    var k := "PRIMARY KEY pk_on_" + "id" + ("DROP INDEX " + "id");
    assert k == "PRIMARY KEY pk_on_idDROP INDEX id";
    assert IsSet(PrimaryKeyOf(DefaultPrimaryKey));
    assert !IsSet(UniqueOf(DefaultPrimaryKey)) && !IsSet(IndexOf(DefaultPrimaryKey));
    assert ForeignKeyOf(DefaultPrimaryKey).None?;
    assert PrimaryKeyPart(["id"], DropConstraint) == k;
    assert k + "" == k;
    assert KeyParts(DefaultPrimaryKey, ["id"], DropConstraint) == k;
    assert ConstraintSql(DefaultPrimaryKey, ["id"], DropConstraint) == Some(k);
  }
}

/** The INSERT statement builder: one row, inline or prepared. */
module InsertManagers {
  import opened Wrappers
  import opened Strings
  import opened Json
  import opened Collectors
  import InsertStatement

  const InsertMissing := "insert table data insert value must exist"

  /**
   * `InsertManager::to_sql` for the table `table`: the row's statement, or an error when
   * no row was given.
   */
  function InsertionSql(table: string, insert: Option<InsertStatement.Insert>): (r: Result<Fragment>)
    ensures insert.None? ==> r == Err(Message(InsertMissing))
    ensures insert.Some? ==> r == InsertStatement.ToSql(table, insert.value)
  {
    match insert
    case None => Err(Message(InsertMissing))
    case Some(ins) =>
      var sql :- InsertStatement.ToSql(table, ins);
      assert "" + sql.value == sql.value;
      Ok(EmptyFragment.PushSql(sql))
  }

  class InsertManager {
    const table: string
    var insert: Option<InsertStatement.Insert>

    /** `InsertManager::default` for the table `table`. */
    constructor (table: string)
      ensures this.table == table && insert.None?
    {
      this.table := table;
      insert := None;
    }

    /** `insert`: the row, with no prepare flag; replaces any earlier row. */
    method Insert(condition: Value)
      modifies this
      ensures insert == Some(InsertStatement.New(condition, None))
    {
      insert := Some(InsertStatement.New(condition, None));
    }

    /** `insert_prepare`: the row with its literals deferred; replaces any earlier row. */
    method InsertPrepare(condition: Value)
      modifies this
      ensures insert == Some(InsertStatement.New(condition, Some(true)))
    {
      insert := Some(InsertStatement.New(condition, Some(true)));
    }

    method ToSql() returns (r: Result<Fragment>)
      ensures r == InsertionSql(table, insert)
    {
      if insert.None? {
        return Err(Message(InsertMissing));
      }
      var sql :- InsertStatement.InsertToSql(table, insert.value);
      r := Ok(EmptyFragment.PushSql(sql));
    }
  }

  /**
   * `insert_prepare` and `insert` of the same row render the same statement, and the
   * prepared text has one mark per column.
   */
  lemma InsertionPrepared(table: string, row: Value)
    requires Unmarked(table) && Plain(row)
    requires InsertionSql(table, Some(InsertStatement.New(row, Some(true)))).Ok?
    ensures InsertionSql(table, Some(InsertStatement.New(row, None))).Ok?
    ensures var prepared := InsertionSql(table, Some(InsertStatement.New(row, Some(true)))).value;
            var inline := InsertionSql(table, Some(InsertStatement.New(row, None))).value;
            Agree(prepared, inline) && inline.prepare.None? &&
            Render(prepared) == Render(inline) == Ok(inline.value) &&
            Marks(prepared.value) == |row.entries|
  {
    var ins := InsertStatement.New(row, Some(true));
    InsertStatement.InsertPrepared(table, ins);
    assert ins.(prepare := None) == InsertStatement.New(row, None);
    var prepared := InsertionSql(table, Some(ins)).value;
    var inline := InsertionSql(table, Some(InsertStatement.New(row, None))).value;
    AgreeRender(prepared, inline);
    DenotesRender(inline, Literal(inline));
    UnmarkedHasNoMarks(inline.value);
  }
}

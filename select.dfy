/** The SELECT clause: the projection and the table it reads from. */
module SelectStatement {
  import opened Wrappers
  import opened Strings
  import opened Collectors

  datatype Select = Select(columns: Option<seq<string>>, distinct: Option<bool>)

  const Default := Select(None, None)

  /** What is selected: the columns joined by commas, or every column. */
  function Projection(s: Select): string {
    match s.columns
    case Some(columns) => Join(columns, ",") + " "
    case None => "* "
  }

  /**
   * `Select::to_sql` for the table `table`: `SELECT [DISTINCT ]<projection> FROM t`.
   * It never fails and defers nothing.
   */
  function ToSql(table: string, s: Select): (r: Result<Fragment>)
    ensures r.Ok? && r.value.prepare.None?
    ensures r.value.value == "SELECT " + (if IsSet(s.distinct) then "DISTINCT " else "") + Projection(s) + "FROM " + table
  {
    var sql := EmptyFragment.PushValue("SELECT ");
    var sql := if IsSet(s.distinct) then sql.PushValue("DISTINCT ") else sql;
    var sql := match s.columns
      case Some(columns) => sql.PushValue(Join(columns, ",")).Push(' ')
      case None => sql.PushValue("* ");
    Ok(sql.PushValue("FROM " + table))
  }

  /** Neither the table nor any column holds a `?`. */
  predicate Plain(table: string, s: Select) {
    Unmarked(table) && (s.columns.Some? ==> forall i :: 0 <= i < |s.columns.value| ==> Unmarked(s.columns.value[i]))
  }

  lemma SelectUnmarked(table: string, s: Select)
    requires Plain(table, s)
    ensures Unmarked(ToSql(table, s).value.value)
  {
    var d := if IsSet(s.distinct) then "DISTINCT " else "";
    assert Unmarked("SELECT ") && Unmarked(d) && Unmarked(" ") && Unmarked("* ") && Unmarked("FROM ");
    if s.columns.Some? {
      JoinUnmarked(s.columns.value, ",");
      UnmarkedConcat(Join(s.columns.value, ","), " ");
    }
    UnmarkedConcat("SELECT ", d);
    UnmarkedConcat("SELECT " + d, Projection(s));
    UnmarkedConcat("FROM ", table);
    UnmarkedConcat("SELECT " + d + Projection(s), "FROM " + table);
    assert "SELECT " + d + Projection(s) + ("FROM " + table) == ToSql(table, s).value.value;
  }
}

/**
 * The INSERT statement: one row given as a JSON object, its keys as the column list
 * and their literals (or `?` marks with deferred literals) as the value list.
 */
module InsertStatement {
  import opened Wrappers
  import opened Strings
  import opened Json
  import opened Methods
  import opened Collectors

  datatype Insert = Insert(value: Option<Value>, prepare: Option<bool>)

  /** `Insert::new`: the row and the prepare flag. */
  function New(condition: Value, prepare: Option<bool>): Insert {
    Insert(Some(condition), prepare)
  }

  /** What stands for each literal in the text: a `?` in prepare mode, the literal otherwise. */
  function Cells(prepare: bool, vals: seq<string>): (r: seq<string>)
    ensures |r| == |vals|
    ensures forall i :: 0 <= i < |vals| ==> r[i] == if prepare then "?" else vals[i]
  {
    if prepare then Repeat("?", |vals|) else vals
  }

  /** The deferred list: the literals in prepare mode, once there is at least one. */
  function Deferred(prepare: bool, vals: seq<string>): (r: Option<seq<string>>)
    ensures r.GetOr([]) == if prepare then vals else []
  {
    if prepare && |vals| > 0 then Some(vals) else None
  }

  /** Error text for a row that is not an object, which names the value in its `{:?}` form. */
  function Rejected(v: Value): string {
    "Error: Insert Value " + Debug(v) + " Not Support"
  }

  function Header(table: string): string {
    "INSERT INTO " + table
  }

  /**
   * `Insert::to_sql` for the table `table`: `INSERT INTO t (k1, k2) VALUES (v1, v2)` with
   * the keys in iteration order; without a row only the header; a row that is not an
   * object, or holds a list or an object, is refused.
   */
  function ToSql(table: string, ins: Insert): (r: Result<Fragment>)
    ensures ins.value.None? ==> r == Ok(Fragment(Header(table), None))
    ensures ins.value.Some? ==>
              (r.Ok? <==> ins.value.value.Object? &&
                          forall i :: 0 <= i < |ins.value.value.entries| ==> ins.value.value.entries[i].1.IsScalar())
    ensures ins.value.Some? && !ins.value.value.Object? ==> r == Err(Message(Rejected(ins.value.value)))
    ensures ins.value.Some? && ins.value.value.Object? && r.Err? ==>
              r.error == StringifyAll(Values(ins.value.value.entries)).error
    ensures r.Ok? && ins.value.Some? && IsSet(ins.prepare) ==>
              r.value.Params() == StringifyAll(Values(ins.value.value.entries)).value
    ensures r.Ok? && !IsSet(ins.prepare) ==> r.value.prepare.None?
  {
    match ins.value
    case None => Ok(Fragment(Header(table), None))
    case Some(Object(entries)) =>
      var vals :- StringifyAll(Values(entries));
      var p := IsSet(ins.prepare);
      Ok(Fragment(Header(table) + " (" + Join(Keys(entries), ", ") + ") VALUES (" + Join(Cells(p, vals), ", ") + ")",
                  Deferred(p, vals)))
    case Some(v) => Err(Message(Rejected(v)))
  }

  /** The column list loop: names separated by `, `. */
  method PushColumns(sql: Fragment, names: seq<string>) returns (r: Fragment)
    ensures r == sql.PushValue(Join(names, ", "))
  {
    r := sql;
    var idx := 0;
    while idx < |names|
      invariant 0 <= idx <= |names|
      invariant r == sql.PushValue(Join(names[..idx], ", "))
    {
      JoinPrefix(names, idx, ", ");
      if idx > 0 {
        r := r.PushValue(", ");
      }
      r := r.PushValue(names[idx]);
      idx := idx + 1;
    }
    assert names[..idx] == names;
  }

  /** The value list loop: each literal, or a `?` with the literal deferred, separated by `, `. */
  method PushCells(sql: Fragment, prepare: bool, vals: seq<string>) returns (r: Fragment)
    requires sql.prepare.None?
    ensures r == Fragment(sql.value + Join(Cells(prepare, vals), ", "), Deferred(prepare, vals))
  {
    r := sql;
    var idx := 0;
    while idx < |vals|
      invariant 0 <= idx <= |vals|
      invariant r == Fragment(sql.value + Join(Cells(prepare, vals[..idx]), ", "), Deferred(prepare, vals[..idx]))
    {
      var cells := Cells(prepare, vals[..idx + 1]);
      assert cells == Cells(prepare, vals[..idx]) + [cells[idx]];
      assert vals[..idx + 1] == vals[..idx] + [vals[idx]];
      if idx > 0 {
        JoinSnoc(Cells(prepare, vals[..idx]), cells[idx], ", ");
        r := r.PushValue(", ");
      }
      if prepare {
        r := r.PushValueWithPrepareValue("?", vals[idx]);
      } else {
        r := r.PushValue(vals[idx]);
      }
      idx := idx + 1;
    }
    assert vals[..idx] == vals;
  }

  /** `Insert::to_sql`, step by step as the source builds it. */
  method InsertToSql(table: string, ins: Insert) returns (r: Result<Fragment>)
    ensures r == ToSql(table, ins)
  {
    var sql := Fragment(Header(table), None);
    if ins.value.None? {
      return Ok(sql);
    }
    var row := ins.value.value;
    if !row.Object? {
      return Err(Message(Rejected(row)));
    }
    var vals :- StringifyEach(Values(row.entries));
    sql := sql.PushValue(" (");
    sql := PushColumns(sql, Keys(row.entries));
    sql := sql.PushValue(") VALUES (");
    sql := PushCells(sql, IsSet(ins.prepare), vals);
    sql := sql.Push(')');
    r := Ok(sql);
  }

  /** A value list of `?` marks agrees with the list of the literals it defers. */
  lemma CellsPrepared(open: string, vals: seq<string>)
    requires Unmarked(open) && forall i :: 0 <= i < |vals| ==> Unmarked(vals[i])
    ensures var inline := Fragment(open + Join(Cells(false, vals), ", ") + ")", None);
            Agree(Fragment(open + Join(Cells(true, vals), ", ") + ")", Deferred(true, vals)), inline) &&
            Agree(inline, inline)
    ensures Marks(open + Join(Cells(true, vals), ", ") + ")") == |vals|
  {
    JoinUnmarked(vals, ", ");
    AgreePlain(open + Join(vals, ", ") + ")");
    FillPlaceholders(vals, ", ");
    Sandwich(open, Placeholders(|vals|, ", "), ")", vals);
  }

  /**
   * A prepared insert renders to the same string as the same insert with its literals
   * inline, which defers nothing; it holds exactly one `?` per column.
   */
  lemma InsertPrepared(table: string, ins: Insert)
    requires ToSql(table, ins).Ok? && Unmarked(table)
    requires ins.value.Some? ==> Plain(ins.value.value)
    ensures ToSql(table, ins.(prepare := None)).Ok?
    ensures ToSql(table, ins.(prepare := None)).value.prepare.None?
    ensures Agree(ToSql(table, ins).value, ToSql(table, ins.(prepare := None)).value)
    ensures ins.value.Some? && IsSet(ins.prepare) ==>
              Marks(ToSql(table, ins).value.value) == |ins.value.value.entries|
  {
    if ins.value.None? {
      AgreePlain(Header(table));
    } else {
      var entries := ins.value.value.entries;
      var names := Keys(entries);
      var vals := StringifyAll(Values(entries)).value;
      StringifyAllUnmarked(Values(entries));
      JoinUnmarked(names, ", ");
      var open := Header(table) + " (" + Join(names, ", ") + ") VALUES (";
      CellsPrepared(open, vals);
    }
  }

  /** A row that is not an object is refused, the message naming it in its `{:?}` form. */
  lemma RefusedRowExample()
    ensures ToSql("users", New(Str("x"), None)) == Err(Message("Error: Insert Value " + "String(\"x\")" + " Not Support"))
  {
    DebugScalarExamples();
  }

  /** The row of the crate's INSERT and UPDATE tests, with the boolean column set to `b`. */
  function SampleRow(b: bool): seq<(string, Value)> {
    [("a", Number("1")), ("b", Bool(b)), ("c", Null), ("d", Str("desc"))]
  }

  /** The row's literals: the number as written, the boolean as a digit, null, the quoted string. */
  lemma SampleLiterals(b: bool)
    ensures Keys(SampleRow(b)) == ["a", "b", "c", "d"]
    ensures StringifyAll(Values(SampleRow(b))) == Ok(["1", if b then "1" else "0", "null", "'desc'"])
  {
    var vs := Values(SampleRow(b));
    assert Text(Number("1")) == "1";
    assert "'" + "desc" + "'" == "'desc'";
    assert forall i :: 0 <= i < |vs| ==> vs[i].IsScalar();
    var r := StringifyAll(vs).value;
    assert |r| == 4 && r[0] == "1" && r[1] == (if b then "1" else "0") && r[2] == "null" && r[3] == "'desc'";
    assert r == ["1", if b then "1" else "0", "null", "'desc'"];
  }

  lemma SampleGlue()
    ensures "INSERT INTO " + "users" == "INSERT INTO users"
    ensures "a" + ", " + "b" + ", " + "c" + ", " + "d" == "a, b, c, d"
    ensures "1" + ", " + "0" + ", " + "null" + ", " + "'desc'" == "1, 0, null, 'desc'"
    ensures "?" + ", " + "?" + ", " + "?" + ", " + "?" == "?, ?, ?, ?"
  {
  }

  /**
   * insert.rs:72-84: the row renders its keys in order and its literals inline; in prepare
   * mode each literal becomes a `?` and is deferred in the same order.
   */
  lemma SampleExample()
    ensures ToSql("users", Insert(Some(Object(SampleRow(false))), None))
         == Ok(Fragment("INSERT INTO users" + " (" + "a, b, c, d" + ") VALUES (" + "1, 0, null, 'desc'" + ")", None))
    ensures ToSql("users", Insert(Some(Object(SampleRow(false))), Some(true)))
         == Ok(Fragment("INSERT INTO users" + " (" + "a, b, c, d" + ") VALUES (" + "?, ?, ?, ?" + ")",
                        Some(["1", "0", "null", "'desc'"])))
  {
    SampleLiterals(false);
    SampleGlue();
    JoinFour("a", "b", "c", "d", ", ");
    JoinFour("1", "0", "null", "'desc'", ", ");
    JoinFour("?", "?", "?", "?", ", ");
    assert Cells(true, ["1", "0", "null", "'desc'"]) == ["?", "?", "?", "?"];
  }
}

/**
 * The SET part of an UPDATE statement: a JSON object whose entries become
 * `column = literal` assignments (or `column = ?` with the literal deferred).
 */
module UpdateStatement {
  import opened Wrappers
  import opened Strings
  import opened Json
  import opened Methods
  import opened Collectors
  import InsertStatement

  datatype Update = Update(value: Option<Value>, prepare: Option<bool>)

  /** `Update::new`: the assignments and the prepare flag. */
  function New(condition: Value, prepare: Option<bool>): Update {
    Update(Some(condition), prepare)
  }

  /** Error text for assignments that are not an object, which names the value in its `{:?}` form. */
  function Rejected(v: Value): string {
    "Error: Update Value " + Debug(v) + " Not Support"
  }

  function Header(table: string): string {
    "UPDATE " + table + " SET"
  }

  /** The left-hand side of each assignment. */
  function Targets(names: seq<string>): (r: seq<string>)
    ensures |r| == |names| && forall i :: 0 <= i < |names| ==> r[i] == names[i] + " = "
  {
    seq(|names|, i requires 0 <= i < |names| => names[i] + " = ")
  }

  /** The assignments `k = cell`, in key order, where the cell is a literal or a `?`. */
  function Assignments(names: seq<string>, prepare: bool, vals: seq<string>): (r: seq<string>)
    requires |names| == |vals|
    ensures |r| == |names|
    ensures forall i :: 0 <= i < |names| ==>
              r[i] == names[i] + " = " + (if prepare then "?" else vals[i])
  {
    Affix(Targets(names), InsertStatement.Cells(prepare, vals))
  }

  /**
   * `Update::to_sql` for the table `table`: `UPDATE t SET k1 = v1, k2 = v2`; without
   * assignments only the header; assignments that are not an object, or hold a list or an
   * object, are refused.
   */
  function ToSql(table: string, upd: Update): (r: Result<Fragment>)
    ensures upd.value.None? ==> r == Ok(Fragment(Header(table), None))
    ensures upd.value.Some? ==>
              (r.Ok? <==> upd.value.value.Object? &&
                          forall i :: 0 <= i < |upd.value.value.entries| ==> upd.value.value.entries[i].1.IsScalar())
    ensures upd.value.Some? && !upd.value.value.Object? ==> r == Err(Message(Rejected(upd.value.value)))
    ensures upd.value.Some? && upd.value.value.Object? && r.Err? ==>
              r.error == StringifyAll(Values(upd.value.value.entries)).error
    ensures r.Ok? && upd.value.Some? && IsSet(upd.prepare) ==>
              r.value.Params() == StringifyAll(Values(upd.value.value.entries)).value
    ensures r.Ok? && !IsSet(upd.prepare) ==> r.value.prepare.None?
  {
    match upd.value
    case None => Ok(Fragment(Header(table), None))
    case Some(Object(entries)) =>
      var vals :- StringifyAll(Values(entries));
      var p := IsSet(upd.prepare);
      Ok(Fragment(Header(table) + " " + Join(Assignments(Keys(entries), p, vals), ", "),
                  InsertStatement.Deferred(p, vals)))
    case Some(v) => Err(Message(Rejected(v)))
  }

  /** One more assignment extends the joined text by a separator and that assignment. */
  lemma AssignmentsSnoc(names: seq<string>, prepare: bool, vals: seq<string>, idx: nat)
    requires |names| == |vals| && idx < |names|
    ensures Join(Assignments(names[..idx + 1], prepare, vals[..idx + 1]), ", ") ==
              (if idx == 0 then "" else Join(Assignments(names[..idx], prepare, vals[..idx]), ", ") + ", ") +
              (names[idx] + " = ") + (if prepare then "?" else vals[idx])
  {
    var longer := Assignments(names[..idx + 1], prepare, vals[..idx + 1]);
    var shorter := Assignments(names[..idx], prepare, vals[..idx]);
    assert longer == shorter + [longer[idx]];
    if idx > 0 {
      JoinSnoc(shorter, longer[idx], ", ");
    }
  }

  lemma AppendStep(base: string, joined: string, sep: string, target: string, cell: string)
    ensures base + joined + sep + target + cell == base + (joined + sep + target + cell)
  {
  }

  /** The assignment loop: `k = ` then the literal, or `?` with the literal deferred. */
  method PushAssignments(sql: Fragment, names: seq<string>, prepare: bool, vals: seq<string>) returns (r: Fragment)
    requires sql.prepare.None? && |names| == |vals|
    ensures r == Fragment(sql.value + Join(Assignments(names, prepare, vals), ", "),
                          InsertStatement.Deferred(prepare, vals))
  {
    r := sql;
    var idx := 0;
    while idx < |names|
      invariant 0 <= idx <= |names|
      invariant r.value == sql.value + Join(Assignments(names[..idx], prepare, vals[..idx]), ", ")
      invariant r.prepare == InsertStatement.Deferred(prepare, vals[..idx])
    {
      assert vals[..idx + 1] == vals[..idx] + [vals[idx]];
      AssignmentsSnoc(names, prepare, vals, idx);
      ghost var joined := Join(Assignments(names[..idx], prepare, vals[..idx]), ", ");
      ghost var cell := if prepare then "?" else vals[idx];
      ghost var before := r.value;
      if idx > 0 {
        r := r.PushValue(", ");
      }
      r := r.PushValue(names[idx] + " = ");
      if prepare {
        r := r.PushValueWithPrepareValue("?", vals[idx]);
      } else {
        r := r.PushValue(vals[idx]);
      }
      AppendStep(sql.value, joined, if idx == 0 then "" else ", ", names[idx] + " = ", cell);
      idx := idx + 1;
    }
    assert names[..idx] == names && vals[..idx] == vals;
  }

  /** `Update::to_sql`, step by step as the source builds it. */
  method UpdateToSql(table: string, upd: Update) returns (r: Result<Fragment>)
    ensures r == ToSql(table, upd)
  {
    var sql := Fragment(Header(table), None);
    if upd.value.None? {
      return Ok(sql);
    }
    var row := upd.value.value;
    if !row.Object? {
      return Err(Message(Rejected(row)));
    }
    var vals :- StringifyEach(Values(row.entries));
    sql := sql.PushValue(" ");
    sql := PushAssignments(sql, Keys(row.entries), IsSet(upd.prepare), vals);
    r := Ok(sql);
  }

  /** Prepared assignments agree with the assignments of the literals they defer. */
  lemma AssignmentsPrepared(open: string, names: seq<string>, vals: seq<string>)
    requires |names| == |vals| && Unmarked(open)
    requires forall i :: 0 <= i < |names| ==> Unmarked(names[i]) && Unmarked(vals[i])
    ensures var inline := Fragment(open + Join(Assignments(names, false, vals), ", "), None);
            Agree(Fragment(open + Join(Assignments(names, true, vals), ", "), InsertStatement.Deferred(true, vals)), inline) &&
            Agree(inline, inline)
    ensures Marks(open + Join(Assignments(names, true, vals), ", ")) == |vals|
  {
    var targets := Targets(names);
    assert Assignments(names, true, vals) == Affix(targets, Repeat("?", |vals|));
    assert Assignments(names, false, vals) == Affix(targets, vals);
    assert forall i :: 0 <= i < |Affix(targets, vals)| ==> Unmarked(Affix(targets, vals)[i]);
    JoinUnmarked(Affix(targets, vals), ", ");
    AgreePlain(open + Join(Affix(targets, vals), ", "));
    FillAffixed(targets, vals, ", ");
    Sandwich(open, Join(Affix(targets, Repeat("?", |vals|)), ", "), "", vals);
    assert open + Join(Affix(targets, Repeat("?", |vals|)), ", ") + "" == open + Join(Affix(targets, Repeat("?", |vals|)), ", ");
    assert open + Join(Affix(targets, vals), ", ") + "" == open + Join(Affix(targets, vals), ", ");
  }

  /**
   * A prepared update renders to the same string as the same update with its literals
   * inline, which defers nothing; it holds exactly one `?` per assigned column.
   */
  lemma UpdatePrepared(table: string, upd: Update)
    requires ToSql(table, upd).Ok? && Unmarked(table)
    requires upd.value.Some? ==> Plain(upd.value.value)
    ensures ToSql(table, upd.(prepare := None)).Ok?
    ensures ToSql(table, upd.(prepare := None)).value.prepare.None?
    ensures Agree(ToSql(table, upd).value, ToSql(table, upd.(prepare := None)).value)
    ensures upd.value.Some? && IsSet(upd.prepare) ==>
              Marks(ToSql(table, upd).value.value) == |upd.value.value.entries|
  {
    if upd.value.None? {
      AgreePlain(Header(table));
    } else {
      var entries := upd.value.value.entries;
      var vals := StringifyAll(Values(entries)).value;
      StringifyAllUnmarked(Values(entries));
      AssignmentsPrepared(Header(table) + " ", Keys(entries), vals);
    }
  }

  /** A row that is not an object is refused, the message naming it in its `{:?}` form. */
  lemma RefusedRowExample()
    ensures ToSql("users", New(Number("1"), None)) == Err(Message("Error: Update Value " + "Number(1)" + " Not Support"))
  {
    DebugScalarExamples();
  }

  lemma SampleGlue(t: string)
    ensures "UPDATE " + "users" + " SET" == "UPDATE users SET"
    ensures "a" + " = " + "1" == "a = 1" && "b" + " = " + t == "b = " + t
    ensures "c" + " = " + "null" == "c = null" && "d" + " = " + "'desc'" == "d = 'desc'"
    ensures "a" + " = " + "?" == "a = ?" && "b" + " = " + "?" == "b = ?"
    ensures "c" + " = " + "?" == "c = ?" && "d" + " = " + "?" == "d = ?"
  {
  }

  /**
   * The assignments of the crate's sample row, with the boolean column set to `b`: each
   * column takes its literal.
   */
  lemma SampleAssignments(b: bool)
    ensures ToSql("users", Update(Some(Object(InsertStatement.SampleRow(b))), None))
         == Ok(Fragment("UPDATE users SET" + " " + ("a = 1" + ", " + ("b = " + (if b then "1" else "0")) + ", " + "c = null" + ", " + "d = 'desc'"), None))
  {
    var t := if b then "1" else "0";
    InsertStatement.SampleLiterals(b);
    SampleGlue(t);
    var inline := Assignments(["a", "b", "c", "d"], false, ["1", t, "null", "'desc'"]);
    assert inline == ["a = 1", "b = " + t, "c = null", "d = 'desc'"];
    JoinFour(inline[0], inline[1], inline[2], inline[3], ", ");
  }

  /** In prepare mode each column takes a `?`, and the literals are deferred in column order. */
  lemma SampleMarks(b: bool)
    ensures ToSql("users", Update(Some(Object(InsertStatement.SampleRow(b))), Some(true)))
         == Ok(Fragment("UPDATE users SET" + " " + ("a = ?" + ", " + "b = ?" + ", " + "c = ?" + ", " + "d = ?"),
                        Some(["1", if b then "1" else "0", "null", "'desc'"])))
  {
    var t := if b then "1" else "0";
    InsertStatement.SampleLiterals(b);
    SampleGlue(t);
    var marked := Assignments(["a", "b", "c", "d"], true, ["1", t, "null", "'desc'"]);
    assert marked == ["a = ?", "b = ?", "c = ?", "d = ?"];
    JoinFour(marked[0], marked[1], marked[2], marked[3], ", ");
  }

  /** update.rs:64-78: the sample row as assignments, inline and in prepare mode. */
  lemma SampleExample()
    ensures ToSql("users", Update(Some(Object(InsertStatement.SampleRow(false))), None))
         == Ok(Fragment("UPDATE users SET" + " " + ("a = 1" + ", " + "b = 0" + ", " + "c = null" + ", " + "d = 'desc'"), None))
    ensures ToSql("users", Update(Some(Object(InsertStatement.SampleRow(false))), Some(true))).value.value
         == "UPDATE users SET" + " " + ("a = ?" + ", " + "b = ?" + ", " + "c = ?" + ", " + "d = ?")
  {
    SampleAssignments(false);
    SampleMarks(false);
    assert "b = " + "0" == "b = 0";
  }
}

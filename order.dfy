/**
 * An ORDER BY item: raw SQL, a list of items joined by commas, or an object mapping
 * columns to their direction.
 */
module OrderStatement {
  import opened Wrappers
  import opened Strings
  import opened Json
  import opened Collectors

  datatype Order = Order(value: Option<Value>)

  /** `Order::new`. */
  function New(condition: Value): Order {
    Order(Some(condition))
  }

  /** The directions of an object are read with `as_str().unwrap()`: anything but a string panics. */
  predicate Valid(o: Order) {
    o.value.Some? && o.value.value.Object? ==>
      forall i :: 0 <= i < |o.value.value.entries| ==> o.value.value.entries[i].1.Str?
  }

  /** A list item: a string as it is, anything else as its JSON text. */
  function Item(v: Value): (r: string)
    ensures v.Str? ==> r == v.s
    ensures !v.Str? ==> r == Text(v)
  {
    if v.Str? then v.s else Text(v)
  }

  function Items(items: seq<Value>): (r: seq<string>)
    ensures |r| == |items| && forall i :: 0 <= i < |items| ==> r[i] == Item(items[i])
  {
    seq(|items|, i requires 0 <= i < |items| => Item(items[i]))
  }

  /** `column direction` for each entry of a direction object. */
  function Clauses(entries: seq<(string, Value)>): (r: seq<string>)
    requires forall i :: 0 <= i < |entries| ==> entries[i].1.Str?
    ensures |r| == |entries| && forall i :: 0 <= i < |entries| ==> r[i] == entries[i].0 + " " + entries[i].1.s
  {
    seq(|entries|, i requires 0 <= i < |entries| => entries[i].0 + " " + entries[i].1.s)
  }

  /** Error text for an ordering that is neither text, a list nor an object: the optional value in its `{:?}` form. */
  function Rejected(v: Value): string {
    "Error: Value " + DebugSome(v) + " Type Not Support"
  }

  /**
   * `Order::to_sql` as the source writes it: the clauses of a direction object are
   * appended one after the other with nothing between them.
   */
  function ToSqlAsWritten(o: Order): (r: Result<Fragment>)
    requires Valid(o)
  {
    match o.value
    case None => Ok(EmptyFragment)
    case Some(Object(entries)) => Ok(Fragment(Join(Clauses(entries), ""), None))
    case Some(Array(items)) => Ok(Fragment(Join(Items(items), ","), None))
    case Some(Str(s)) => Ok(Fragment(s, None))
    case Some(v) => Err(Message(Rejected(v)))
  }

  /**
   * `Order::to_sql` with the clauses of a direction object separated by commas, as the
   * list form and the managers separate ordering items.
   */
  function ToSql(o: Order): (r: Result<Fragment>)
    requires Valid(o)
    ensures r.Ok? <==> o.value.None? || o.value.value.Object? || o.value.value.Array? || o.value.value.Str?
    ensures r.Ok? ==> r.value.prepare.None?
    ensures o.value.None? ==> r == Ok(EmptyFragment)
    ensures o.value.Some? && o.value.value.Str? ==> r == Ok(Fragment(o.value.value.s, None))
    ensures o.value.Some? && o.value.value.Array? ==> r == Ok(Fragment(Join(Items(o.value.value.items), ","), None))
    ensures o.value.Some? && o.value.value.Object? ==> r == Ok(Fragment(Join(Clauses(o.value.value.entries), ","), None))
    ensures r.Err? ==> r == Err(Message(Rejected(o.value.value)))
  {
    match o.value
    case None => Ok(EmptyFragment)
    case Some(Object(entries)) => Ok(Fragment(Join(Clauses(entries), ","), None))
    case Some(Array(items)) => Ok(Fragment(Join(Items(items), ","), None))
    case Some(Str(s)) => Ok(Fragment(s, None))
    case Some(v) => Err(Message(Rejected(v)))
  }

  /** The direction-object loop, with a comma before every clause but the first. */
  method ClausesToSql(entries: seq<(string, Value)>) returns (sql: Fragment)
    requires forall i :: 0 <= i < |entries| ==> entries[i].1.Str?
    ensures sql == Fragment(Join(Clauses(entries), ","), None)
  {
    var clauses := Clauses(entries);
    sql := EmptyFragment;
    var idx := 0;
    while idx < |entries|
      invariant 0 <= idx <= |entries|
      invariant sql == Fragment(Join(clauses[..idx], ","), None)
    {
      JoinPrefix(clauses, idx, ",");
      if idx > 0 {
        sql := sql.Push(',');
      }
      sql := sql.PushValue(entries[idx].0);
      sql := sql.Push(' ').PushValue(entries[idx].1.s);
      assert sql.value == Join(clauses[..idx], ",") + (if idx > 0 then "," else "") + (entries[idx].0 + " " + entries[idx].1.s);
      idx := idx + 1;
    }
    assert clauses[..idx] == clauses;
  }

  method OrderToSql(o: Order) returns (r: Result<Fragment>)
    requires Valid(o)
    ensures r == ToSql(o)
  {
    match o.value {
      case None =>
        r := Ok(EmptyFragment);
      case Some(Object(entries)) =>
        var sql := ClausesToSql(entries);
        r := Ok(sql);
      case Some(Array(items)) =>
        r := Ok(Fragment(Join(Items(items), ","), None));
      case Some(Str(s)) =>
        r := Ok(Fragment(s, None));
      case Some(v) =>
        r := Err(Message(Rejected(v)));
    }
  }

  /** With two keys the source runs the clauses together: `a ascb desc`. */
  lemma ObjectClausesRunTogether()
    ensures var o := New(Object([("a", Str("asc")), ("b", Str("desc"))]));
            ToSqlAsWritten(o) == Ok(Fragment("a ascb desc", None)) &&
            ToSql(o) == Ok(Fragment("a asc,b desc", None))
  {
    var entries := [("a", Str("asc")), ("b", Str("desc"))];
    var cs := Clauses(entries);
    assert cs[0] == "a" + " " + "asc" == "a asc";
    assert cs[1] == "b" + " " + "desc" == "b desc";
    assert cs == ["a asc", "b desc"];
    assert cs[1..] == ["b desc"];
    assert Join(cs, "") == "a asc" + "" + "b desc" == "a ascb desc";
    assert Join(cs, ",") == "a asc" + "," + "b desc" == "a asc,b desc";
  }

  /** A direction object with at most one key is rendered alike either way. */
  lemma SingleKeyUnaffected(o: Order)
    requires Valid(o) && o.value.Some? && o.value.value.Object? && |o.value.value.entries| <= 1
    ensures ToSqlAsWritten(o) == ToSql(o)
  {
  }

  /**
   * Splitting a direction object in two and ordering by each part in turn, which the
   * managers join with a comma, gives the same clause.
   */
  lemma {:induction false} ObjectSplit(front: seq<(string, Value)>, back: seq<(string, Value)>)
    requires |front| > 0 && |back| > 0
    requires forall i :: 0 <= i < |front| ==> front[i].1.Str?
    requires forall i :: 0 <= i < |back| ==> back[i].1.Str?
    ensures Valid(New(Object(front))) && Valid(New(Object(back))) && Valid(New(Object(front + back)))
    ensures ToSql(New(Object(front + back))).value.value ==
              ToSql(New(Object(front))).value.value + "," + ToSql(New(Object(back))).value.value
    decreases |front|
  {
    assert Clauses(front + back) == Clauses(front) + Clauses(back);
    JoinAppend(Clauses(front), Clauses(back), ",");
  }

  /** A list split in two orders like its two halves joined by a comma. */
  lemma ListSplit(front: seq<Value>, back: seq<Value>)
    requires |front| > 0 && |back| > 0
    ensures ToSql(New(Array(front + back))).value.value ==
              ToSql(New(Array(front))).value.value + "," + ToSql(New(Array(back))).value.value
  {
    assert Items(front + back) == Items(front) + Items(back);
    JoinAppend(Items(front), Items(back), ",");
  }

  /** A number is refused, the message naming the optional value as `Some(Number(1))`. */
  lemma RefusedNumberExample()
    ensures ToSql(New(Number("1"))) == Err(Message("Error: Value " + "Some(Number(1))" + " Type Not Support"))
  {
    DebugScalarExamples();
  }
}

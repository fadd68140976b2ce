/** A GROUP BY item: raw SQL, or a list of column names joined by commas. */
module GroupStatement {
  import opened Wrappers
  import opened Strings
  import opened Json
  import opened Collectors

  datatype Group = Group(value: Option<Value>)

  /** `Group::new`. */
  function New(condition: Value): Group {
    Group(Some(condition))
  }

  /** List elements are read with `as_str().unwrap()`: anything but a string panics. */
  predicate Valid(g: Group) {
    g.value.Some? && g.value.value.Array? ==>
      forall i :: 0 <= i < |g.value.value.items| ==> g.value.value.items[i].Str?
  }

  function Names(items: seq<Value>): (r: seq<string>)
    requires forall i :: 0 <= i < |items| ==> items[i].Str?
    ensures |r| == |items| && forall i :: 0 <= i < |items| ==> r[i] == items[i].s
  {
    seq(|items|, i requires 0 <= i < |items| => items[i].s)
  }

  /** Error text for a grouping that is neither text nor a list: the optional value in its `{:?}` form. */
  function Rejected(v: Value): string {
    "Error: Value " + DebugSome(v) + " Type Not Support!"
  }

  /**
   * `Group::to_sql`: a list gives its names joined by commas, a string is kept as it is,
   * no value gives nothing, and any other value is refused.
   */
  function ToSql(g: Group): (r: Result<Fragment>)
    requires Valid(g)
    ensures r.Ok? <==> g.value.None? || g.value.value.Array? || g.value.value.Str?
    ensures r.Ok? ==> r.value.prepare.None?
    ensures g.value.None? ==> r == Ok(EmptyFragment)
    ensures g.value.Some? && g.value.value.Str? ==> r == Ok(Fragment(g.value.value.s, None))
    ensures g.value.Some? && g.value.value.Array? ==> r == Ok(Fragment(Join(Names(g.value.value.items), ","), None))
    ensures r.Err? ==> r == Err(Message(Rejected(g.value.value)))
  {
    match g.value
    case None => Ok(EmptyFragment)
    case Some(Array(items)) => Ok(Fragment(Join(Names(items), ","), None))
    case Some(Str(s)) => Ok(Fragment(s, None))
    case Some(v) => Err(Message(Rejected(v)))
  }

  /**
   * Grouping by a list split in two, as two items of the manager (which joins them with
   * a comma), gives the same clause as grouping by the whole list.
   */
  lemma ListSplit(front: seq<Value>, back: seq<Value>)
    requires |front| > 0 && |back| > 0
    requires forall i :: 0 <= i < |front| ==> front[i].Str?
    requires forall i :: 0 <= i < |back| ==> back[i].Str?
    ensures Valid(New(Array(front))) && Valid(New(Array(back))) && Valid(New(Array(front + back)))
    ensures ToSql(New(Array(front + back))).value.value ==
              ToSql(New(Array(front))).value.value + "," + ToSql(New(Array(back))).value.value
  {
    assert Names(front + back) == Names(front) + Names(back);
    JoinAppend(Names(front), Names(back), ",");
  }

  /** Grouping by a one-name list is grouping by that name as text. */
  lemma SingletonList(name: string)
    ensures ToSql(New(Array([Str(name)]))) == ToSql(New(Str(name)))
  {
    assert Names([Str(name)]) == [name];
  }

  /** A boolean is refused, the message naming the optional value as `Some(Bool(true))`. */
  lemma RefusedBoolExample()
    ensures ToSql(New(Bool(true))) == Err(Message("Error: Value " + "Some(Bool(true))" + " Type Not Support!"))
  {
    DebugScalarExamples();
    assert "Some(" + "Bool(true)" + ")" == "Some(Bool(true))";
  }
}

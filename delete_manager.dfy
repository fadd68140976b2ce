/** The DELETE statement builder: conditions (mandatory), ORDER BY items, a limit and an offset. */
module DeleteManagers {
  import opened Wrappers
  import opened Strings
  import opened Json
  import opened Collectors
  import opened Clauses
  import opened Methods
  import W = WhereStatement
  import OrderStatement
  import LimitStatement
  import OffsetStatement

  /** Everything a delete manager has collected. */
  datatype Deletion = Deletion(
    wheres: Option<seq<W.Where>>,
    orders: Option<seq<OrderStatement.Order>>,
    limit: Option<LimitStatement.Limit>,
    offset: Option<OffsetStatement.Offset>)

  const Empty := Deletion(None, None, None, None)

  const WhereMissing := "delete table data where statements must exist"

  predicate WellFormed(d: Deletion) {
    && (d.wheres.Some? ==> AllValid(d.wheres.value))
    && (d.orders.Some? ==> OrdersValid(d.orders.value))
  }

  function Header(table: string): string {
    "DELETE FROM " + table
  }

  /**
   * `DeleteManager::to_sql` for the table `table`: a statement without conditions is
   * refused, whatever else is set; otherwise the head, then the restriction.
   */
  function DeletionSql(table: string, d: Deletion): (r: Result<Fragment>)
    requires WellFormed(d)
    ensures d.wheres.None? ==> r == Err(Message(WhereMissing))
    ensures r.Ok? <==> d.wheres.Some? && Conditions(d.wheres.value).Ok? && OrderClause(d.orders).Ok?
    ensures r.Ok? ==> Header(table) + " WHERE" <= r.value.value
    ensures r.Ok? ==> r.value.Params() == Conditions(d.wheres.value).value.Params()
  {
    if d.wheres.None? then Err(Message(WhereMissing))
    else
      var rest :- Restriction(d.wheres.value, d.orders, d.limit, d.offset);
      Ok(Fragment(Header(table), None).PushSql(rest))
  }

  class DeleteManager {
    const table: string
    var wheres: Option<seq<W.Where>>
    var orders: Option<seq<OrderStatement.Order>>
    var limit: Option<LimitStatement.Limit>
    var offset: Option<OffsetStatement.Offset>

    function Model(): Deletion
      reads this
    {
      Deletion(wheres, orders, limit, offset)
    }

    /** `DeleteManager::default` for the table `table`. */
    constructor (table: string)
      ensures this.table == table && Model() == Empty
    {
      this.table := table;
      wheres, orders, limit, offset := None, None, None, None;
    }

    /** `where` and its seven variants: one more condition with the modifiers its name sets. */
    method AddWhere(condition: Value, not: bool, or: bool, prepare: bool)
      modifies this
      ensures Model() == old(Model()).(wheres := Appended(old(wheres), W.New(condition, Flag(not), Flag(or), Flag(prepare))))
    {
      wheres := Appended(wheres, W.New(condition, Flag(not), Flag(or), Flag(prepare)));
    }

    method WhereRange(column: string, start: W.Bound, end: W.Bound)
      requires !(start.Unbounded? && end.Unbounded?)
      modifies this
      ensures Model() == old(Model()).(wheres := Appended(old(wheres), W.NewRange(column, start, end)))
    {
      wheres := Appended(wheres, W.NewRange(column, start, end));
    }

    method AddOrder(condition: Value)
      modifies this
      ensures Model() == old(Model()).(orders := Appended(old(orders), OrderStatement.New(condition)))
    {
      orders := Appended(orders, OrderStatement.New(condition));
    }

    method SetLimit(value: nat)
      requires value <= UsizeMax
      modifies this
      ensures Model() == old(Model()).(limit := Some(LimitStatement.New(value)))
    {
      limit := Some(LimitStatement.New(value));
    }

    method SetOffset(value: nat)
      requires value <= UsizeMax
      modifies this
      ensures Model() == old(Model()).(offset := Some(OffsetStatement.New(value)))
    {
      offset := Some(OffsetStatement.New(value));
    }

    /** `paginate`: page 0 underflows and a start beyond `usize` overflows; both panic. */
    method Paginate(page: nat, size: nat)
      requires page >= 1 && size <= UsizeMax && PageStart(page, size) <= UsizeMax
      modifies this
      ensures Model() == old(Model()).(limit := Some(LimitStatement.Limit(size)),
                                      offset := Some(OffsetStatement.Offset(PageStart(page, size))))
    {
      var start := (page - 1) * size;
      SetLimit(size);
      SetOffset(start);
    }

    method ToSql() returns (r: Result<Fragment>)
      requires WellFormed(Model())
      ensures r == DeletionSql(table, Model())
    {
      if wheres.None? {
        return Err(Message(WhereMissing));
      }
      var rest :- RestrictionToSql(wheres.value, orders, limit, offset);
      r := Ok(Fragment(Header(table), None).PushSql(rest));
    }
  }

  /** The same deletion with every condition's literals written inline. */
  function Inline(d: Deletion): (r: Deletion)
    ensures r.wheres == UnpreparedClause(d.wheres)
    ensures r.(wheres := d.wheres) == d
  {
    d.(wheres := UnpreparedClause(d.wheres))
  }

  /** A prepared deletion renders to the statement its all-inline counterpart gives. */
  lemma DeletionPrepared(table: string, d: Deletion)
    requires WellFormed(d) && DeletionSql(table, d).Ok? && Unmarked(table)
    requires d.wheres.Some? ==> AllAgreeable(d.wheres.value)
    requires d.orders.Some? ==> PlainOrders(d.orders.value)
    ensures WellFormed(Inline(d)) && DeletionSql(table, Inline(d)).Ok?
    ensures Agree(DeletionSql(table, d).value, DeletionSql(table, Inline(d)).value)
    ensures Render(DeletionSql(table, d).value) == Ok(Literal(DeletionSql(table, Inline(d)).value))
  {
    var ws := d.wheres.value;
    RestrictionPrepared(ws, d.orders, d.limit, d.offset);
    AgreePlain(Header(table));
    AgreePushSql(Fragment(Header(table), None), Fragment(Header(table), None),
                 Restriction(ws, d.orders, d.limit, d.offset).value,
                 Restriction(Unprepared(ws), d.orders, d.limit, d.offset).value);
    AgreeRender(DeletionSql(table, d).value, DeletionSql(table, Inline(d)).value);
  }

  // ---------------------------------------------------------------------------
  // Statements of the unit test of `delete_manager/mod.rs`, for the table `users`.

  /** `where_not_or({"a": 1, "b": [1, 2, 3]})`. */
  const NegatedEither := W.New(Object([("a", Number("1")), ("b", Array([Number("1"), Number("2"), Number("3")]))]),
                               Some(true), Some(true), None)

  /** `order("id desc")`, `order({"created_at": "desc"})` and `order(vec!["updated_at desc"])`. */
  const Orderings := [OrderStatement.New(Str("id desc")), OrderStatement.New(Object([("created_at", Str("desc"))])),
                      OrderStatement.New(Array([Str("updated_at desc")]))]

  lemma NegatedEitherGlue()
    ensures "a" + " " + ("!= " + "1") == "a != 1"
    ensures "b" + " " + ("NOT IN (" + "1,2,3" + ")") == "b NOT IN (1,2,3)"
  {
  }

  lemma NegatedEitherComparisons()
    ensures W.ColumnCondition(NegatedEither, Number("1")).value.value == "!= " + "1"
    ensures W.ColumnCondition(NegatedEither, Array([Number("1"), Number("2"), Number("3")])).value.value == "NOT IN (" + "1,2,3" + ")"
  {
    assert Text(Number("1")) == "1";
    W.SampleList(NegatedEither);
  }

  lemma NegatedEitherEntries()
    ensures var entries := [("a", Number("1")), ("b", Array([Number("1"), Number("2"), Number("3")]))];
      W.EntriesCompare(NegatedEither, entries) && W.EntryTexts(NegatedEither, entries) == ["a != 1", "b NOT IN (1,2,3)"]
  {
    NegatedEitherGlue();
    var entries := [("a", Number("1")), ("b", Array([Number("1"), Number("2"), Number("3")]))];
    NegatedEitherComparisons();
    var es := W.EntryTexts(NegatedEither, entries);
    assert es[0] == "a != 1" && es[1] == "b NOT IN (1,2,3)";
  }

  lemma NegatedEitherJoined()
    ensures "a != 1" + " OR " + "b NOT IN (1,2,3)" == "a != 1 OR b NOT IN (1,2,3)"
    ensures " (" + "a != 1 OR b NOT IN (1,2,3)" + ")" == " (a != 1 OR b NOT IN (1,2,3))"
  {
  }

  lemma NegatedEitherText()
    ensures W.ToSql(NegatedEither) == Ok(Fragment("a != 1 OR b NOT IN (1,2,3)", None))
  {
    NegatedEitherJoined();
    var entries := [("a", Number("1")), ("b", Array([Number("1"), Number("2"), Number("3")]))];
    NegatedEitherEntries();
    JoinThree("a != 1", "b NOT IN (1,2,3)", "", " OR ");
    assert W.ToSql(NegatedEither) == W.ObjectCondition(NegatedEither, entries);
  }

  lemma NegatedEitherClause()
    ensures AllValid([NegatedEither])
    ensures ConditionClause(" WHERE", Some([NegatedEither])) == Ok(Fragment(" WHERE" + " (a != 1 OR b NOT IN (1,2,3))", None))
  {
    NegatedEitherJoined();
    NegatedEitherText();
    assert ConditionTexts([NegatedEither]) == [" (a != 1 OR b NOT IN (1,2,3))"];
    ConditionClauseJoined(" WHERE", [NegatedEither]);
    ConditionsPlain([NegatedEither]);
  }

  lemma OrderingsGlue()
    ensures "created_at" + " " + "desc" == "created_at desc"
    ensures "id desc" + "," + "created_at desc" + "," + "updated_at desc" == "id desc,created_at desc,updated_at desc"
  {
  }

  lemma OrderingsText()
    ensures OrdersValid(Orderings)
    ensures OrderClause(Some(Orderings)) == Ok(Fragment(" ORDER BY " + "id desc,created_at desc,updated_at desc", None))
  {
    OrderingsGlue();
    assert OrderStatement.Clauses([("created_at", Str("desc"))]) == ["created_at desc"];
    assert OrderStatement.Items([Str("updated_at desc")]) == ["updated_at desc"];
    var texts := OrderTexts(Orderings);
    assert texts == ["id desc", "created_at desc", "updated_at desc"];
    JoinThree("id desc", "created_at desc", "updated_at desc", ",");
    OrderClauseJoined(Orderings);
  }

  /** Clauses left unset add nothing: a deletion with conditions and ORDER BY items is the head and those two clauses. */
  lemma OrderedDeletion(table: string, ws: seq<W.Where>, os: seq<OrderStatement.Order>)
    requires AllValid(ws) && OrdersValid(os) && Conditions(ws).Ok? && Orders(os).Ok?
    ensures var d := Empty.(wheres := Some(ws), orders := Some(os));
      WellFormed(d) && DeletionSql(table, d)
      == Ok(Fragment(Header(table), None).PushSql(ConditionClause(" WHERE", Some(ws)).value).PushSql(OrderClause(Some(os)).value))
  {
    var w, o := ConditionClause(" WHERE", Some(ws)).value, OrderClause(Some(os)).value;
    assert w.PushSql(o).PushSql(EmptyFragment).PushSql(EmptyFragment) == w.PushSql(o);
    PushSqlAssociative(Fragment(Header(table), None), w, o);
  }

  /** Clauses left unset add nothing: a deletion with conditions and a limit is the head and those two clauses. */
  lemma LimitedDeletion(table: string, ws: seq<W.Where>, l: LimitStatement.Limit)
    requires AllValid(ws) && Conditions(ws).Ok?
    ensures var d := Empty.(wheres := Some(ws), limit := Some(l));
      WellFormed(d) && DeletionSql(table, d)
      == Ok(Fragment(Header(table), None).PushSql(ConditionClause(" WHERE", Some(ws)).value).PushSql(LimitClause(Some(l))))
  {
    var w := ConditionClause(" WHERE", Some(ws)).value;
    assert w.PushSql(EmptyFragment) == w;
    assert w.PushSql(LimitClause(Some(l))).PushSql(EmptyFragment) == w.PushSql(LimitClause(Some(l)));
    PushSqlAssociative(Fragment(Header(table), None), w, LimitClause(Some(l)));
  }

  /**
   * delete_manager/mod.rs:222-230: without a condition the statement is refused; with
   * `where_not_or` the negated columns are or-ed in parentheses, and the ORDER BY items follow.
   */
  lemma OrderExample()
    ensures var d := Empty.(orders := Some(Orderings));
      WellFormed(d) && DeletionSql("users", d) == Err(Message(WhereMissing))
    ensures var d := Empty.(wheres := Some([NegatedEither]), orders := Some(Orderings));
      WellFormed(d) && DeletionSql("users", d)
      == Ok(Fragment("DELETE FROM users" + (" WHERE" + " (a != 1 OR b NOT IN (1,2,3))")
                                         + (" ORDER BY " + "id desc,created_at desc,updated_at desc"), None))
  {
    assert "DELETE FROM " + "users" == "DELETE FROM users";
    NegatedEitherClause();
    OrderingsText();
    OrderedDeletion("users", [NegatedEither], Orderings);
  }

  /** delete_manager/mod.rs:233-237: `limit(10)` with `where("a = 1")`. */
  lemma LimitExample()
    ensures var d := Empty.(wheres := Some([PlainWhere]), limit := Some(LimitStatement.New(10)));
      WellFormed(d) && DeletionSql("users", d) == Ok(Fragment("DELETE FROM users" + (" WHERE" + " a = 1") + " LIMIT 10", None))
  {
    assert "DELETE FROM " + "users" == "DELETE FROM users";
    assert NatToString(1) == "1";
    assert " LIMIT " + NatToString(10) == " LIMIT 10";
    PlainWhereClause();
    LimitedDeletion("users", [PlainWhere], LimitStatement.New(10));
  }

  /** Clauses left unset add nothing: a deletion with conditions alone is the head, WHERE and the conditions. */
  lemma ConditionedDeletion(table: string, ws: seq<W.Where>)
    requires AllValid(ws) && Conditions(ws).Ok?
    ensures var d := Empty.(wheres := Some(ws));
      WellFormed(d) && DeletionSql(table, d)
      == Ok(Fragment(Header(table), None).PushSql(Fragment(" WHERE", None).PushSql(Conditions(ws).value)))
  {
    var w := ConditionClause(" WHERE", Some(ws)).value;
    assert w.PushSql(EmptyFragment).PushSql(EmptyFragment).PushSql(EmptyFragment) == w;
  }

  /** Clauses left unset add nothing: a deletion with conditions, a limit and an offset. */
  lemma PagedDeletion(table: string, ws: seq<W.Where>, l: LimitStatement.Limit, o: OffsetStatement.Offset)
    requires AllValid(ws) && Conditions(ws).Ok?
    ensures var d := Empty.(wheres := Some(ws), limit := Some(l), offset := Some(o));
      WellFormed(d) && DeletionSql(table, d)
      == Ok(Fragment(Header(table), None).PushSql(ConditionClause(" WHERE", Some(ws)).value)
              .PushSql(LimitClause(Some(l))).PushSql(OffsetClause(Some(o))))
  {
    var w := ConditionClause(" WHERE", Some(ws)).value;
    assert w.PushSql(EmptyFragment) == w;
    PushSqlAssociative(Fragment(Header(table), None), w, LimitClause(Some(l)));
    PushSqlAssociative(Fragment(Header(table), None), w.PushSql(LimitClause(Some(l))), OffsetClause(Some(o)));
  }

  /**
   * delete_manager/mod.rs:246-254: `paginate(1, 20)` and `paginate(2, 20)` with
   * `where("a = 1")` set a limit of 20 and the offsets of pages 1 and 2.
   */
  lemma PaginateExamples()
    ensures var d := Empty.(wheres := Some([PlainWhere]), limit := Some(LimitStatement.Limit(20)),
                            offset := Some(OffsetStatement.Offset(PageStart(1, 20))));
      WellFormed(d) && DeletionSql("users", d)
      == Ok(Fragment("DELETE FROM users" + (" WHERE" + " a = 1") + " LIMIT 20" + " OFFSET 0", None))
    ensures var d := Empty.(wheres := Some([PlainWhere]), limit := Some(LimitStatement.Limit(20)),
                            offset := Some(OffsetStatement.Offset(PageStart(2, 20))));
      WellFormed(d) && DeletionSql("users", d)
      == Ok(Fragment("DELETE FROM users" + (" WHERE" + " a = 1") + " LIMIT 20" + " OFFSET 20", None))
  {
    assert "DELETE FROM " + "users" == "DELETE FROM users";
    assert NatToString(1) == "1" && NatToString(2) == "2";
    assert " LIMIT " + NatToString(20) == " LIMIT 20";
    assert " OFFSET " + NatToString(0) == " OFFSET 0" && " OFFSET " + NatToString(20) == " OFFSET 20";
    PlainWhereClause();
    PagedDeletion("users", [PlainWhere], LimitStatement.Limit(20), OffsetStatement.Offset(PageStart(1, 20)));
    PagedDeletion("users", [PlainWhere], LimitStatement.Limit(20), OffsetStatement.Offset(PageStart(2, 20)));
  }

  /** `where(["a = ?", 1])`: a template whose argument is deferred. */
  const TemplateWhere := W.New(Array([Str("a = ?"), Number("1")]), None, None, None)

  /** `where_not({"b": [1, 2, 3]})`. */
  const NegatedList := W.New(Object([("b", Array([Number("1"), Number("2"), Number("3")]))]), Some(true), None, None)

  lemma TemplateWhereText()
    ensures W.ToSql(TemplateWhere) == Ok(Fragment("a = ?", Some(["1"])))
  {
    var items := [Str("a = ?"), Number("1")];
    assert items[1..] == [Number("1")];
    assert Text(Number("1")) == "1";
    var args := StringifyAll([Number("1")]).value;
    assert args[0] == "1";
    assert args == ["1"];
  }

  /** The pieces of the negated list condition, run together. */
  lemma NegatedListLine()
    ensures "b" + " " + ("NOT IN (" + "1,2,3" + ")") == "b NOT IN (1,2,3)"
  {
  }

  lemma NegatedListText()
    ensures W.ToSql(NegatedList) == Ok(Fragment("b NOT IN (1,2,3)", None))
  {
    var entries := [("b", Array([Number("1"), Number("2"), Number("3")]))];
    W.SampleList(NegatedList);
    NegatedListLine();
    var es := W.EntryTexts(NegatedList, entries);
    assert es == ["b NOT IN (1,2,3)"];
    assert W.ToSql(NegatedList) == W.ObjectCondition(NegatedList, entries);
  }

  /** The two conditions: the template as written, then ` AND` and the negated list; the template's argument is deferred. */
  lemma TwoConditions()
    ensures AllValid([TemplateWhere, NegatedList])
    ensures Conditions([TemplateWhere]) == Ok(Fragment(" a = " + "?" + "", Some(["1"])))
    ensures Conditions([TemplateWhere, NegatedList]) == Ok(Fragment(" a = " + "?" + " AND b NOT IN (1,2,3)", Some(["1"])))
  {
    TemplateWhereText();
    NegatedListText();
    var ws := [TemplateWhere, NegatedList];
    assert ws[..1] == [TemplateWhere];
    assert [TemplateWhere][..0] == [];
    ConditionsSnoc([TemplateWhere]);
    ConditionsSnoc(ws);
    assert "" + [' '] == " ";
    TemplateGlue();
  }

  lemma TemplateGlue()
    ensures " " + "a = ?" == " a = " + "?" + ""
    ensures " " + "a = ?" + " AND" + " " + "b NOT IN (1,2,3)" == " a = " + "?" + " AND b NOT IN (1,2,3)"
  {
  }

  lemma TemplateUnmarked()
    ensures Header("users") == "DELETE FROM users"
    ensures Unmarked(Header("users") + " WHERE" + " a = ") && Unmarked(" AND b NOT IN (1,2,3)") && Unmarked("")
  {
    var a, b, c, d := "DELETE FROM users", " WHERE", " a = ", " AND b NOT IN (1,2,3)";
    assert Unmarked(a) by { forall i | 0 <= i < |a| ensures a[i] != '?' { } }
    assert Unmarked(b) by { forall i | 0 <= i < |b| ensures b[i] != '?' { } }
    assert Unmarked(c) by { forall i | 0 <= i < |c| ensures c[i] != '?' { } }
    assert Unmarked(d) by { forall i | 0 <= i < |d| ensures d[i] != '?' { } }
    UnmarkedConcat(a, b);
    UnmarkedConcat(a + b, c);
  }

  /** Conditions that defer one value behind one mark give a deletion with that mark and that value. */
  lemma OneMarkDeletion(table: string, ws: seq<W.Where>, open: string, close: string, v: string)
    requires AllValid(ws) && Conditions(ws) == Ok(Fragment(open + "?" + close, Some([v])))
    ensures var d := Empty.(wheres := Some(ws));
      WellFormed(d) && DeletionSql(table, d) == Ok(Fragment(Header(table) + " WHERE" + open + "?" + close, Some([v])))
  {
    ConditionedDeletion(table, ws);
    MarkRegrouped(Header(table), " WHERE", open, close);
  }

  lemma MarkRegrouped(head: string, keyword: string, open: string, close: string)
    ensures head + (keyword + (open + "?" + close)) == head + keyword + open + "?" + close
  {
  }

  /** delete_manager/mod.rs:197-200: the template defers its argument and renders with it filled in. */
  lemma TemplateExample()
    ensures var d := Empty.(wheres := Some([TemplateWhere]));
      WellFormed(d) && DeletionSql("users", d) == Ok(Fragment("DELETE FROM users" + " WHERE" + " a = " + "?" + "", Some(["1"])))
      && Renderable(DeletionSql("users", d).value)
      && Render(DeletionSql("users", d).value) == Ok("DELETE FROM users" + " WHERE" + " a = " + "1" + "")
  {
    TwoConditions();
    TemplateUnmarked();
    OneMarkDeletion("users", [TemplateWhere], " a = ", "", "1");
    RenderOneMark("DELETE FROM users" + " WHERE" + " a = ", "", "1");
  }

  /**
   * delete_manager/mod.rs:201-203: `where_not` on a list adds ` AND` and the negated
   * membership test after the template.
   */
  lemma TemplateNotExample()
    ensures var d := Empty.(wheres := Some([TemplateWhere, NegatedList]));
      WellFormed(d) && DeletionSql("users", d)
      == Ok(Fragment("DELETE FROM users" + " WHERE" + " a = " + "?" + " AND b NOT IN (1,2,3)", Some(["1"])))
      && Renderable(DeletionSql("users", d).value)
      && Render(DeletionSql("users", d).value) == Ok("DELETE FROM users" + " WHERE" + " a = " + "1" + " AND b NOT IN (1,2,3)")
  {
    TwoConditions();
    TemplateUnmarked();
    OneMarkDeletion("users", [TemplateWhere, NegatedList], " a = ", " AND b NOT IN (1,2,3)", "1");
    RenderOneMark("DELETE FROM users" + " WHERE" + " a = ", " AND b NOT IN (1,2,3)", "1");
  }
}

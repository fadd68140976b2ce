/**
 * The SELECT statement builder: a projection, joins, WHERE conditions, GROUP BY items,
 * HAVING conditions, ORDER BY items, a limit and an offset, collected one call at a time
 * and rendered in that fixed order.
 */
module SelectManagers {
  import opened Wrappers
  import opened Strings
  import opened Json
  import opened Collectors
  import opened Clauses
  import W = WhereStatement
  import S = SelectStatement
  import OrderStatement
  import GroupStatement
  import JoinStatement
  import LimitStatement
  import OffsetStatement

  /** Everything a select manager has collected. */
  datatype Query = Query(
    select: S.Select,
    joins: Option<seq<JoinStatement.Join>>,
    wheres: Option<seq<W.Where>>,
    groups: Option<seq<GroupStatement.Group>>,
    havings: Option<seq<W.Where>>,
    orders: Option<seq<OrderStatement.Order>>,
    limit: Option<LimitStatement.Limit>,
    offset: Option<OffsetStatement.Offset>)

  const Empty := Query(S.Default, None, None, None, None, None, None, None)

  /** Rendering does not panic: templates start with a string, groups and orders read strings. */
  predicate WellFormed(q: Query) {
    && (q.wheres.Some? ==> AllValid(q.wheres.value))
    && (q.havings.Some? ==> AllValid(q.havings.value))
    && (q.groups.Some? ==> GroupsValid(q.groups.value))
    && (q.orders.Some? ==> OrdersValid(q.orders.value))
  }

  /**
   * `SelectManager::to_sql` for the table `table`: the SELECT clause, the joins, WHERE,
   * GROUP BY, HAVING, ORDER BY, LIMIT and OFFSET, each only when set; the first clause
   * that fails fails the statement.
   */
  function QuerySql(table: string, q: Query): (r: Result<Fragment>)
    requires WellFormed(q)
    ensures r.Ok? <==> JoinClause(q.joins).Ok? && ConditionClause(" WHERE", q.wheres).Ok? &&
                       GroupClause(q.groups).Ok? && ConditionClause(" HAVING", q.havings).Ok? &&
                       OrderClause(q.orders).Ok?
    ensures r.Ok? ==> S.ToSql(table, q.select).value.value <= r.value.value
    ensures r.Ok? ==> r.value.Params() == ConditionClause(" WHERE", q.wheres).value.Params() +
                                          ConditionClause(" HAVING", q.havings).value.Params()
  {
    var sql := S.ToSql(table, q.select).value;
    var joins :- JoinClause(q.joins);
    var wheres :- ConditionClause(" WHERE", q.wheres);
    var groups :- GroupClause(q.groups);
    var havings :- ConditionClause(" HAVING", q.havings);
    var orders :- OrderClause(q.orders);
    Stacked(sql, joins, wheres, groups, havings, orders, LimitClause(q.limit), OffsetClause(q.offset));
    Ok(sql.PushSql(joins).PushSql(wheres).PushSql(groups).PushSql(havings).PushSql(orders)
          .PushSql(LimitClause(q.limit)).PushSql(OffsetClause(q.offset)))
  }

  /** The clauses pushed after the SELECT clause keep it as a prefix and defer only the conditions' values. */
  lemma Stacked(sel: Fragment, j: Fragment, w: Fragment, g: Fragment, h: Fragment, o: Fragment, l: Fragment, f: Fragment)
    requires sel.prepare.None? && j.prepare.None? && g.prepare.None?
    requires o.prepare.None? && l.prepare.None? && f.prepare.None?
    ensures var r := sel.PushSql(j).PushSql(w).PushSql(g).PushSql(h).PushSql(o).PushSql(l).PushSql(f);
            sel.value <= r.value && r.Params() == w.Params() + h.Params()
  {
    var a := sel.PushSql(j).PushSql(w).PushSql(g);
    assert a.value == sel.value + (j.value + w.value + g.value);
    assert a.Params() == w.Params();
    var r := a.PushSql(h).PushSql(o).PushSql(l).PushSql(f);
    assert r.value == sel.value + (j.value + w.value + g.value + h.value + o.value + l.value + f.value);
    assert r.Params() == w.Params() + h.Params();
  }

  class SelectManager {
    /** The name of the table the manager's model maps to. */
    const table: string
    var select: S.Select
    var joins: Option<seq<JoinStatement.Join>>
    var wheres: Option<seq<W.Where>>
    var groups: Option<seq<GroupStatement.Group>>
    var havings: Option<seq<W.Where>>
    var orders: Option<seq<OrderStatement.Order>>
    var limit: Option<LimitStatement.Limit>
    var offset: Option<OffsetStatement.Offset>

    function Model(): Query
      reads this
    {
      Query(select, joins, wheres, groups, havings, orders, limit, offset)
    }

    /** `SelectManager::default` for the table `table`. */
    constructor (table: string)
      ensures this.table == table && Model() == Empty
    {
      this.table := table;
      select, joins, wheres, groups, havings, orders, limit, offset :=
        S.Default, None, None, None, None, None, None, None;
    }

    method Distinct()
      modifies this
      ensures Model() == old(Model()).(select := old(select).(distinct := Some(true)))
    {
      select := select.(distinct := Some(true));
    }

    /** `joins`: one more raw join clause. */
    method AddJoin(condition: string)
      modifies this
      ensures Model() == old(Model()).(joins := Appended(old(joins), JoinStatement.Join(Some(condition))))
    {
      joins := Appended(joins, JoinStatement.Join(Some(condition)));
    }

    /**
     * `where`, `where_not`, `where_or`, `where_not_or` and their `_prepare` forms: one
     * more condition with the modifiers each of them sets.
     */
    method AddWhere(condition: Value, not: bool, or: bool, prepare: bool)
      modifies this
      ensures Model() == old(Model()).(wheres := Appended(old(wheres), W.New(condition, Flag(not), Flag(or), Flag(prepare))))
    {
      wheres := Appended(wheres, W.New(condition, Flag(not), Flag(or), Flag(prepare)));
    }

    /** `where_range`: one more range condition (a range without bounds panics). */
    method WhereRange(column: string, start: W.Bound, end: W.Bound)
      requires !(start.Unbounded? && end.Unbounded?)
      modifies this
      ensures Model() == old(Model()).(wheres := Appended(old(wheres), W.NewRange(column, start, end)))
    {
      wheres := Appended(wheres, W.NewRange(column, start, end));
    }

    method AddGroup(condition: Value)
      modifies this
      ensures Model() == old(Model()).(groups := Appended(old(groups), GroupStatement.New(condition)))
    {
      groups := Appended(groups, GroupStatement.New(condition));
    }

    /** `having` and its seven variants, as for `where`. */
    method AddHaving(condition: Value, not: bool, or: bool, prepare: bool)
      modifies this
      ensures Model() == old(Model()).(havings := Appended(old(havings), W.New(condition, Flag(not), Flag(or), Flag(prepare))))
    {
      havings := Appended(havings, W.New(condition, Flag(not), Flag(or), Flag(prepare)));
    }

    method HavingRange(column: string, start: W.Bound, end: W.Bound)
      requires !(start.Unbounded? && end.Unbounded?)
      modifies this
      ensures Model() == old(Model()).(havings := Appended(old(havings), W.NewRange(column, start, end)))
    {
      havings := Appended(havings, W.NewRange(column, start, end));
    }

    method AddOrder(condition: Value)
      modifies this
      ensures Model() == old(Model()).(orders := Appended(old(orders), OrderStatement.New(condition)))
    {
      orders := Appended(orders, OrderStatement.New(condition));
    }

    /** `limit`: replaces any earlier limit. */
    method SetLimit(value: nat)
      requires value <= UsizeMax
      modifies this
      ensures Model() == old(Model()).(limit := Some(LimitStatement.New(value)))
    {
      limit := Some(LimitStatement.New(value));
    }

    /** `offset`: replaces any earlier offset. */
    method SetOffset(value: nat)
      requires value <= UsizeMax
      modifies this
      ensures Model() == old(Model()).(offset := Some(OffsetStatement.New(value)))
    {
      offset := Some(OffsetStatement.New(value));
    }

    /**
     * `paginate`: a limit of one page and the offset of page `page`, counted from 1.
     * Page 0 underflows and a start beyond `usize` overflows; both panic.
     */
    method Paginate(page: nat, size: nat)
      requires page >= 1 && size <= UsizeMax && PageStart(page, size) <= UsizeMax
      modifies this
      ensures Model() == old(Model()).(limit := Some(LimitStatement.Limit(size)),
                                      offset := Some(OffsetStatement.Offset(PageStart(page, size))))
    {
      var start := (page - 1) * size;
      SetLimit(size);
      SetOffset(start);
    }

    /** `SelectManager::to_sql`, clause by clause. */
    method ToSql() returns (r: Result<Fragment>)
      requires WellFormed(Model())
      ensures r == QuerySql(table, Model())
    {
      r := QueryToSql(table, Model());
    }
  }

  /** `to_sql`: each clause rendered by its loop, then pushed in statement order. */
  method QueryToSql(table: string, q: Query) returns (r: Result<Fragment>)
    requires WellFormed(q)
    ensures r == QuerySql(table, q)
  {
    var sql := S.ToSql(table, q.select).value;
    var joins :- JoinClauseToSql(q.joins);
    var wheres :- ConditionClauseToSql(" WHERE", q.wheres);
    var groups :- GroupClauseToSql(q.groups);
    var havings :- ConditionClauseToSql(" HAVING", q.havings);
    var orders :- OrderClauseToSql(q.orders);
    sql := sql.PushSql(joins).PushSql(wheres).PushSql(groups).PushSql(havings).PushSql(orders);
    r := Ok(sql.PushSql(LimitClause(q.limit)).PushSql(OffsetClause(q.offset)));
  }

  /** The same query with every condition's literals written inline. */
  function Inline(q: Query): (r: Query)
    ensures r.wheres == UnpreparedClause(q.wheres) && r.havings == UnpreparedClause(q.havings)
    ensures r.(wheres := q.wheres, havings := q.havings) == q
  {
    q.(wheres := UnpreparedClause(q.wheres), havings := UnpreparedClause(q.havings))
  }

  /** Nothing but the conditions' deferred values can introduce a mark. */
  predicate Agreeable(table: string, q: Query) {
    && S.Plain(table, q.select)
    && (q.joins.Some? ==> PlainJoins(q.joins.value))
    && (q.wheres.Some? ==> AllAgreeable(q.wheres.value))
    && (q.groups.Some? ==> PlainGroups(q.groups.value))
    && (q.havings.Some? ==> AllAgreeable(q.havings.value))
    && (q.orders.Some? ==> PlainOrders(q.orders.value))
  }

  /** Pairwise agreeing clauses, assembled in statement order, agree. */
  lemma AssembleAgrees(sel: Fragment, j: Fragment, w: Fragment, iw: Fragment, g: Fragment,
                       h: Fragment, ih: Fragment, o: Fragment, l: Fragment, f: Fragment)
    requires Agree(sel, sel) && Agree(j, j) && Agree(w, iw) && Agree(g, g)
    requires Agree(h, ih) && Agree(o, o) && Agree(l, l) && Agree(f, f)
    ensures Agree(sel.PushSql(j).PushSql(w).PushSql(g).PushSql(h).PushSql(o).PushSql(l).PushSql(f),
                  sel.PushSql(j).PushSql(iw).PushSql(g).PushSql(ih).PushSql(o).PushSql(l).PushSql(f))
  {
    AgreePushSql(sel, sel, j, j);
    AgreePushSql(sel.PushSql(j), sel.PushSql(j), w, iw);
    var p3, i3 := sel.PushSql(j).PushSql(w), sel.PushSql(j).PushSql(iw);
    AgreePushSql(p3, i3, g, g);
    AgreePushSql(p3.PushSql(g), i3.PushSql(g), h, ih);
    var p5, i5 := p3.PushSql(g).PushSql(h), i3.PushSql(g).PushSql(ih);
    AgreePushSql(p5, i5, o, o);
    AgreePushSql(p5.PushSql(o), i5.PushSql(o), l, l);
    AgreePushSql(p5.PushSql(o).PushSql(l), i5.PushSql(o).PushSql(l), f, f);
  }

  /** A rendered query is its clauses pushed in statement order. */
  lemma QueryAssembled(table: string, q: Query)
    requires WellFormed(q) && QuerySql(table, q).Ok?
    ensures QuerySql(table, q).value
         == S.ToSql(table, q.select).value.PushSql(JoinClause(q.joins).value)
              .PushSql(ConditionClause(" WHERE", q.wheres).value).PushSql(GroupClause(q.groups).value)
              .PushSql(ConditionClause(" HAVING", q.havings).value).PushSql(OrderClause(q.orders).value)
              .PushSql(LimitClause(q.limit)).PushSql(OffsetClause(q.offset))
  {
  }

  /** Writing the conditions inline keeps a query renderable, and each condition clause agrees with its inline form. */
  lemma InlineRenders(table: string, q: Query)
    requires WellFormed(q) && Agreeable(table, q) && QuerySql(table, q).Ok?
    ensures WellFormed(Inline(q)) && QuerySql(table, Inline(q)).Ok?
    ensures Agree(ConditionClause(" WHERE", q.wheres).value, ConditionClause(" WHERE", Inline(q).wheres).value)
    ensures Agree(ConditionClause(" HAVING", q.havings).value, ConditionClause(" HAVING", Inline(q).havings).value)
  {
    ConditionClausePrepared(" WHERE", q.wheres);
    ConditionClausePrepared(" HAVING", q.havings);
  }

  /**
   * A prepared query renders to the statement the same query gives with every value
   * inline: the deferred values fill the marks exactly, clause by clause.
   */
  lemma QueryPrepared(table: string, q: Query)
    requires WellFormed(q) && Agreeable(table, q) && QuerySql(table, q).Ok?
    ensures WellFormed(Inline(q)) && QuerySql(table, Inline(q)).Ok?
    ensures Agree(QuerySql(table, q).value, QuerySql(table, Inline(q)).value)
    ensures Render(QuerySql(table, q).value) == Ok(Literal(QuerySql(table, Inline(q)).value))
  {
    var iq := Inline(q);
    InlineRenders(table, q);
    QueryAssembled(table, q);
    QueryAssembled(table, iq);
    var sel := S.ToSql(table, q.select).value;
    S.SelectUnmarked(table, q.select);
    AgreeUnmarked(sel);
    JoinClauseAgrees(q.joins);
    GroupClauseAgrees(q.groups);
    OrderClauseAgrees(q.orders);
    AgreeUnmarked(LimitClause(q.limit));
    AgreeUnmarked(OffsetClause(q.offset));
    AssembleAgrees(sel, JoinClause(q.joins).value,
                   ConditionClause(" WHERE", q.wheres).value, ConditionClause(" WHERE", iq.wheres).value,
                   GroupClause(q.groups).value,
                   ConditionClause(" HAVING", q.havings).value, ConditionClause(" HAVING", iq.havings).value,
                   OrderClause(q.orders).value, LimitClause(q.limit), OffsetClause(q.offset));
    AgreeRender(QuerySql(table, q).value, QuerySql(table, iq).value);
  }

  /** A rendered query's text: the SELECT clause, then each clause's text in statement order. */
  lemma QueryText(table: string, q: Query)
    requires WellFormed(q) && QuerySql(table, q).Ok?
    ensures QuerySql(table, q).value.value
         == S.ToSql(table, q.select).value.value + JoinClause(q.joins).value.value
            + ConditionClause(" WHERE", q.wheres).value.value + GroupClause(q.groups).value.value
            + ConditionClause(" HAVING", q.havings).value.value + OrderClause(q.orders).value.value
            + LimitClause(q.limit).value + OffsetClause(q.offset).value
  {
    QueryAssembled(table, q);
  }

  // ---------------------------------------------------------------------------
  // Statements of the unit test of `select_manager/mod.rs`, for the table `users`.

  /** Every statement of the test starts with `SELECT * FROM users`. */
  lemma UsersSelect()
    ensures S.ToSql("users", S.Default).value.value == "SELECT * FROM users"
  {
    assert "SELECT " + "" + "* " + "FROM " + "users" == "SELECT * FROM users";
  }

  /** `group("age")` and `group(vec!["name", "province"])`. */
  const Groupings := [GroupStatement.New(Str("age")), GroupStatement.New(Array([Str("name"), Str("province")]))]

  /** `having({"a": 1, "b": 2})`. */
  const PairHaving := W.New(Object([("a", Number("1")), ("b", Number("2"))]), None, None, None)

  /** `having_range("c", 1..100)`. */
  const RangeHaving := W.NewRange("c", W.Included("1"), W.Excluded("100"))

  const Havings := [PairHaving, RangeHaving]

  lemma GroupingsGlue()
    ensures "name" + "," + "province" == "name,province"
    ensures "age" + "," + "name,province" == "age,name,province"
    ensures " GROUP BY " + "age,name,province" == " GROUP BY age,name,province"
  {
  }

  lemma PairGlue()
    ensures "a" + " " + ("= " + "1") == "a = 1" && "b" + " " + ("= " + "2") == "b = 2"
    ensures "a = 1" + " AND " + "b = 2" == "a = 1 AND b = 2"
  {
  }

  lemma RangeGlue()
    ensures "c" + " >= " + "1" == "c >= 1" && "c" + " < " + "100" == "c < 100"
    ensures "c >= 1" + " AND " + "c < 100" == "c >= 1 AND c < 100"
  {
  }

  lemma WrappedGlue()
    ensures " " + "a = 1 AND b = 2" == " a = 1 AND b = 2" && " " + "c >= 1 AND c < 100" == " c >= 1 AND c < 100"
  {
  }

  lemma GroupingsText()
    ensures GroupsValid(Groupings)
    ensures GroupClause(Some(Groupings)) == Ok(Fragment(" GROUP BY age,name,province", None))
  {
    GroupingsGlue();
    assert GroupStatement.Names([Str("name"), Str("province")]) == ["name", "province"];
    JoinThree("name", "province", "", ",");
    assert GroupStatement.ToSql(Groupings[1]).value.value == "name,province";
    var texts := GroupTexts(Groupings);
    assert texts == ["age", "name,province"];
    JoinThree("age", "name,province", "", ",");
    GroupClauseJoined(Groupings);
  }

  lemma PairEntryTexts()
    ensures var entries := [("a", Number("1")), ("b", Number("2"))];
      W.EntriesCompare(PairHaving, entries) && W.EntryTexts(PairHaving, entries) == ["a = 1", "b = 2"]
  {
    PairGlue();
    var entries := [("a", Number("1")), ("b", Number("2"))];
    assert Text(Number("1")) == "1" && Text(Number("2")) == "2";
    assert W.ColumnCondition(PairHaving, Number("1")).value.value == "= " + "1";
    assert W.ColumnCondition(PairHaving, Number("2")).value.value == "= " + "2";
    var es := W.EntryTexts(PairHaving, entries);
    assert es[0] == "a = 1" && es[1] == "b = 2";
  }

  lemma PairHavingText()
    ensures W.ToSql(PairHaving) == Ok(Fragment("a = 1 AND b = 2", None))
  {
    PairGlue();
    var entries := [("a", Number("1")), ("b", Number("2"))];
    PairEntryTexts();
    JoinThree("a = 1", "b = 2", "", " AND ");
    assert W.ToSql(PairHaving) == W.ObjectCondition(PairHaving, entries);
  }

  lemma RangeHavingText()
    ensures W.ToSql(RangeHaving) == Ok(Fragment("c >= 1 AND c < 100", None))
  {
    RangeGlue();
  }

  /** Both sample HAVING conditions render, as the texts just shown. */
  lemma HavingsRender()
    ensures AllRender(Havings)
    ensures W.ToSql(Havings[0]) == Ok(Fragment("a = 1 AND b = 2", None))
    ensures W.ToSql(Havings[1]) == Ok(Fragment("c >= 1 AND c < 100", None))
  {
    PairHavingText();
    RangeHavingText();
    assert Havings[0] == PairHaving && Havings[1] == RangeHaving;
    assert W.Valid(PairHaving) && W.Valid(RangeHaving);
    assert forall i :: 0 <= i < |Havings| ==> Havings[i] in {PairHaving, RangeHaving};
  }

  lemma HavingTexts()
    ensures AllRender(Havings) && ConditionTexts(Havings) == [" a = 1 AND b = 2", " c >= 1 AND c < 100"]
  {
    WrappedGlue();
    HavingsRender();
    var texts := ConditionTexts(Havings);
    assert texts[0] == Wrapped(PairHaving, "a = 1 AND b = 2") == " a = 1 AND b = 2";
    assert texts[1] == Wrapped(RangeHaving, "c >= 1 AND c < 100") == " c >= 1 AND c < 100";
    assert texts == [texts[0], texts[1]];
  }

  lemma HavingsText()
    ensures AllValid(Havings)
    ensures ConditionClause(" HAVING", Some(Havings)) == Ok(Fragment(" HAVING" + " a = 1 AND b = 2" + " AND" + " c >= 1 AND c < 100", None))
  {
    PairHavingText();
    RangeHavingText();
    HavingTexts();
    JoinThree(" a = 1 AND b = 2", " c >= 1 AND c < 100", "", " AND");
    ConditionClauseJoined(" HAVING", Havings);
    ConditionsPlain(Havings);
    Regrouped(" HAVING", " a = 1 AND b = 2", " AND", " c >= 1 AND c < 100");
  }

  /** Clauses left unset add nothing: a query with only GROUP BY and HAVING set is those two clauses after SELECT. */
  lemma GroupedQuerySql(table: string, gs: seq<GroupStatement.Group>, hs: seq<W.Where>)
    requires GroupsValid(gs) && AllValid(hs) && GroupClause(Some(gs)).Ok? && ConditionClause(" HAVING", Some(hs)).Ok?
    ensures var q := Empty.(groups := Some(gs), havings := Some(hs));
      WellFormed(q) && QuerySql(table, q)
      == Ok(S.ToSql(table, S.Default).value.PushSql(GroupClause(Some(gs)).value).PushSql(ConditionClause(" HAVING", Some(hs)).value))
  {
    var q := Empty.(groups := Some(gs), havings := Some(hs));
    QueryAssembled(table, q);
    var sel := S.ToSql(table, S.Default).value;
    assert sel.PushSql(EmptyFragment).PushSql(EmptyFragment) == sel;
    var r := sel.PushSql(GroupClause(Some(gs)).value).PushSql(ConditionClause(" HAVING", Some(hs)).value);
    assert r.PushSql(EmptyFragment).PushSql(EmptyFragment).PushSql(EmptyFragment) == r;
  }

  /**
   * select_manager/mod.rs:384-389: the GROUP BY items in order, then the HAVING conditions;
   * the pieces spell `SELECT * FROM users GROUP BY age,name,province HAVING a = 1 AND b = 2 AND c >= 1 AND c < 100`.
   */
  lemma GroupHavingExample()
    ensures var q := Empty.(groups := Some(Groupings), havings := Some(Havings));
      WellFormed(q) && QuerySql("users", q)
      == Ok(Fragment("SELECT * FROM users" + " GROUP BY age,name,province" + (" HAVING" + " a = 1 AND b = 2" + " AND" + " c >= 1 AND c < 100"), None))
  {
    UsersSelect();
    GroupingsText();
    HavingsText();
    GroupedQuerySql("users", Groupings, Havings);
  }

  /** `order("id desc")`, `order({"created": "desc"})` and `order(vec!["updated_at desc"])`. */
  const Orderings := [OrderStatement.New(Str("id desc")), OrderStatement.New(Object([("created", Str("desc"))])),
                      OrderStatement.New(Array([Str("updated_at desc")]))]

  lemma OrderingsGlue()
    ensures "created" + " " + "desc" == "created desc"
    ensures "id desc" + "," + "created desc" + "," + "updated_at desc" == "id desc,created desc,updated_at desc"
  {
  }

  lemma OrderingsText()
    ensures OrdersValid(Orderings)
    ensures OrderClause(Some(Orderings)) == Ok(Fragment(" ORDER BY " + "id desc,created desc,updated_at desc", None))
  {
    OrderingsGlue();
    assert OrderStatement.Clauses([("created", Str("desc"))]) == ["created desc"];
    assert OrderStatement.Items([Str("updated_at desc")]) == ["updated_at desc"];
    var texts := OrderTexts(Orderings);
    assert texts == ["id desc", "created desc", "updated_at desc"];
    JoinThree("id desc", "created desc", "updated_at desc", ",");
    OrderClauseJoined(Orderings);
  }

  /** Clauses left unset add nothing: a query with only ORDER BY set is that clause after SELECT. */
  lemma OrderedQuerySql(table: string, os: seq<OrderStatement.Order>)
    requires OrdersValid(os) && OrderClause(Some(os)).Ok?
    ensures var q := Empty.(orders := Some(os));
      WellFormed(q) && QuerySql(table, q) == Ok(S.ToSql(table, S.Default).value.PushSql(OrderClause(Some(os)).value))
  {
    var q := Empty.(orders := Some(os));
    QueryAssembled(table, q);
    var sel := S.ToSql(table, S.Default).value;
    assert sel.PushSql(EmptyFragment).PushSql(EmptyFragment).PushSql(EmptyFragment).PushSql(EmptyFragment) == sel;
    var r := sel.PushSql(OrderClause(Some(os)).value);
    assert r.PushSql(EmptyFragment).PushSql(EmptyFragment) == r;
  }

  /** select_manager/mod.rs:392-397: text, object and list orderings, in order and comma-separated. */
  lemma OrderExample()
    ensures var q := Empty.(orders := Some(Orderings));
      WellFormed(q) && QuerySql("users", q)
      == Ok(Fragment("SELECT * FROM users" + (" ORDER BY " + "id desc,created desc,updated_at desc"), None))
  {
    UsersSelect();
    OrderingsText();
    OrderedQuerySql("users", Orderings);
  }

  /** Clauses left unset add nothing: a query with only LIMIT and OFFSET set is those after SELECT. */
  lemma PagedQuerySql(table: string, l: Option<LimitStatement.Limit>, o: Option<OffsetStatement.Offset>)
    ensures var q := Empty.(limit := l, offset := o);
      WellFormed(q) && QuerySql(table, q)
      == Ok(Fragment(S.ToSql(table, S.Default).value.value + LimitClause(l).value + OffsetClause(o).value, None))
  {
    var q := Empty.(limit := l, offset := o);
    QueryAssembled(table, q);
    var sel := S.ToSql(table, S.Default).value;
    assert sel.PushSql(EmptyFragment).PushSql(EmptyFragment).PushSql(EmptyFragment).PushSql(EmptyFragment)
                  .PushSql(EmptyFragment) == sel;
  }

  lemma DecimalExamples()
    ensures NatToString(0) == "0" && NatToString(5) == "5"
    ensures NatToString(10) == "10" && NatToString(20) == "20"
  {
    assert NatToString(1) == "1" && NatToString(2) == "2";
  }

  /** select_manager/mod.rs:400-403: `limit(10)`. */
  lemma LimitExample()
    ensures QuerySql("users", Empty.(limit := Some(LimitStatement.New(10))))
         == Ok(Fragment("SELECT * FROM users" + " LIMIT 10", None))
  {
    UsersSelect();
    DecimalExamples();
    assert " LIMIT " + "10" == " LIMIT 10";
    assert OffsetClause(None).value == "";
    assert "SELECT * FROM users" + " LIMIT 10" + "" == "SELECT * FROM users" + " LIMIT 10";
    PagedQuerySql("users", Some(LimitStatement.New(10)), None);
  }

  /** select_manager/mod.rs:405-409: `offset(5)`. */
  lemma OffsetExample()
    ensures QuerySql("users", Empty.(offset := Some(OffsetStatement.New(5))))
         == Ok(Fragment("SELECT * FROM users" + " OFFSET 5", None))
  {
    UsersSelect();
    DecimalExamples();
    assert " OFFSET " + "5" == " OFFSET 5";
    assert LimitClause(None).value == "";
    assert "SELECT * FROM users" + "" == "SELECT * FROM users";
    PagedQuerySql("users", None, Some(OffsetStatement.New(5)));
  }

  /**
   * select_manager/mod.rs:411-418: `paginate(1, 20)` and `paginate(2, 20)` set a limit of
   * 20 and the offsets of pages 1 and 2.
   */
  lemma PaginateExamples()
    ensures QuerySql("users", Empty.(limit := Some(LimitStatement.Limit(20)), offset := Some(OffsetStatement.Offset(PageStart(1, 20)))))
         == Ok(Fragment("SELECT * FROM users" + " LIMIT 20" + " OFFSET 0", None))
    ensures QuerySql("users", Empty.(limit := Some(LimitStatement.Limit(20)), offset := Some(OffsetStatement.Offset(PageStart(2, 20)))))
         == Ok(Fragment("SELECT * FROM users" + " LIMIT 20" + " OFFSET 20", None))
  {
    UsersSelect();
    DecimalExamples();
    assert " LIMIT " + "20" == " LIMIT 20";
    assert " OFFSET " + "0" == " OFFSET 0" && " OFFSET " + "20" == " OFFSET 20";
    PagedQuerySql("users", Some(LimitStatement.Limit(20)), Some(OffsetStatement.Offset(PageStart(1, 20))));
    PagedQuerySql("users", Some(LimitStatement.Limit(20)), Some(OffsetStatement.Offset(PageStart(2, 20))));
  }
}

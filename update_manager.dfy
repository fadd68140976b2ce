/**
 * The UPDATE statement builder: the assignments (mandatory), conditions (mandatory),
 * ORDER BY items, a limit and an offset.
 */
module UpdateManagers {
  import opened Wrappers
  import opened Strings
  import opened Json
  import opened Collectors
  import opened Clauses
  import W = WhereStatement
  import UpdateStatement
  import InsertStatement
  import OrderStatement
  import LimitStatement
  import OffsetStatement

  /** Everything an update manager has collected. */
  datatype Change = Change(
    update: Option<UpdateStatement.Update>,
    wheres: Option<seq<W.Where>>,
    orders: Option<seq<OrderStatement.Order>>,
    limit: Option<LimitStatement.Limit>,
    offset: Option<OffsetStatement.Offset>)

  const Empty := Change(None, None, None, None, None)

  const UpdateMissing := "update table data update value must exist"

  /** The message for missing conditions is word for word the delete manager's. */
  const WhereMissing := "delete table data where statements must exist"

  predicate WellFormed(c: Change) {
    && (c.wheres.Some? ==> AllValid(c.wheres.value))
    && (c.orders.Some? ==> OrdersValid(c.orders.value))
  }

  /**
   * `UpdateManager::to_sql` for the table `table`: without assignments, or with
   * assignments that fail, or without conditions, there is no statement; otherwise the
   * assignments, then the restriction.
   */
  function ChangeSql(table: string, c: Change): (r: Result<Fragment>)
    requires WellFormed(c)
    ensures c.update.None? ==> r == Err(Message(UpdateMissing))
    ensures c.update.Some? && UpdateStatement.ToSql(table, c.update.value).Ok? && c.wheres.None? ==>
              r == Err(Message(WhereMissing))
    ensures r.Ok? <==> && c.update.Some? && UpdateStatement.ToSql(table, c.update.value).Ok?
                       && c.wheres.Some? && Conditions(c.wheres.value).Ok? && OrderClause(c.orders).Ok?
    ensures r.Ok? ==> UpdateStatement.ToSql(table, c.update.value).value.value + " WHERE" <= r.value.value
    ensures r.Ok? ==> r.value.Params() == UpdateStatement.ToSql(table, c.update.value).value.Params() +
                                          Conditions(c.wheres.value).value.Params()
  {
    match c.update
    case None => Err(Message(UpdateMissing))
    case Some(upd) =>
      var assignments :- UpdateStatement.ToSql(table, upd);
      if c.wheres.None? then Err(Message(WhereMissing))
      else
        var rest :- Restriction(c.wheres.value, c.orders, c.limit, c.offset);
        Assembled(assignments, rest);
        Ok(EmptyFragment.PushSql(assignments).PushSql(rest))
  }

  /** The assignments followed by a restriction that opens with WHERE. */
  lemma Assembled(assignments: Fragment, rest: Fragment)
    requires " WHERE" <= rest.value
    ensures var r := EmptyFragment.PushSql(assignments).PushSql(rest);
            assignments.value + " WHERE" <= r.value && r.Params() == assignments.Params() + rest.Params()
  {
    PrefixAfter(assignments.value, " WHERE", rest.value);
  }

  class UpdateManager {
    const table: string
    var update: Option<UpdateStatement.Update>
    var wheres: Option<seq<W.Where>>
    var orders: Option<seq<OrderStatement.Order>>
    var limit: Option<LimitStatement.Limit>
    var offset: Option<OffsetStatement.Offset>

    function Model(): Change
      reads this
    {
      Change(update, wheres, orders, limit, offset)
    }

    /** `UpdateManager::default` for the table `table`. */
    constructor (table: string)
      ensures this.table == table && Model() == Empty
    {
      this.table := table;
      update, wheres, orders, limit, offset := None, None, None, None, None;
    }

    /** `update`: the assignments, with no prepare flag; replaces any earlier ones. */
    method Update(condition: Value)
      modifies this
      ensures Model() == old(Model()).(update := Some(UpdateStatement.New(condition, None)))
    {
      update := Some(UpdateStatement.New(condition, None));
    }

    /** `update_prepare`: the assignments with their literals deferred. */
    method UpdatePrepare(condition: Value)
      modifies this
      ensures Model() == old(Model()).(update := Some(UpdateStatement.New(condition, Some(true))))
    {
      update := Some(UpdateStatement.New(condition, Some(true)));
    }

    /** `where` and its seven variants: one more condition with the modifiers its name sets. */
    method AddWhere(condition: Value, not: bool, or: bool, prepare: bool)
      modifies this
      ensures Model() == old(Model()).(wheres := Appended(old(wheres), W.New(condition, Flag(not), Flag(or), Flag(prepare))))
    {
      wheres := Appended(wheres, W.New(condition, Flag(not), Flag(or), Flag(prepare)));
    }

    method WhereRange(column: string, start: W.Bound, end: W.Bound)
      requires !(start.Unbounded? && end.Unbounded?)
      modifies this
      ensures Model() == old(Model()).(wheres := Appended(old(wheres), W.NewRange(column, start, end)))
    {
      wheres := Appended(wheres, W.NewRange(column, start, end));
    }

    method AddOrder(condition: Value)
      modifies this
      ensures Model() == old(Model()).(orders := Appended(old(orders), OrderStatement.New(condition)))
    {
      orders := Appended(orders, OrderStatement.New(condition));
    }

    method SetLimit(value: nat)
      requires value <= UsizeMax
      modifies this
      ensures Model() == old(Model()).(limit := Some(LimitStatement.New(value)))
    {
      limit := Some(LimitStatement.New(value));
    }

    method SetOffset(value: nat)
      requires value <= UsizeMax
      modifies this
      ensures Model() == old(Model()).(offset := Some(OffsetStatement.New(value)))
    {
      offset := Some(OffsetStatement.New(value));
    }

    /** `paginate`: page 0 underflows and a start beyond `usize` overflows; both panic. */
    method Paginate(page: nat, size: nat)
      requires page >= 1 && size <= UsizeMax && PageStart(page, size) <= UsizeMax
      modifies this
      ensures Model() == old(Model()).(limit := Some(LimitStatement.Limit(size)),
                                      offset := Some(OffsetStatement.Offset(PageStart(page, size))))
    {
      var start := (page - 1) * size;
      SetLimit(size);
      SetOffset(start);
    }

    method ToSql() returns (r: Result<Fragment>)
      requires WellFormed(Model())
      ensures r == ChangeSql(table, Model())
    {
      if update.None? {
        return Err(Message(UpdateMissing));
      }
      var assignments :- UpdateStatement.UpdateToSql(table, update.value);
      if wheres.None? {
        return Err(Message(WhereMissing));
      }
      var rest :- RestrictionToSql(wheres.value, orders, limit, offset);
      r := Ok(EmptyFragment.PushSql(assignments).PushSql(rest));
    }
  }

  /** The same change with the assignments' and the conditions' literals written inline. */
  function Inline(c: Change): (r: Change)
    ensures c.update.Some? <==> r.update.Some?
    ensures c.update.Some? ==> r.update.value == c.update.value.(prepare := None)
    ensures r.wheres == UnpreparedClause(c.wheres)
    ensures r.(update := c.update, wheres := c.wheres) == c
  {
    var update := if c.update.Some? then Some(c.update.value.(prepare := None)) else None;
    c.(update := update, wheres := UnpreparedClause(c.wheres))
  }

  /** A prepared change renders to the statement its all-inline counterpart gives. */
  lemma ChangePrepared(table: string, c: Change)
    requires WellFormed(c) && ChangeSql(table, c).Ok? && Unmarked(table)
    requires c.update.Some? && c.update.value.value.Some? ==> Plain(c.update.value.value.value)
    requires c.wheres.Some? ==> AllAgreeable(c.wheres.value)
    requires c.orders.Some? ==> PlainOrders(c.orders.value)
    ensures WellFormed(Inline(c)) && ChangeSql(table, Inline(c)).Ok?
    ensures Agree(ChangeSql(table, c).value, ChangeSql(table, Inline(c)).value)
    ensures Render(ChangeSql(table, c).value) == Ok(Literal(ChangeSql(table, Inline(c)).value))
  {
    var upd := c.update.value;
    var ws := c.wheres.value;
    UpdateStatement.UpdatePrepared(table, upd);
    RestrictionPrepared(ws, c.orders, c.limit, c.offset);
    var a := UpdateStatement.ToSql(table, upd).value;
    var ia := UpdateStatement.ToSql(table, upd.(prepare := None)).value;
    AgreeUnmarked(EmptyFragment);
    AgreePushSql(EmptyFragment, EmptyFragment, a, ia);
    AgreePushSql(EmptyFragment.PushSql(a), EmptyFragment.PushSql(ia),
                 Restriction(ws, c.orders, c.limit, c.offset).value,
                 Restriction(Unprepared(ws), c.orders, c.limit, c.offset).value);
    AgreeRender(ChangeSql(table, c).value, ChangeSql(table, Inline(c)).value);
  }

  /** Clauses left unset add nothing: assignments and conditions give the assignments, then WHERE and the conditions. */
  lemma ConditionedChange(table: string, u: UpdateStatement.Update, ws: seq<W.Where>)
    requires AllValid(ws) && UpdateStatement.ToSql(table, u).Ok? && Conditions(ws).Ok?
    ensures var c := Empty.(update := Some(u), wheres := Some(ws));
      WellFormed(c) && ChangeSql(table, c)
      == Ok(UpdateStatement.ToSql(table, u).value.PushSql(ConditionClause(" WHERE", Some(ws)).value))
  {
    var a, w := UpdateStatement.ToSql(table, u).value, ConditionClause(" WHERE", Some(ws)).value;
    assert EmptyFragment.PushSql(a) == a;
    assert w.PushSql(EmptyFragment).PushSql(EmptyFragment).PushSql(EmptyFragment) == w;
  }

  /** The sample row with `b` true, the column literals inline or deferred. */
  function SampleChange(prepare: bool): Change {
    Empty.(update := Some(UpdateStatement.New(Object(InsertStatement.SampleRow(true)), if prepare then Some(true) else None)),
           wheres := Some([PlainWhere]))
  }

  /** The statement the update manager's test expects, in both modes. */
  const SampleStatement := "UPDATE users SET" + " " + ("a = 1" + ", " + "b = 1" + ", " + "c = null" + ", " + "d = 'desc'") + (" WHERE" + " a = 1")

  /** The sample change is well formed, and its parts render as the test expects. */
  lemma SampleParts(prepare: bool)
    ensures WellFormed(SampleChange(prepare))
    ensures ChangeSql("users", SampleChange(prepare))
         == Ok(UpdateStatement.ToSql("users", SampleChange(prepare).update.value).value.PushSql(Fragment(" WHERE" + " a = 1", None)))
  {
    if prepare {
      UpdateStatement.SampleMarks(true);
    } else {
      UpdateStatement.SampleAssignments(true);
    }
    PlainWhereClause();
    ConditionedChange("users", SampleChange(prepare).update.value, [PlainWhere]);
  }

  /** update_manager/mod.rs:199-207: without assignments there is no statement; `update` with `where("a = 1")` renders the assignments, then the condition. */
  lemma SampleExample()
    ensures WellFormed(Empty) && ChangeSql("users", Empty) == Err(Message(UpdateMissing))
    ensures WellFormed(SampleChange(false)) && ChangeSql("users", SampleChange(false)) == Ok(Fragment(SampleStatement, None))
  {
    SampleParts(false);
    UpdateStatement.SampleAssignments(true);
    assert "b = " + "1" == "b = 1";
  }

  /** When the all-inline counterpart defers nothing, a prepared change renders to its text. */
  lemma ChangeRendersInline(table: string, c: Change)
    requires WellFormed(c) && ChangeSql(table, c).Ok? && Unmarked(table)
    requires c.update.Some? && c.update.value.value.Some? ==> Plain(c.update.value.value.value)
    requires c.wheres.Some? ==> AllAgreeable(c.wheres.value)
    requires c.orders.Some? ==> PlainOrders(c.orders.value)
    requires WellFormed(Inline(c)) && ChangeSql(table, Inline(c)).Ok? && ChangeSql(table, Inline(c)).value.prepare.None?
    ensures Marks(ChangeSql(table, c).value.value) == |ChangeSql(table, c).value.Params()|
    ensures Render(ChangeSql(table, c).value) == Ok(ChangeSql(table, Inline(c)).value.value)
  {
    ChangePrepared(table, c);
    FillUnmarked(ChangeSql(table, Inline(c)).value.value, []);
  }

  /** The prepared sample with its literals inline is the plain sample, and nothing in it holds a mark. */
  lemma SampleInline()
    ensures Inline(SampleChange(true)) == SampleChange(false)
    ensures Unmarked("users") && Plain(Object(InsertStatement.SampleRow(true))) && AllAgreeable([PlainWhere])
  {
    assert Unprepared([PlainWhere]) == [PlainWhere] by {
      assert Unprepared([PlainWhere])[0] == PlainWhere;
    }
    assert "a = 1"[0] != '?' && "a = 1"[1] != '?' && "a = 1"[2] != '?' && "a = 1"[3] != '?' && "a = 1"[4] != '?';
    assert "desc"[0] != '?' && "desc"[1] != '?' && "desc"[2] != '?' && "desc"[3] != '?';
    assert "1"[0] != '?';
    assert "users"[0] != '?' && "users"[1] != '?' && "users"[2] != '?' && "users"[3] != '?' && "users"[4] != '?';
  }

  /**
   * update_manager/mod.rs:208-211: `update_prepare` defers the four literals behind four
   * marks and renders, once they are filled in, to the same string.
   */
  lemma SamplePreparedExample()
    ensures WellFormed(SampleChange(true)) && ChangeSql("users", SampleChange(true)).Ok?
    ensures ChangeSql("users", SampleChange(true)).value.Params() == ["1", "1", "null", "'desc'"]
    ensures Marks(ChangeSql("users", SampleChange(true)).value.value) == 4
    ensures Render(ChangeSql("users", SampleChange(true)).value) == Ok(SampleStatement)
  {
    SampleParts(true);
    UpdateStatement.SampleMarks(true);
    SampleExample();
    SampleInline();
    ChangeRendersInline("users", SampleChange(true));
  }
}

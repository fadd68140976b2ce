/**
 * The clause lists the statement managers render after their head: joins, WHERE and
 * HAVING conditions, GROUP BY and ORDER BY items, LIMIT and OFFSET. Every manager
 * writes these loops the same way; they are defined once here.
 */
module Clauses {
  import opened Wrappers
  import opened Strings
  import opened Json
  import opened Collectors
  import W = WhereStatement
  import OrderStatement
  import GroupStatement
  import JoinStatement
  import LimitStatement
  import OffsetStatement

  /** How the builder methods record a modifier their name carries: set, or left unset. */
  function Flag(b: bool): (r: Option<bool>)
    ensures IsSet(r) <==> b
  {
    if b then Some(true) else None
  }

  /** A builder's list after one more push: created as `[x]` when absent. */
  function Appended<T>(xs: Option<seq<T>>, x: T): (r: Option<seq<T>>)
    ensures r.Some? && |r.value| == |xs.GetOr([])| + 1
    ensures r.value[..|r.value| - 1] == xs.GetOr([]) && r.value[|r.value| - 1] == x
  {
    Some(xs.GetOr([]) + [x])
  }

  /**
   * Where `paginate` starts: page `page`, counted from 1, of `size` rows begins after
   * the rows of all earlier pages.
   */
  function PageStart(page: nat, size: nat): (r: nat)
    requires page >= 1
    ensures page == 1 ==> r == 0
    ensures page > 1 ==> r == PageStart(page - 1, size) + size
  {
    (page - 1) * size
  }

  // ---------------------------------------------------------------------------
  // WHERE and HAVING

  predicate AllValid(ws: seq<W.Where>) {
    forall i :: 0 <= i < |ws| ==> W.Valid(ws[i])
  }

  /** One turn of the condition loop: ` AND` unless it is the first condition, then the condition as written. */
  function Continued(sql: Fragment, first: bool, w: W.Where, c: Fragment): Fragment {
    var s := if first then sql else sql.PushValue(" AND");
    if IsSet(w.or) then s.PushValue(" (").PushSql(c).Push(')') else s.Push(' ').PushSql(c)
  }

  /**
   * The conditions in order, ` AND` between two of them, each written ` c`, or ` (c)`
   * when it is an or-condition; the first condition that fails fails the list.
   */
  function Conditions(ws: seq<W.Where>): (r: Result<Fragment>)
    requires AllValid(ws)
    ensures r.Ok? <==> forall i :: 0 <= i < |ws| ==> W.ToSql(ws[i]).Ok?
    decreases |ws|
  {
    if |ws| == 0 then Ok(EmptyFragment)
    else
      var init := ws[..|ws| - 1];
      assert forall i :: 0 <= i < |init| ==> init[i] == ws[i];
      assert (forall i :: 0 <= i < |ws| ==> W.ToSql(ws[i]).Ok?)
         <==> (forall i :: 0 <= i < |init| ==> W.ToSql(init[i]).Ok?) && W.ToSql(ws[|ws| - 1]).Ok?;
      var head :- Conditions(init);
      var w := ws[|ws| - 1];
      var c :- W.ToSql(w);
      var sql := if |ws| > 1 then head.PushValue(" AND") else head;
      Ok(if IsSet(w.or) then sql.PushValue(" (").PushSql(c).Push(')') else sql.Push(' ').PushSql(c))
  }

  /** ` WHERE` or ` HAVING` followed by the conditions; nothing when there is no list. */
  function ConditionClause(keyword: string, ws: Option<seq<W.Where>>): (r: Result<Fragment>)
    requires ws.Some? ==> AllValid(ws.value)
    ensures ws.None? ==> r == Ok(EmptyFragment)
    ensures ws.Some? ==> (r.Ok? <==> Conditions(ws.value).Ok?)
    ensures ws.Some? && r.Ok? ==> keyword <= r.value.value && r.value.Params() == Conditions(ws.value).value.Params()
  {
    match ws
    case None => Ok(EmptyFragment)
    case Some(ws) =>
      var c :- Conditions(ws);
      Ok(Fragment(keyword, None).PushSql(c))
  }

  /** The condition clause as the managers build it: the keyword, then the condition loop. */
  method ConditionClauseToSql(keyword: string, ws: Option<seq<W.Where>>) returns (r: Result<Fragment>)
    requires ws.Some? ==> AllValid(ws.value)
    ensures r == ConditionClause(keyword, ws)
  {
    if ws.None? {
      return Ok(EmptyFragment);
    }
    var c :- ConditionsToSql(ws.value);
    r := Ok(Fragment(keyword, None).PushSql(c));
  }

  lemma {:induction false} ConditionsPrefixErr(ws: seq<W.Where>, k: nat)
    requires k <= |ws| && AllValid(ws) && Conditions(ws[..k]).Err?
    ensures Conditions(ws).Err? && Conditions(ws) == Conditions(ws[..k])
    decreases |ws|
  {
    if k < |ws| {
      var init := ws[..|ws| - 1];
      assert init[..k] == ws[..k];
      ConditionsPrefixErr(init, k);
    } else {
      assert ws[..k] == ws;
    }
  }

  /** One more condition continues the conditions before it by one turn of the loop. */
  lemma ConditionsStep(ws: seq<W.Where>, k: nat)
    requires k < |ws| && AllValid(ws) && Conditions(ws[..k]).Ok?
    ensures W.ToSql(ws[k]).Err? ==> Conditions(ws[..k + 1]) == Err(W.ToSql(ws[k]).error)
    ensures W.ToSql(ws[k]).Ok? ==>
      Conditions(ws[..k + 1]) == Ok(Continued(Conditions(ws[..k]).value, k == 0, ws[k], W.ToSql(ws[k]).value))
  {
    var next := ws[..k + 1];
    assert next[..k] == ws[..k] && next[k] == ws[k];
  }

  /** One turn of the condition loop: ` AND` unless it is the first, then the condition. */
  method ConditionToSql(sql: Fragment, first: bool, w: W.Where) returns (r: Result<Fragment>)
    requires W.Valid(w)
    ensures W.ToSql(w).Err? ==> r == Err(W.ToSql(w).error)
    ensures W.ToSql(w).Ok? ==> r == Ok(Continued(sql, first, w, W.ToSql(w).value))
  {
    var s := sql;
    if !first {
      s := s.PushValue(" AND");
    }
    var c := W.WhereToSql(w);
    if c.Err? {
      return Err(c.error);
    }
    if IsSet(w.or) {
      s := s.PushValue(" (").PushSql(c.value).Push(')');
    } else {
      s := s.Push(' ').PushSql(c.value);
    }
    r := Ok(s);
  }

  /** The condition loop of every manager's `to_sql`. */
  method ConditionsToSql(ws: seq<W.Where>) returns (r: Result<Fragment>)
    requires AllValid(ws)
    ensures r == Conditions(ws)
  {
    var sql := EmptyFragment;
    var idx := 0;
    while idx < |ws|
      invariant 0 <= idx <= |ws|
      invariant Conditions(ws[..idx]) == Ok(sql)
    {
      ConditionsStep(ws, idx);
      var next := ConditionToSql(sql, idx == 0, ws[idx]);
      if next.Err? {
        ConditionsPrefixErr(ws, idx + 1);
        return Err(next.error);
      }
      sql := next.value;
      idx := idx + 1;
    }
    assert ws[..idx] == ws;
    r := Ok(sql);
  }

  /** The same conditions with the prepare flag cleared. */
  function Unprepared(ws: seq<W.Where>): (r: seq<W.Where>)
    ensures |r| == |ws| && forall i :: 0 <= i < |ws| ==> r[i] == ws[i].(prepare := None)
  {
    seq(|ws|, i requires 0 <= i < |ws| => ws[i].(prepare := None))
  }

  predicate AllAgreeable(ws: seq<W.Where>) {
    forall i :: 0 <= i < |ws| ==> ws[i].value.Some? && W.Agreeable(ws[i].value.value)
  }

  /** A list of prepared conditions renders like the same list with every literal inline. */
  lemma {:induction false} ConditionsPrepared(ws: seq<W.Where>)
    requires AllValid(ws) && AllAgreeable(ws) && Conditions(ws).Ok?
    ensures AllValid(Unprepared(ws)) && Conditions(Unprepared(ws)).Ok?
    ensures Agree(Conditions(ws).value, Conditions(Unprepared(ws)).value)
    decreases |ws|
  {
    var us := Unprepared(ws);
    assert AllValid(us);
    if |ws| == 0 {
      AgreePlain("");
    } else {
      var n := |ws|;
      var init := ws[..n - 1];
      assert Unprepared(init) == us[..n - 1];
      ConditionsPrepared(init);
      var w := ws[n - 1];
      W.WherePrepared(w);
      var headP, headI := Conditions(init).value, Conditions(us[..n - 1]).value;
      var cP, cI := W.ToSql(w).value, W.ToSql(us[n - 1]).value;
      var sep := if n > 1 then " AND" else "";
      AgreePushValue(headP, headI, sep);
      assert (if n > 1 then headP.PushValue(" AND") else headP) == headP.PushValue(sep);
      assert (if n > 1 then headI.PushValue(" AND") else headI) == headI.PushValue(sep);
      if IsSet(w.or) {
        AgreePushValue(headP.PushValue(sep), headI.PushValue(sep), " (");
        AgreePushSql(headP.PushValue(sep).PushValue(" ("), headI.PushValue(sep).PushValue(" ("), cP, cI);
        AgreePushValue(headP.PushValue(sep).PushValue(" (").PushSql(cP), headI.PushValue(sep).PushValue(" (").PushSql(cI), ")");
      } else {
        AgreePushValue(headP.PushValue(sep), headI.PushValue(sep), " ");
        AgreePushSql(headP.PushValue(sep).PushValue(" "), headI.PushValue(sep).PushValue(" "), cP, cI);
      }
    }
  }

  /** How the condition loop writes a condition whose text is `c`: ` (c)` for an or-condition, ` c` otherwise. */
  function Wrapped(w: W.Where, c: string): string {
    if IsSet(w.or) then " (" + c + ")" else " " + c
  }

  /** Every condition renders. */
  predicate AllRender(ws: seq<W.Where>) {
    AllValid(ws) && forall i :: 0 <= i < |ws| ==> W.ToSql(ws[i]).Ok?
  }

  /** The written texts of conditions that all render, in order. */
  function ConditionTexts(ws: seq<W.Where>): (r: seq<string>)
    requires AllRender(ws)
    ensures |r| == |ws| && forall i :: 0 <= i < |ws| ==> r[i] == Wrapped(ws[i], W.ToSql(ws[i]).value.value)
  {
    seq(|ws|, i requires 0 <= i < |ws| => Wrapped(ws[i], W.ToSql(ws[i]).value.value))
  }

  /** The condition list as one text: the written conditions separated by ` AND`, in insertion order. */
  lemma {:induction false} ConditionsJoined(ws: seq<W.Where>)
    requires AllValid(ws) && Conditions(ws).Ok?
    ensures Conditions(ws).value.value == Join(ConditionTexts(ws), " AND")
    decreases |ws|
  {
    var n := |ws|;
    if n > 0 {
      var init := ws[..n - 1];
      var last := Wrapped(ws[n - 1], W.ToSql(ws[n - 1]).value.value);
      ConditionsSnoc(ws);
      ContinuedText(Conditions(init).value, n == 1, ws[n - 1], W.ToSql(ws[n - 1]).value);
      ConditionTextsSnoc(ws);
      if n > 1 {
        ConditionsJoined(init);
        JoinSnoc(ConditionTexts(init), last, " AND");
      }
    }
  }

  /** The last condition's written text ends the list of written texts. */
  lemma ConditionTextsSnoc(ws: seq<W.Where>)
    requires |ws| > 0 && AllRender(ws)
    ensures AllRender(ws[..|ws| - 1])
    ensures ConditionTexts(ws) == ConditionTexts(ws[..|ws| - 1]) + [Wrapped(ws[|ws| - 1], W.ToSql(ws[|ws| - 1]).value.value)]
  {
    var init := ws[..|ws| - 1];
    assert forall i :: 0 <= i < |init| ==> init[i] == ws[i];
  }

  /** A turn adds ` AND`, unless it is the first, and the condition's written text. */
  lemma ContinuedText(sql: Fragment, first: bool, w: W.Where, c: Fragment)
    ensures Continued(sql, first, w, c).value == sql.value + (if first then "" else " AND") + Wrapped(w, c.value)
  {
    var s := if first then sql else sql.PushValue(" AND");
    assert s.value == sql.value + (if first then "" else " AND");
    if IsSet(w.or) {
      Regrouped(s.value, " (", c.value, ")");
    } else {
      Regrouped(s.value, " ", c.value, "");
    }
  }

  lemma Regrouped(head: string, open: string, c: string, close: string)
    ensures head + open + c + close == head + (open + c + close)
  {
  }

  /** The last condition continues the list of the conditions before it by one turn of the loop. */
  lemma ConditionsSnoc(ws: seq<W.Where>)
    requires |ws| > 0 && AllValid(ws) && Conditions(ws).Ok?
    ensures Conditions(ws[..|ws| - 1]).Ok?
    ensures Conditions(ws).value
         == Continued(Conditions(ws[..|ws| - 1]).value, |ws| == 1, ws[|ws| - 1], W.ToSql(ws[|ws| - 1]).value)
  {
  }

  /** A WHERE or HAVING clause as one text: the keyword, then the written conditions separated by ` AND`. */
  lemma ConditionClauseJoined(keyword: string, ws: seq<W.Where>)
    requires AllValid(ws) && Conditions(ws).Ok?
    ensures ConditionClause(keyword, Some(ws)).Ok?
    ensures ConditionClause(keyword, Some(ws)).value.value == keyword + Join(ConditionTexts(ws), " AND")
  {
    ConditionsJoined(ws);
  }

  /** Conditions that each defer nothing give a list that defers nothing. */
  lemma {:induction false} ConditionsPlain(ws: seq<W.Where>)
    requires AllValid(ws) && Conditions(ws).Ok?
    requires forall i :: 0 <= i < |ws| ==> W.ToSql(ws[i]).value.prepare.None?
    ensures Conditions(ws).value.prepare.None?
    decreases |ws|
  {
    var n := |ws|;
    if n > 0 {
      var init := ws[..n - 1];
      ConditionsSnoc(ws);
      assert forall i :: 0 <= i < |init| ==> init[i] == ws[i];
      ConditionsPlain(init);
    }
  }

  /** `where("a = 1")`, the condition the delete and update managers' tests share. */
  const PlainWhere := W.New(Str("a = 1"), None, None, None)

  lemma PlainWhereClause()
    ensures AllValid([PlainWhere])
    ensures ConditionClause(" WHERE", Some([PlainWhere])) == Ok(Fragment(" WHERE" + " a = 1", None))
  {
    assert " " + "a = 1" == " a = 1";
    assert ConditionTexts([PlainWhere]) == [" a = 1"];
    ConditionClauseJoined(" WHERE", [PlainWhere]);
    ConditionsPlain([PlainWhere]);
  }

  // ---------------------------------------------------------------------------
  // Joins

  /** Every join clause, each preceded by a space. */
  function Joins(js: seq<JoinStatement.Join>): (r: Result<Fragment>)
    ensures r.Ok? <==> forall i :: 0 <= i < |js| ==> js[i].value.Some?
    ensures r.Ok? ==> r.value.prepare.None?
    decreases |js|
  {
    if |js| == 0 then Ok(EmptyFragment)
    else
      var init := js[..|js| - 1];
      assert forall i :: 0 <= i < |init| ==> init[i] == js[i];
      var head :- Joins(init);
      var j :- JoinStatement.ToSql(js[|js| - 1]);
      Ok(head.Push(' ').PushSql(j))
  }

  lemma {:induction false} JoinsPrefixErr(js: seq<JoinStatement.Join>, k: nat)
    requires k <= |js| && Joins(js[..k]).Err?
    ensures Joins(js) == Joins(js[..k])
    decreases |js|
  {
    if k < |js| {
      var init := js[..|js| - 1];
      assert init[..k] == js[..k];
      JoinsPrefixErr(init, k);
    } else {
      assert js[..k] == js;
    }
  }

  method JoinsToSql(js: seq<JoinStatement.Join>) returns (r: Result<Fragment>)
    ensures r == Joins(js)
  {
    var sql := EmptyFragment;
    var idx := 0;
    while idx < |js|
      invariant 0 <= idx <= |js|
      invariant Joins(js[..idx]) == Ok(sql)
    {
      assert js[..idx + 1][..idx] == js[..idx];
      var j := JoinStatement.ToSql(js[idx]);
      if j.Err? {
        JoinsPrefixErr(js, idx + 1);
        return Err(j.error);
      }
      sql := sql.Push(' ').PushSql(j.value);
      idx := idx + 1;
    }
    assert js[..idx] == js;
    r := Ok(sql);
  }

  /** The join clauses; nothing when there is no list. */
  function JoinClause(js: Option<seq<JoinStatement.Join>>): (r: Result<Fragment>)
    ensures js.None? ==> r == Ok(EmptyFragment)
    ensures js.Some? ==> r == Joins(js.value)
    ensures r.Ok? ==> r.value.prepare.None?
  {
    match js
    case None => Ok(EmptyFragment)
    case Some(js) => Joins(js)
  }

  /** The texts of joins that all have one. */
  function JoinTexts(js: seq<JoinStatement.Join>): (r: seq<string>)
    requires forall i :: 0 <= i < |js| ==> js[i].value.Some?
    ensures |r| == |js| && forall i :: 0 <= i < |js| ==> r[i] == js[i].value.value
  {
    seq(|js|, i requires 0 <= i < |js| => js[i].value.value)
  }

  /** The join clauses as one text: a space, then the clauses separated by spaces. */
  lemma {:induction false} JoinsJoined(js: seq<JoinStatement.Join>)
    requires |js| > 0 && Joins(js).Ok?
    ensures Joins(js).value.value == " " + Join(JoinTexts(js), " ")
    decreases |js|
  {
    var n := |js|;
    var init := js[..n - 1];
    var last := js[n - 1].value.value;
    JoinsSnoc(js);
    if n == 1 {
      assert JoinTexts(js) == [last];
    } else {
      JoinsJoined(init);
      var before := Join(JoinTexts(init), " ");
      assert JoinTexts(js) == JoinTexts(init) + [last];
      JoinSnoc(JoinTexts(init), last, " ");
      assert (" " + before) + " " + last == " " + (before + " " + last);
    }
  }

  /** The last join adds a space and its text to the clauses before it. */
  lemma JoinsSnoc(js: seq<JoinStatement.Join>)
    requires |js| > 0 && Joins(js).Ok?
    ensures Joins(js[..|js| - 1]).Ok?
    ensures Joins(js).value.value == Joins(js[..|js| - 1]).value.value + " " + js[|js| - 1].value.value
  {
    var init := js[..|js| - 1];
    assert forall i :: 0 <= i < |init| ==> init[i] == js[i];
  }

  // ---------------------------------------------------------------------------
  // GROUP BY and ORDER BY

  predicate GroupsValid(gs: seq<GroupStatement.Group>) {
    forall i :: 0 <= i < |gs| ==> GroupStatement.Valid(gs[i])
  }

  /** The grouping items in order, separated by commas. */
  function Groups(gs: seq<GroupStatement.Group>): (r: Result<Fragment>)
    requires GroupsValid(gs)
    ensures r.Ok? <==> forall i :: 0 <= i < |gs| ==> GroupStatement.ToSql(gs[i]).Ok?
    ensures r.Ok? ==> r.value.prepare.None?
    decreases |gs|
  {
    if |gs| == 0 then Ok(EmptyFragment)
    else
      var init := gs[..|gs| - 1];
      assert forall i :: 0 <= i < |init| ==> init[i] == gs[i];
      assert (forall i :: 0 <= i < |gs| ==> GroupStatement.ToSql(gs[i]).Ok?)
         <==> (forall i :: 0 <= i < |init| ==> GroupStatement.ToSql(init[i]).Ok?) && GroupStatement.ToSql(gs[|gs| - 1]).Ok?;
      var head :- Groups(init);
      var g :- GroupStatement.ToSql(gs[|gs| - 1]);
      var sql := if |gs| > 1 then head.Push(',') else head;
      Ok(sql.PushSql(g))
  }

  function GroupClause(gs: Option<seq<GroupStatement.Group>>): (r: Result<Fragment>)
    requires gs.Some? ==> GroupsValid(gs.value)
    ensures gs.None? ==> r == Ok(EmptyFragment)
    ensures gs.Some? ==> (r.Ok? <==> Groups(gs.value).Ok?)
    ensures r.Ok? ==> r.value.prepare.None?
  {
    match gs
    case None => Ok(EmptyFragment)
    case Some(gs) =>
      var g :- Groups(gs);
      Ok(Fragment(" GROUP BY ", None).PushSql(g))
  }

  lemma {:induction false} GroupsPrefixErr(gs: seq<GroupStatement.Group>, k: nat)
    requires k <= |gs| && GroupsValid(gs) && Groups(gs[..k]).Err?
    ensures Groups(gs) == Groups(gs[..k])
    decreases |gs|
  {
    if k < |gs| {
      var init := gs[..|gs| - 1];
      assert init[..k] == gs[..k];
      GroupsPrefixErr(init, k);
    } else {
      assert gs[..k] == gs;
    }
  }

  method GroupsToSql(gs: seq<GroupStatement.Group>) returns (r: Result<Fragment>)
    requires GroupsValid(gs)
    ensures r == Groups(gs)
  {
    var sql := EmptyFragment;
    var idx := 0;
    while idx < |gs|
      invariant 0 <= idx <= |gs|
      invariant Groups(gs[..idx]) == Ok(sql)
    {
      assert gs[..idx + 1][..idx] == gs[..idx];
      if idx > 0 {
        sql := sql.Push(',');
      }
      var g := GroupStatement.ToSql(gs[idx]);
      if g.Err? {
        GroupsPrefixErr(gs, idx + 1);
        return Err(g.error);
      }
      sql := sql.PushSql(g.value);
      idx := idx + 1;
    }
    assert gs[..idx] == gs;
    r := Ok(sql);
  }

  predicate OrdersValid(os: seq<OrderStatement.Order>) {
    forall i :: 0 <= i < |os| ==> OrderStatement.Valid(os[i])
  }

  /** The ordering items in order, separated by commas. */
  function Orders(os: seq<OrderStatement.Order>): (r: Result<Fragment>)
    requires OrdersValid(os)
    ensures r.Ok? <==> forall i :: 0 <= i < |os| ==> OrderStatement.ToSql(os[i]).Ok?
    ensures r.Ok? ==> r.value.prepare.None?
    decreases |os|
  {
    if |os| == 0 then Ok(EmptyFragment)
    else
      var init := os[..|os| - 1];
      assert forall i :: 0 <= i < |init| ==> init[i] == os[i];
      assert (forall i :: 0 <= i < |os| ==> OrderStatement.ToSql(os[i]).Ok?)
         <==> (forall i :: 0 <= i < |init| ==> OrderStatement.ToSql(init[i]).Ok?) && OrderStatement.ToSql(os[|os| - 1]).Ok?;
      var head :- Orders(init);
      var o :- OrderStatement.ToSql(os[|os| - 1]);
      var sql := if |os| > 1 then head.Push(',') else head;
      Ok(sql.PushSql(o))
  }

  function OrderClause(os: Option<seq<OrderStatement.Order>>): (r: Result<Fragment>)
    requires os.Some? ==> OrdersValid(os.value)
    ensures os.None? ==> r == Ok(EmptyFragment)
    ensures os.Some? ==> (r.Ok? <==> Orders(os.value).Ok?)
    ensures r.Ok? ==> r.value.prepare.None?
  {
    match os
    case None => Ok(EmptyFragment)
    case Some(os) =>
      var o :- Orders(os);
      Ok(Fragment(" ORDER BY ", None).PushSql(o))
  }

  lemma {:induction false} OrdersPrefixErr(os: seq<OrderStatement.Order>, k: nat)
    requires k <= |os| && OrdersValid(os) && Orders(os[..k]).Err?
    ensures Orders(os) == Orders(os[..k])
    decreases |os|
  {
    if k < |os| {
      var init := os[..|os| - 1];
      assert init[..k] == os[..k];
      OrdersPrefixErr(init, k);
    } else {
      assert os[..k] == os;
    }
  }

  method OrdersToSql(os: seq<OrderStatement.Order>) returns (r: Result<Fragment>)
    requires OrdersValid(os)
    ensures r == Orders(os)
  {
    var sql := EmptyFragment;
    var idx := 0;
    while idx < |os|
      invariant 0 <= idx <= |os|
      invariant Orders(os[..idx]) == Ok(sql)
    {
      assert os[..idx + 1][..idx] == os[..idx];
      if idx > 0 {
        sql := sql.Push(',');
      }
      var o := OrderStatement.OrderToSql(os[idx]);
      if o.Err? {
        OrdersPrefixErr(os, idx + 1);
        return Err(o.error);
      }
      sql := sql.PushSql(o.value);
      idx := idx + 1;
    }
    assert os[..idx] == os;
    r := Ok(sql);
  }

  /** The texts of groups that all render, in order. */
  function GroupTexts(gs: seq<GroupStatement.Group>): (r: seq<string>)
    requires GroupsValid(gs) && forall i :: 0 <= i < |gs| ==> GroupStatement.ToSql(gs[i]).Ok?
    ensures |r| == |gs| && forall i :: 0 <= i < |gs| ==> r[i] == GroupStatement.ToSql(gs[i]).value.value
  {
    seq(|gs|, i requires 0 <= i < |gs| => GroupStatement.ToSql(gs[i]).value.value)
  }

  /** The grouping list as one text: the groups' texts separated by commas, in insertion order. */
  lemma {:induction false} GroupsJoined(gs: seq<GroupStatement.Group>)
    requires GroupsValid(gs) && Groups(gs).Ok?
    ensures Groups(gs).value.value == Join(GroupTexts(gs), ",")
    decreases |gs|
  {
    var n := |gs|;
    if n > 0 {
      var init := gs[..n - 1];
      assert forall i :: 0 <= i < |init| ==> init[i] == gs[i];
      var head := Groups(init).value.value;
      var last := GroupStatement.ToSql(gs[n - 1]).value.value;
      assert Groups(gs).value.value == head + (if n > 1 then "," else "") + last;
      if n == 1 {
        assert GroupTexts(gs) == [last];
      } else {
        GroupsJoined(init);
        assert GroupTexts(gs) == GroupTexts(init) + [last];
        JoinSnoc(GroupTexts(init), last, ",");
      }
    }
  }

  /** A GROUP BY clause as one text: the keyword, then the groups' texts separated by commas. */
  lemma GroupClauseJoined(gs: seq<GroupStatement.Group>)
    requires GroupsValid(gs) && Groups(gs).Ok?
    ensures GroupClause(Some(gs)).Ok?
    ensures GroupClause(Some(gs)).value.value == " GROUP BY " + Join(GroupTexts(gs), ",")
  {
    GroupsJoined(gs);
  }

  /** The texts of orders that all render, in order. */
  function OrderTexts(os: seq<OrderStatement.Order>): (r: seq<string>)
    requires OrdersValid(os) && forall i :: 0 <= i < |os| ==> OrderStatement.ToSql(os[i]).Ok?
    ensures |r| == |os| && forall i :: 0 <= i < |os| ==> r[i] == OrderStatement.ToSql(os[i]).value.value
  {
    seq(|os|, i requires 0 <= i < |os| => OrderStatement.ToSql(os[i]).value.value)
  }

  /** The ordering list as one text: the orders' texts separated by commas, in insertion order. */
  lemma {:induction false} OrdersJoined(os: seq<OrderStatement.Order>)
    requires OrdersValid(os) && Orders(os).Ok?
    ensures Orders(os).value.value == Join(OrderTexts(os), ",")
    decreases |os|
  {
    var n := |os|;
    if n > 0 {
      var init := os[..n - 1];
      assert forall i :: 0 <= i < |init| ==> init[i] == os[i];
      var head := Orders(init).value.value;
      var last := OrderStatement.ToSql(os[n - 1]).value.value;
      assert Orders(os).value.value == head + (if n > 1 then "," else "") + last;
      if n == 1 {
        assert OrderTexts(os) == [last];
      } else {
        OrdersJoined(init);
        assert OrderTexts(os) == OrderTexts(init) + [last];
        JoinSnoc(OrderTexts(init), last, ",");
      }
    }
  }

  /** An ORDER BY clause as one text: the keyword, then the orders' texts separated by commas. */
  lemma OrderClauseJoined(os: seq<OrderStatement.Order>)
    requires OrdersValid(os) && Orders(os).Ok?
    ensures OrderClause(Some(os)).Ok?
    ensures OrderClause(Some(os)).value.value == " ORDER BY " + Join(OrderTexts(os), ",")
  {
    OrdersJoined(os);
  }

  // ---------------------------------------------------------------------------
  // LIMIT and OFFSET

  /** ` LIMIT n` when a limit is set. */
  function LimitClause(l: Option<LimitStatement.Limit>): (r: Fragment)
    ensures r.prepare.None? && Unmarked(r.value)
    ensures l.None? <==> r.value == ""
    ensures l.Some? ==> r.value == " LIMIT " + NatToString(l.value.value)
  {
    match l
    case None => EmptyFragment
    case Some(l) =>
      assert [' '] + LimitStatement.Keyword == " LIMIT ";
      EmptyFragment.Push(' ').PushSql(LimitStatement.ToSql(l).value)
  }

  /** ` OFFSET n` when an offset is set. */
  function OffsetClause(o: Option<OffsetStatement.Offset>): (r: Fragment)
    ensures r.prepare.None? && Unmarked(r.value)
    ensures o.None? <==> r.value == ""
    ensures o.Some? ==> r.value == " OFFSET " + NatToString(o.value.value)
  {
    match o
    case None => EmptyFragment
    case Some(o) =>
      assert [' '] + OffsetStatement.Keyword == " OFFSET ";
      EmptyFragment.Push(' ').PushSql(OffsetStatement.ToSql(o).value)
  }

  // ---------------------------------------------------------------------------
  // Clauses without deferred values carry no marks when their inputs carry none.

  predicate PlainJoins(js: seq<JoinStatement.Join>) {
    forall i :: 0 <= i < |js| ==> js[i].value.Some? ==> Unmarked(js[i].value.value)
  }

  predicate PlainGroups(gs: seq<GroupStatement.Group>) {
    forall i :: 0 <= i < |gs| ==> gs[i].value.Some? ==> Plain(gs[i].value.value)
  }

  predicate PlainOrders(os: seq<OrderStatement.Order>) {
    forall i :: 0 <= i < |os| ==> os[i].value.Some? ==> Plain(os[i].value.value)
  }

  lemma {:induction false} JoinsUnmarked(js: seq<JoinStatement.Join>)
    requires PlainJoins(js) && Joins(js).Ok?
    ensures Unmarked(Joins(js).value.value)
    decreases |js|
  {
    if |js| > 0 {
      var init := js[..|js| - 1];
      assert forall i :: 0 <= i < |init| ==> init[i] == js[i];
      JoinsUnmarked(init);
    }
  }

  lemma GroupUnmarked(g: GroupStatement.Group)
    requires GroupStatement.Valid(g) && GroupStatement.ToSql(g).Ok?
    requires g.value.Some? ==> Plain(g.value.value)
    ensures Unmarked(GroupStatement.ToSql(g).value.value)
  {
    if g.value.Some? && g.value.value.Array? {
      var items := g.value.value.items;
      JoinUnmarked(GroupStatement.Names(items), ",");
    }
  }

  lemma {:induction false} GroupsUnmarked(gs: seq<GroupStatement.Group>)
    requires GroupsValid(gs) && PlainGroups(gs) && Groups(gs).Ok?
    ensures Unmarked(Groups(gs).value.value)
    decreases |gs|
  {
    if |gs| > 0 {
      var init := gs[..|gs| - 1];
      assert forall i :: 0 <= i < |init| ==> init[i] == gs[i];
      GroupsUnmarked(init);
      GroupUnmarked(gs[|gs| - 1]);
    }
  }

  lemma OrderUnmarked(o: OrderStatement.Order)
    requires OrderStatement.Valid(o) && OrderStatement.ToSql(o).Ok?
    requires o.value.Some? ==> Plain(o.value.value)
    ensures Unmarked(OrderStatement.ToSql(o).value.value)
  {
    if o.value.Some? {
      match o.value.value {
        case Object(entries) =>
          JoinUnmarked(OrderStatement.Clauses(entries), ",");
        case Array(items) =>
          var texts := OrderStatement.Items(items);
          forall i | 0 <= i < |items| ensures Unmarked(texts[i]) {
            TextUnmarked(items[i]);
          }
          JoinUnmarked(texts, ",");
        case _ =>
      }
    }
  }

  lemma {:induction false} OrdersUnmarked(os: seq<OrderStatement.Order>)
    requires OrdersValid(os) && PlainOrders(os) && Orders(os).Ok?
    ensures Unmarked(Orders(os).value.value)
    decreases |os|
  {
    if |os| > 0 {
      var init := os[..|os| - 1];
      assert forall i :: 0 <= i < |init| ==> init[i] == os[i];
      OrdersUnmarked(init);
      OrderUnmarked(os[|os| - 1]);
    }
  }

  /** A clause that defers nothing and has no mark agrees with itself. */
  lemma AgreeUnmarked(f: Fragment)
    requires f.prepare.None? && Unmarked(f.value)
    ensures Agree(f, f)
  {
    AgreePlain(f.value);
  }

  /** Join clauses defer nothing, so they render like themselves. */
  lemma JoinClauseAgrees(js: Option<seq<JoinStatement.Join>>)
    requires js.Some? ==> PlainJoins(js.value)
    requires JoinClause(js).Ok?
    ensures Agree(JoinClause(js).value, JoinClause(js).value)
  {
    if js.Some? {
      JoinsUnmarked(js.value);
    }
    AgreeUnmarked(JoinClause(js).value);
  }

  lemma GroupClauseAgrees(gs: Option<seq<GroupStatement.Group>>)
    requires gs.Some? ==> GroupsValid(gs.value) && PlainGroups(gs.value)
    requires GroupClause(gs).Ok?
    ensures Agree(GroupClause(gs).value, GroupClause(gs).value)
  {
    if gs.Some? {
      var g := Groups(gs.value).value;
      GroupsUnmarked(gs.value);
      AgreeUnmarked(g);
      AgreePlain(" GROUP BY ");
      AgreePushSql(Fragment(" GROUP BY ", None), Fragment(" GROUP BY ", None), g, g);
    } else {
      AgreeUnmarked(EmptyFragment);
    }
  }

  lemma OrderClauseAgrees(os: Option<seq<OrderStatement.Order>>)
    requires os.Some? ==> OrdersValid(os.value) && PlainOrders(os.value)
    requires OrderClause(os).Ok?
    ensures Agree(OrderClause(os).value, OrderClause(os).value)
  {
    if os.Some? {
      var o := Orders(os.value).value;
      OrdersUnmarked(os.value);
      AgreeUnmarked(o);
      AgreePlain(" ORDER BY ");
      AgreePushSql(Fragment(" ORDER BY ", None), Fragment(" ORDER BY ", None), o, o);
    } else {
      AgreeUnmarked(EmptyFragment);
    }
  }

  /** The condition list with the prepare flags cleared, when there is one. */
  function UnpreparedClause(ws: Option<seq<W.Where>>): (r: Option<seq<W.Where>>)
    ensures r.None? <==> ws.None?
    ensures ws.Some? ==> r.value == Unprepared(ws.value)
  {
    match ws
    case None => None
    case Some(ws) => Some(Unprepared(ws))
  }

  /** A condition clause renders like the same clause with every literal inline. */
  lemma ConditionClausePrepared(keyword: string, ws: Option<seq<W.Where>>)
    requires Unmarked(keyword)
    requires ws.Some? ==> AllValid(ws.value) && AllAgreeable(ws.value)
    requires ConditionClause(keyword, ws).Ok?
    ensures var us := UnpreparedClause(ws);
            (us.Some? ==> AllValid(us.value)) && ConditionClause(keyword, us).Ok? &&
            Agree(ConditionClause(keyword, ws).value, ConditionClause(keyword, us).value)
  {
    if ws.None? {
      AgreePlain("");
    } else {
      ConditionsPrepared(ws.value);
      AgreePlain(keyword);
      AgreePushSql(Fragment(keyword, None), Fragment(keyword, None),
                   Conditions(ws.value).value, Conditions(Unprepared(ws.value)).value);
    }
  }

  // ---------------------------------------------------------------------------
  // The tail shared by DELETE and UPDATE

  /** The join clauses as the manager pushes them; nothing without a list. */
  method JoinClauseToSql(js: Option<seq<JoinStatement.Join>>) returns (r: Result<Fragment>)
    ensures r == JoinClause(js)
  {
    r := Ok(EmptyFragment);
    if js.Some? {
      r := JoinsToSql(js.value);
    }
  }

  /** The GROUP BY clause as the manager pushes it; nothing without a list. */
  method GroupClauseToSql(gs: Option<seq<GroupStatement.Group>>) returns (r: Result<Fragment>)
    requires gs.Some? ==> GroupsValid(gs.value)
    ensures r == GroupClause(gs)
  {
    r := Ok(EmptyFragment);
    if gs.Some? {
      var g :- GroupsToSql(gs.value);
      r := Ok(Fragment(" GROUP BY ", None).PushSql(g));
    }
  }

  /** The ORDER BY clause as the manager pushes it; nothing without a list. */
  method OrderClauseToSql(os: Option<seq<OrderStatement.Order>>) returns (r: Result<Fragment>)
    requires os.Some? ==> OrdersValid(os.value)
    ensures r == OrderClause(os)
  {
    r := Ok(EmptyFragment);
    if os.Some? {
      var o :- OrdersToSql(os.value);
      r := Ok(Fragment(" ORDER BY ", None).PushSql(o));
    }
  }

  /**
   * What the delete and update managers write after their head: ` WHERE` and the
   * conditions, then ORDER BY, LIMIT and OFFSET exactly as the select manager does.
   */
  function Restriction(ws: seq<W.Where>, os: Option<seq<OrderStatement.Order>>,
                       l: Option<LimitStatement.Limit>, o: Option<OffsetStatement.Offset>): (r: Result<Fragment>)
    requires AllValid(ws) && (os.Some? ==> OrdersValid(os.value))
    ensures r.Ok? <==> Conditions(ws).Ok? && OrderClause(os).Ok?
    ensures r.Ok? ==> " WHERE" <= r.value.value && r.value.Params() == Conditions(ws).value.Params()
  {
    var w :- ConditionClause(" WHERE", Some(ws));
    var ord :- OrderClause(os);
    Ok(w.PushSql(ord).PushSql(LimitClause(l)).PushSql(OffsetClause(o)))
  }

  method RestrictionToSql(ws: seq<W.Where>, os: Option<seq<OrderStatement.Order>>,
                          l: Option<LimitStatement.Limit>, o: Option<OffsetStatement.Offset>) returns (r: Result<Fragment>)
    requires AllValid(ws) && (os.Some? ==> OrdersValid(os.value))
    ensures r == Restriction(ws, os, l, o)
  {
    var sql :- ConditionClauseToSql(" WHERE", Some(ws));
    if os.Some? {
      var ord :- OrdersToSql(os.value);
      sql := sql.PushSql(Fragment(" ORDER BY ", None).PushSql(ord));
    } else {
      sql := sql.PushSql(EmptyFragment);
    }
    r := Ok(sql.PushSql(LimitClause(l)).PushSql(OffsetClause(o)));
  }

  /** The restriction renders like the same restriction with the conditions' literals inline. */
  lemma RestrictionPrepared(ws: seq<W.Where>, os: Option<seq<OrderStatement.Order>>,
                            l: Option<LimitStatement.Limit>, o: Option<OffsetStatement.Offset>)
    requires AllValid(ws) && AllAgreeable(ws)
    requires os.Some? ==> OrdersValid(os.value) && PlainOrders(os.value)
    requires Restriction(ws, os, l, o).Ok?
    ensures AllValid(Unprepared(ws)) && Restriction(Unprepared(ws), os, l, o).Ok?
    ensures Agree(Restriction(ws, os, l, o).value, Restriction(Unprepared(ws), os, l, o).value)
  {
    ConditionClausePrepared(" WHERE", Some(ws));
    var w := ConditionClause(" WHERE", Some(ws)).value;
    var iw := ConditionClause(" WHERE", Some(Unprepared(ws))).value;
    var ord := OrderClause(os).value;
    OrderClauseAgrees(os);
    AgreeUnmarked(LimitClause(l));
    AgreeUnmarked(OffsetClause(o));
    AgreePushSql(w, iw, ord, ord);
    AgreePushSql(w.PushSql(ord), iw.PushSql(ord), LimitClause(l), LimitClause(l));
    AgreePushSql(w.PushSql(ord).PushSql(LimitClause(l)), iw.PushSql(ord).PushSql(LimitClause(l)),
                 OffsetClause(o), OffsetClause(o));
  }

  /** The restriction's text is the clauses' texts in order, and only the conditions can defer values. */
  lemma RestrictionText(ws: seq<W.Where>, os: Option<seq<OrderStatement.Order>>,
                        l: Option<LimitStatement.Limit>, o: Option<OffsetStatement.Offset>)
    requires AllValid(ws) && (os.Some? ==> OrdersValid(os.value)) && Restriction(ws, os, l, o).Ok?
    ensures Restriction(ws, os, l, o).value.value
         == ConditionClause(" WHERE", Some(ws)).value.value + OrderClause(os).value.value + LimitClause(l).value + OffsetClause(o).value
    ensures Restriction(ws, os, l, o).value.prepare == ConditionClause(" WHERE", Some(ws)).value.prepare
  {
  }
}

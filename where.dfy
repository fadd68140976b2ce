/**
 * A WHERE/HAVING condition: a JSON predicate compiled to a boolean SQL expression,
 * with the `not`, `or` and `prepare` modifiers.
 */
module WhereStatement {
  import opened Wrappers
  import opened Strings
  import opened Json
  import opened Methods
  import opened Collectors

  datatype Where = Where(value: Option<Value>, not: Option<bool>, or: Option<bool>, prepare: Option<bool>)

  /** `Where::new`: the condition with its three modifiers. */
  function New(condition: Value, not: Option<bool>, or: Option<bool>, prepare: Option<bool>): Where {
    Where(Some(condition), not, or, prepare)
  }

  /** One end of a range; the bound values are kept as the text `to_string` gives them. */
  datatype Bound = Unbounded | Included(v: string) | Excluded(v: string)

  /** The condition a lower bound alone puts on `column`. */
  function LowerBound(column: string, start: Bound): string
    requires !start.Unbounded?
  {
    if start.Included? then column + " >= " + start.v else column + " > " + start.v
  }

  /** The condition an upper bound alone puts on `column`. */
  function UpperBound(column: string, end: Bound): string
    requires !end.Unbounded?
  {
    if end.Included? then column + " <= " + end.v else column + " < " + end.v
  }

  const RangeNotSupported := "Error: Not Support"

  /**
   * The raw condition of a range on `column`: each present bound contributes its
   * one-sided comparison, joined by AND, except that a closed range is written BETWEEN;
   * a range with no bound at all is refused.
   */
  function RangeCondition(column: string, start: Bound, end: Bound): (r: Result<string>)
    ensures r.Err? <==> start.Unbounded? && end.Unbounded?
    ensures start.Unbounded? && !end.Unbounded? ==> r == Ok(UpperBound(column, end))
    ensures !start.Unbounded? && end.Unbounded? ==> r == Ok(LowerBound(column, start))
    ensures start.Included? && end.Included? ==> r == Ok(column + " BETWEEN " + start.v + " AND " + end.v)
    ensures !start.Unbounded? && !end.Unbounded? && !(start.Included? && end.Included?) ==>
              r == Ok(LowerBound(column, start) + " AND " + UpperBound(column, end))
  {
    match start
    case Unbounded =>
      (match end
       case Unbounded => Err(Message(RangeNotSupported))
       case Included(e) => Ok(column + " <= " + e)
       case Excluded(e) => Ok(column + " < " + e))
    case Included(s) =>
      (match end
       case Unbounded => Ok(column + " >= " + s)
       case Included(e) => Ok(column + " BETWEEN " + s + " AND " + e)
       case Excluded(e) => Ok((column + " >= " + s) + " AND " + (column + " < " + e)))
    case Excluded(s) =>
      (match end
       case Unbounded => Ok(column + " > " + s)
       case Included(e) => Ok((column + " > " + s) + " AND " + (column + " <= " + e))
       case Excluded(e) => Ok((column + " > " + s) + " AND " + (column + " < " + e)))
  }

  /**
   * `Where::new_range`: a raw-string condition holding the range condition, with no
   * modifier. The unbounded range is unwrapped into a panic, hence the precondition.
   */
  function NewRange(column: string, start: Bound, end: Bound): (w: Where)
    requires !(start.Unbounded? && end.Unbounded?)
    ensures RangeCondition(column, start, end).Ok?
    ensures w == New(Str(RangeCondition(column, start, end).value), None, None, None)
  {
    New(Str(RangeCondition(column, start, end).value), None, None, None)
  }

  /** Error text for a column value that is an object, which names the value in its `{:?}` form. */
  function ValueRefused(v: Value): string {
    "Error: Where Value " + Debug(v) + " Type Not Support!"
  }
  const WhereValueMissing := "where value must exists!"

  function Comparison(w: Where): string {
    if IsSet(w.not) then "!= " else "= "
  }

  function ListOpening(w: Where): string {
    if IsSet(w.not) then "NOT IN (" else "IN ("
  }

  /**
   * The comparison a column value stands for: a scalar is compared with `=`/`!=`, a list
   * with `IN`/`NOT IN`, null with `IS NULL`/`IS NOT NULL`; in prepare mode each literal is
   * replaced by `?` and deferred. Objects, and lists holding a list or an object, are refused.
   */
  function ColumnCondition(w: Where, v: Value): (r: Result<Fragment>)
    ensures r.Err? <==> v.Object? || (v.Array? && !forall i :: 0 <= i < |v.items| ==> v.items[i].IsScalar())
    ensures v.Object? ==> r == Err(Message(ValueRefused(v)))
    ensures v.Array? && r.Err? ==> r.error == StringifyAll(v.items).error
    ensures r.Ok? && !IsSet(w.prepare) ==> r.value.prepare.None?
    ensures v.Null? ==> r == Ok(Fragment(if IsSet(w.not) then "IS NOT NULL" else "IS NULL", None))
    ensures v.IsScalar() && !v.Null? ==>
              r.Ok? && r.value.value == Comparison(w) + (if IsSet(w.prepare) then "?" else JsonValueToString(v).value)
    ensures r.Ok? && IsSet(w.prepare) && v.IsScalar() && !v.Null? ==>
              r.value.Params() == [JsonValueToString(v).value]
    ensures r.Ok? && v.Array? ==>
              r.value.value == ListOpening(w)
                + (if IsSet(w.prepare) then Placeholders(|v.items|, ",") else Join(StringifyAll(v.items).value, ","))
                + ")"
    ensures r.Ok? && IsSet(w.prepare) && v.Array? ==> r.value.Params() == StringifyAll(v.items).value
  {
    match v
    case Array(items) =>
      var values :- StringifyAll(items);
      if IsSet(w.prepare) then
        Ok(Fragment(ListOpening(w) + Placeholders(|values|, ",") + ")",
                    if |values| == 0 then None else Some(values)))
      else
        Ok(Fragment(ListOpening(w) + Join(values, ",") + ")", None))
    case Null =>
      Ok(Fragment(if IsSet(w.not) then "IS NOT NULL" else "IS NULL", None))
    case Object(_) =>
      Err(Message(ValueRefused(v)))
    case _ =>
      // a scalar always stringifies, so the source's `?` here never fires
      var literal := JsonValueToString(v).value;
      if IsSet(w.prepare) then Ok(Fragment(Comparison(w) + "?", Some([literal])))
      else Ok(Fragment(Comparison(w) + literal, None))
  }

  /** Separator put between two column comparisons of one condition object. */
  function Connective(w: Where): string {
    if IsSet(w.or) then " OR " else " AND "
  }

  /**
   * The comparisons of an object condition, entry by entry in iteration order:
   * `<column> <comparison>`, separated by the connective; the first refused value
   * makes the whole condition fail.
   */
  function ObjectCondition(w: Where, entries: seq<(string, Value)>): (r: Result<Fragment>)
    ensures r.Ok? <==> EntriesCompare(w, entries)
    ensures r.Ok? ==> r.value.value == Join(EntryTexts(w, entries), Connective(w))
    ensures r.Ok? ==> r.value.Params() == EntryParams(w, entries)
    ensures r.Ok? && !IsSet(w.prepare) ==> r.value.prepare.None?
    decreases |entries|
  {
    if |entries| == 0 then Ok(EmptyFragment)
    else
      EntriesCompareSnoc(w, entries);
      var head :- ObjectCondition(w, entries[..|entries| - 1]);
      var entry := entries[|entries| - 1];
      var comparison :- ColumnCondition(w, entry.1);
      var sep := if |entries| == 1 then "" else Connective(w);
      EntryStep(w, entries, head, comparison);
      Ok(head.PushValue(sep).PushValue(entry.0).Push(' ').PushSql(comparison))
  }

  /** Every value of the object has a comparison. */
  predicate EntriesCompare(w: Where, entries: seq<(string, Value)>) {
    forall i :: 0 <= i < |entries| ==> ColumnCondition(w, entries[i].1).Ok?
  }

  lemma {:induction false} EntriesCompareSnoc(w: Where, entries: seq<(string, Value)>)
    requires |entries| > 0
    ensures EntriesCompare(w, entries) <==>
              EntriesCompare(w, entries[..|entries| - 1]) && ColumnCondition(w, entries[|entries| - 1].1).Ok?
  {
    var init := entries[..|entries| - 1];
    assert forall i :: 0 <= i < |init| ==> init[i] == entries[i];
  }

  /** The text of each entry: its column, a space and its comparison. */
  function EntryTexts(w: Where, entries: seq<(string, Value)>): (r: seq<string>)
    requires EntriesCompare(w, entries)
    ensures |r| == |entries|
    ensures forall i :: 0 <= i < |entries| ==> r[i] == entries[i].0 + " " + ColumnCondition(w, entries[i].1).value.value
  {
    seq(|entries|, i requires 0 <= i < |entries| && EntriesCompare(w, entries) =>
      entries[i].0 + " " + ColumnCondition(w, entries[i].1).value.value)
  }

  /** The values the entries defer, entry after entry. */
  function EntryParams(w: Where, entries: seq<(string, Value)>): seq<string>
    requires EntriesCompare(w, entries)
  {
    if |entries| == 0 then []
    else EntryParams(w, entries[..|entries| - 1]) + ColumnCondition(w, entries[|entries| - 1].1).value.Params()
  }

  /** Appending the last entry to the fragment of the others gives the fragment of all. */
  lemma {:induction false} EntryStep(w: Where, entries: seq<(string, Value)>, head: Fragment, comparison: Fragment)
    requires |entries| > 0 && EntriesCompare(w, entries)
    requires EntriesCompare(w, entries[..|entries| - 1])
    requires head.value == Join(EntryTexts(w, entries[..|entries| - 1]), Connective(w))
    requires head.Params() == EntryParams(w, entries[..|entries| - 1])
    requires comparison == ColumnCondition(w, entries[|entries| - 1].1).value
    ensures var sep := if |entries| == 1 then "" else Connective(w);
      var f := head.PushValue(sep).PushValue(entries[|entries| - 1].0).Push(' ').PushSql(comparison);
      f.value == Join(EntryTexts(w, entries), Connective(w)) && f.Params() == EntryParams(w, entries)
  {
    var n, k := |entries|, entries[|entries| - 1].0;
    var init := EntryTexts(w, entries[..n - 1]);
    EntryTextsSnoc(w, entries);
    JoinStep(init, Connective(w), k, comparison.value);
  }

  /** The texts of the entries are those of all but the last, then the last one's. */
  lemma {:induction false} EntryTextsSnoc(w: Where, entries: seq<(string, Value)>)
    requires |entries| > 0 && EntriesCompare(w, entries)
    requires EntriesCompare(w, entries[..|entries| - 1])
    ensures var n := |entries|;
      EntryTexts(w, entries)
      == EntryTexts(w, entries[..n - 1]) + [entries[n - 1].0 + " " + ColumnCondition(w, entries[n - 1].1).value.value]
  {
    var n, texts := |entries|, EntryTexts(w, entries);
    assert EntryTexts(w, entries[..n - 1]) == texts[..n - 1];
    assert texts == texts[..n - 1] + [texts[n - 1]];
  }

  /** The text of a joined list grows by the separator and `k c` (`c` after one space). */
  lemma {:induction false} JoinStep(texts: seq<string>, conn: string, k: string, c: string)
    ensures var sep := if |texts| == 0 then "" else conn;
      ((Join(texts, conn) + sep) + k + [' ']) + c == Join(texts + [k + " " + c], conn)
  {
    if |texts| == 0 {
      assert texts + [k + " " + c] == [k + " " + c];
    } else {
      JoinSnoc(texts, k + " " + c, conn);
    }
  }

  /** A top-level list is a raw template whose first element must be a string. */
  predicate WellFormed(condition: Value) {
    condition.Array? && |condition.items| > 0 ==> condition.items[0].Str?
  }

  /**
   * A raw template followed by its arguments: the template is kept verbatim and every
   * later element is deferred, whether or not the condition is in prepare mode.
   */
  function TemplateCondition(items: seq<Value>): (r: Result<Fragment>)
    requires |items| > 0 ==> items[0].Str?
    ensures |items| == 0 ==> r == Ok(EmptyFragment)
    ensures |items| > 0 ==> (r.Ok? <==> forall i :: 1 <= i < |items| ==> items[i].IsScalar())
    ensures |items| > 0 && r.Ok? ==>
              r.value.value == items[0].s && r.value.Params() == StringifyAll(items[1..]).value
    ensures |items| > 1 && r.Ok? ==> r.value.prepare.Some?
    ensures r.Err? ==> r.error == StringifyAll(items[1..]).error
  {
    if |items| == 0 then Ok(EmptyFragment)
    else
      assert forall i :: 1 <= i < |items| ==> items[i] == items[1..][i - 1];
      var args :- StringifyAll(items[1..]);
      Ok(Fragment(items[0].s, if |args| == 0 then None else Some(args)))
  }

  /** `condition_to_sql`: objects compare columns, lists are templates, strings are raw SQL. */
  function Condition(w: Where, condition: Value): (r: Result<Fragment>)
    requires WellFormed(condition)
    ensures condition.Object? ==> (r.Ok? <==> EntriesCompare(w, condition.entries))
    ensures condition.Object? && r.Ok? ==>
              && r.value.value == Join(EntryTexts(w, condition.entries), Connective(w))
              && r.value.Params() == EntryParams(w, condition.entries)
    ensures condition.Array? && |condition.items| > 0 ==>
              (r.Ok? <==> forall i :: 1 <= i < |condition.items| ==> condition.items[i].IsScalar())
    ensures condition.Array? && |condition.items| > 0 && r.Ok? ==>
              r.value.value == condition.items[0].s
              && r.value.Params() == StringifyAll(condition.items[1..]).value
    ensures condition.Str? ==> r == Ok(Fragment(condition.s, None))
    ensures (condition.IsScalar() && !condition.Str?) || condition == Array([]) ==> r == Ok(EmptyFragment)
  {
    match condition
    case Object(entries) => ObjectCondition(w, entries)
    case Array(items) => TemplateCondition(items)
    case Str(s) => Ok(Fragment(s, None))
    case _ => Ok(EmptyFragment)
  }

  /** `Where::to_sql`: the condition's SQL; a where without a value is an error. */
  function ToSql(w: Where): (r: Result<Fragment>)
    requires w.value.Some? ==> WellFormed(w.value.value)
    ensures w.value.None? ==> r == Err(Message(WhereValueMissing))
    ensures w.value.Some? && w.value.value.Object? ==>
              var entries := w.value.value.entries;
              && (r.Ok? <==> EntriesCompare(w, entries))
              && (r.Ok? ==> r.value.value == Join(EntryTexts(w, entries), Connective(w))
                            && r.value.Params() == EntryParams(w, entries))
    ensures w.value.Some? && w.value.value.Array? && |w.value.value.items| > 0 ==>
              var items := w.value.value.items;
              && (r.Ok? <==> forall i :: 1 <= i < |items| ==> items[i].IsScalar())
              && (r.Ok? ==> r.value.value == items[0].s && r.value.Params() == StringifyAll(items[1..]).value)
    ensures w.value.Some? && w.value.value.Str? ==> r == Ok(Fragment(w.value.value.s, None))
    ensures w.value.Some? && ((w.value.value.IsScalar() && !w.value.value.Str?) || w.value.value == Array([])) ==>
              r == Ok(EmptyFragment)
  {
    match w.value
    case None => Err(Message(WhereValueMissing))
    case Some(condition) => Condition(w, condition)
  }

  predicate Valid(w: Where) {
    w.value.Some? ==> WellFormed(w.value.value)
  }

  // ---------------------------------------------------------------------------
  // The imperative renderers, each proved equal to its specification above.

  /** The prepared `IN` list: one `?` per literal, each literal deferred in order. */
  method PreparedListToSql(w: Where, vals: seq<string>) returns (sql: Fragment)
    ensures sql == Fragment(ListOpening(w) + Placeholders(|vals|, ",") + ")",
                            if |vals| == 0 then None else Some(vals))
  {
    sql := EmptyFragment;
    if IsSet(w.not) {
      sql := sql.PushValue("NOT IN (");
    } else {
      sql := sql.PushValue("IN (");
    }
    var len := |vals|;
    var idx := 0;
    while idx < len
      invariant 0 <= idx <= len
      invariant sql.value == ListOpening(w) +
        (if idx == 0 then "" else if idx < len then Placeholders(idx, ",") + "," else Placeholders(len, ","))
      invariant sql.prepare == if idx == 0 then None else Some(vals[..idx])
    {
      assert vals[..idx + 1] == vals[..idx] + [vals[idx]];
      if idx > 0 {
        JoinSnoc(Repeat("?", idx), "?", ",");
      }
      if idx < len - 1 {
        sql := sql.PushValueWithPrepareValue("?,", vals[idx]);
      } else {
        sql := sql.PushValueWithPrepareValue("?", vals[idx]);
      }
      idx := idx + 1;
    }
    assert vals[..len] == vals;
    sql := sql.Push(')');
  }

  method ColumnValueConditionToSql(w: Where, v: Value) returns (r: Result<Fragment>)
    ensures r == ColumnCondition(w, v)
  {
    var sql := EmptyFragment;
    match v {
      case Array(items) =>
        var values := StringifyAll(items);
        if values.Err? {
          return Err(values.error);
        }
        var list := Join(values.value, ",");
        if IsSet(w.prepare) {
          sql := PreparedListToSql(w, values.value);
        } else if IsSet(w.not) {
          sql := sql.PushValue("NOT IN (" + list + ")");
        } else {
          sql := sql.PushValue("IN (" + list + ")");
        }
        assert !IsSet(w.prepare) ==> sql.value == ListOpening(w) + list + ")";
      case Null =>
        if IsSet(w.not) {
          sql := sql.PushValue("IS NOT NULL");
        } else {
          sql := sql.PushValue("IS NULL");
        }
        assert sql.value == if IsSet(w.not) then "IS NOT NULL" else "IS NULL";
      case Object(_) =>
        return Err(Message(ValueRefused(v)));
      case _ =>
        // a scalar always has a literal, so the `?` after the conversion never returns
        var literal := JsonValueToString(v);
        if IsSet(w.prepare) {
          if IsSet(w.not) {
            sql := sql.PushValueWithPrepareValue("!= ?", literal.value);
          } else {
            sql := sql.PushValueWithPrepareValue("= ?", literal.value);
          }
        } else if IsSet(w.not) {
          sql := sql.PushValue("!= " + literal.value);
        } else {
          sql := sql.PushValue("= " + literal.value);
        }
        assert !IsSet(w.prepare) ==> sql.value == Comparison(w) + literal.value;
        assert IsSet(w.prepare) ==> sql.value == Comparison(w) + "?";
    }
    r := Ok(sql);
  }

  /** An error met on a prefix of the entries is the error of the whole object. */
  lemma {:induction false} ObjectConditionPrefixErr(w: Where, entries: seq<(string, Value)>, k: nat)
    requires k <= |entries| && ObjectCondition(w, entries[..k]).Err?
    ensures ObjectCondition(w, entries) == ObjectCondition(w, entries[..k])
    decreases |entries|
  {
    if k < |entries| {
      var init := entries[..|entries| - 1];
      assert init[..k] == entries[..k];
      ObjectConditionPrefixErr(w, init, k);
    } else {
      assert entries[..k] == entries;
    }
  }

  /** One more entry whose value compares extends the object's fragment by that entry. */
  lemma {:induction false} ObjectConditionNext(w: Where, entries: seq<(string, Value)>, k: nat, sql: Fragment, comparison: Fragment)
    requires k < |entries| && ObjectCondition(w, entries[..k]) == Ok(sql)
    requires ColumnCondition(w, entries[k].1) == Ok(comparison)
    ensures ObjectCondition(w, entries[..k + 1])
            == Ok(sql.PushValue(if k == 0 then "" else Connective(w)).PushValue(entries[k].0).Push(' ').PushSql(comparison))
  {
    assert entries[..k + 1][..k] == entries[..k];
  }

  /** An entry whose value does not compare makes the whole object fail with its error. */
  lemma {:induction false} ObjectConditionNextErr(w: Where, entries: seq<(string, Value)>, k: nat)
    requires k < |entries| && ObjectCondition(w, entries[..k]).Ok?
    requires ColumnCondition(w, entries[k].1).Err?
    ensures ObjectCondition(w, entries) == Err(ColumnCondition(w, entries[k].1).error)
  {
    assert entries[..k + 1][..k] == entries[..k];
    ObjectConditionPrefixErr(w, entries, k + 1);
  }

  /**
   * One round of the object arm's loop: the connective before every column but the
   * first, the column name, a space and the column's comparison.
   */
  method PushEntry(w: Where, entries: seq<(string, Value)>, idx: nat, sql: Fragment) returns (r: Result<Fragment>)
    requires idx < |entries| && ObjectCondition(w, entries[..idx]) == Ok(sql)
    ensures r.Ok? ==> ObjectCondition(w, entries[..idx + 1]) == r
    ensures r.Err? ==> ObjectCondition(w, entries) == r
  {
    var next := sql;
    if idx > 0 {
      if IsSet(w.or) {
        next := next.PushValue(" OR ");
      } else {
        next := next.PushValue(" AND ");
      }
    } else {
      assert next.PushValue("") == next;
    }
    next := next.PushValue(entries[idx].0);
    var valueSql := ColumnValueConditionToSql(w, entries[idx].1);
    if valueSql.Err? {
      ObjectConditionNextErr(w, entries, idx);
      return Err(valueSql.error);
    }
    ObjectConditionNext(w, entries, idx, sql, valueSql.value);
    r := Ok(next.Push(' ').PushSql(valueSql.value));
  }

  /** The object arm of `condition_to_sql`. */
  method ObjectConditionToSql(w: Where, entries: seq<(string, Value)>) returns (r: Result<Fragment>)
    ensures r == ObjectCondition(w, entries)
  {
    var sql := EmptyFragment;
    var idx := 0;
    while idx < |entries|
      invariant 0 <= idx <= |entries|
      invariant ObjectCondition(w, entries[..idx]) == Ok(sql)
    {
      var next := PushEntry(w, entries, idx, sql);
      if next.Err? {
        return next;
      }
      sql := next.value;
      idx := idx + 1;
    }
    assert entries[..idx] == entries;
    r := Ok(sql);
  }

  /** An argument without a literal, after arguments that all have one, fails the template. */
  lemma {:induction false} TemplateArgumentErr(items: seq<Value>, k: nat)
    requires 0 < k < |items| && items[0].Str?
    requires StringifyAll(items[1..k]).Ok? && !items[k].IsScalar()
    ensures TemplateCondition(items) == Err(JsonValueToString(items[k]).error)
  {
    assert items[1..][..k - 1] == items[1..k];
    StringifyAllNextErr(items[1..], k - 1);
  }

  /** An argument with a literal extends the literals of the arguments before it. */
  lemma {:induction false} TemplateArgumentNext(items: seq<Value>, k: nat)
    requires 0 < k < |items| && StringifyAll(items[1..k]).Ok? && items[k].IsScalar()
    ensures StringifyAll(items[1..k + 1]) == Ok(StringifyAll(items[1..k]).value + [JsonValueToString(items[k]).value])
  {
    assert items[1..][..k - 1] == items[1..k] && items[1..][..k] == items[1..k + 1];
    StringifyAllNext(items[1..], k - 1);
  }

  /** The list arm of `condition_to_sql`: the template, then every argument deferred. */
  method TemplateToSql(items: seq<Value>) returns (r: Result<Fragment>)
    requires |items| > 0 ==> items[0].Str?
    ensures r == TemplateCondition(items)
  {
    var sql := EmptyFragment;
    var args: seq<string> := [];
    var idx := 0;
    while idx < |items|
      invariant 0 <= idx <= |items|
      invariant idx == 0 ==> args == []
      invariant idx > 0 ==> StringifyAll(items[1..idx]) == Ok(args)
      invariant sql == if idx == 0 then EmptyFragment
                       else Fragment(items[0].s, if |args| == 0 then None else Some(args))
    {
      if idx == 0 {
        sql := sql.PushValue(items[0].s);
        assert |items[1..1]| == 0;
      } else {
        var literal := JsonValueToString(items[idx]);
        if literal.Err? {
          TemplateArgumentErr(items, idx);
          return Err(literal.error);
        }
        TemplateArgumentNext(items, idx);
        sql := sql.PushPrepareValue(literal.value);
        args := args + [literal.value];
      }
      idx := idx + 1;
    }
    if |items| > 0 {
      assert items[1..|items|] == items[1..];
    }
    r := Ok(sql);
  }

  method ConditionToSql(w: Where, condition: Value) returns (r: Result<Fragment>)
    requires WellFormed(condition)
    ensures r == Condition(w, condition)
  {
    match condition {
      case Object(entries) =>
        r := ObjectConditionToSql(w, entries);
      case Array(items) =>
        r := TemplateToSql(items);
      case Str(s) =>
        assert EmptyFragment.PushValue(s).value == s;
        r := Ok(EmptyFragment.PushValue(s));
      case _ =>
        r := Ok(EmptyFragment);
    }
  }

  method WhereToSql(w: Where) returns (r: Result<Fragment>)
    requires Valid(w)
    ensures r == ToSql(w)
  {
    if w.value.Some? {
      r := ConditionToSql(w, w.value.value);
    } else {
      return Err(Message(WhereValueMissing));
    }
  }

  // ---------------------------------------------------------------------------
  // Prepared conditions render to the same string as inline ones.

  /** Keys and literals of the entries carry no `?`. */
  predicate PlainEntries(entries: seq<(string, Value)>) {
    forall i :: 0 <= i < |entries| ==> Unmarked(entries[i].0) && Plain(entries[i].1)
  }

  /**
   * A column comparison renders, once its deferred values are filled in, to exactly the
   * comparison with the same modifiers but no prepare flag, which defers nothing.
   */
  lemma ColumnConditionPrepared(w: Where, v: Value)
    requires ColumnCondition(w, v).Ok? && Plain(v)
    ensures var inline := ColumnCondition(w.(prepare := None), v);
            inline.Ok? && inline.value.prepare.None? && Agree(ColumnCondition(w, v).value, inline.value)
  {
    match v {
      case Array(items) =>
        ListPrepared(w, items);
      case Null =>
        AgreePlain(ColumnCondition(w.(prepare := None), v).value.value);
      case Object(_) =>
      case _ =>
        ScalarPrepared(w, v);
    }
  }

  lemma ListPrepared(w: Where, items: seq<Value>)
    requires ColumnCondition(w, Array(items)).Ok? && Plain(Array(items))
    ensures var inline := ColumnCondition(w.(prepare := None), Array(items));
            inline.Ok? && inline.value.prepare.None? && Agree(ColumnCondition(w, Array(items)).value, inline.value)
  {
    var wi := w.(prepare := None);
    assert ListOpening(wi) == ListOpening(w);
    var vals := StringifyAll(items).value;
    var text := ListOpening(w) + Join(vals, ",") + ")";
    assert ColumnCondition(wi, Array(items)) == Ok(Fragment(text, None));
    StringifyAllUnmarked(items);
    JoinUnmarked(vals, ",");
    AgreePlain(text);
    if IsSet(w.prepare) {
      assert ColumnCondition(w, Array(items)) ==
        Ok(Fragment(ListOpening(w) + Placeholders(|vals|, ",") + ")", if |vals| == 0 then None else Some(vals)));
      FillPlaceholders(vals, ",");
      Sandwich(ListOpening(w), Placeholders(|vals|, ","), ")", vals);
    } else {
      assert ColumnCondition(w, Array(items)) == Ok(Fragment(text, None));
    }
  }

  lemma ScalarPrepared(w: Where, v: Value)
    requires v.IsScalar() && !v.Null? && Plain(v)
    ensures var inline := ColumnCondition(w.(prepare := None), v);
            inline.Ok? && inline.value.prepare.None? && Agree(ColumnCondition(w, v).value, inline.value)
  {
    var wi := w.(prepare := None);
    assert Comparison(wi) == Comparison(w);
    var literal := JsonValueToString(v).value;
    assert ColumnCondition(wi, v) == Ok(Fragment(Comparison(w) + literal, None));
    AgreePlain(Comparison(w) + literal);
    if IsSet(w.prepare) {
      assert ColumnCondition(w, v) == Ok(Fragment(Comparison(w) + "?", Some([literal])));
      assert "?"[1..] == [] && [literal][1..] == [];
      assert Fill("?", [literal]) == literal;
      Sandwich(Comparison(w), "?", "", [literal]);
      assert Comparison(w) + "?" + "" == Comparison(w) + "?";
      assert Comparison(w) + literal + "" == Comparison(w) + literal;
    } else {
      assert ColumnCondition(w, v) == Ok(Fragment(Comparison(w) + literal, None));
    }
  }

  lemma {:induction false} ObjectConditionPrepared(w: Where, entries: seq<(string, Value)>)
    requires ObjectCondition(w, entries).Ok? && PlainEntries(entries)
    ensures var inline := ObjectCondition(w.(prepare := None), entries);
            inline.Ok? && inline.value.prepare.None? && Agree(ObjectCondition(w, entries).value, inline.value)
    decreases |entries|
  {
    var wi := w.(prepare := None);
    if |entries| == 0 {
      AgreePlain("");
    } else {
      var init := entries[..|entries| - 1];
      var entry := entries[|entries| - 1];
      ObjectConditionPrepared(w, init);
      ColumnConditionPrepared(w, entry.1);
      var headP, headI := ObjectCondition(w, init).value, ObjectCondition(wi, init).value;
      var cP, cI := ColumnCondition(w, entry.1).value, ColumnCondition(wi, entry.1).value;
      var sep := if |entries| == 1 then "" else Connective(w);
      assert Connective(wi) == Connective(w);
      AgreePushValue(headP, headI, sep);
      AgreePushValue(headP.PushValue(sep), headI.PushValue(sep), entry.0);
      AgreePushValue(headP.PushValue(sep).PushValue(entry.0), headI.PushValue(sep).PushValue(entry.0), " ");
      assert headP.PushValue(sep).PushValue(entry.0).Push(' ') == headP.PushValue(sep).PushValue(entry.0).PushValue(" ");
      assert headI.PushValue(sep).PushValue(entry.0).Push(' ') == headI.PushValue(sep).PushValue(entry.0).PushValue(" ");
      AgreePushSql(headP.PushValue(sep).PushValue(entry.0).Push(' '), headI.PushValue(sep).PushValue(entry.0).Push(' '), cP, cI);
    }
  }

  /**
   * Conditions whose prepared and inline renderings can be compared: an object whose keys
   * and literals hold no `?`, a template with exactly one `?` per argument, or raw SQL
   * without `?`.
   */
  predicate Agreeable(c: Value) {
    match c
    case Object(entries) => PlainEntries(entries)
    case Array(items) => |items| > 0 && items[0].Str? && Marks(items[0].s) == |items| - 1
    case Str(s) => Unmarked(s)
    case _ => true
  }

  /**
   * A where renders to the same string as the same where without the prepare flag (the
   * property the statement managers rely on when they mix `where` and `where_prepare`).
   */
  lemma WherePrepared(w: Where)
    requires Valid(w) && w.value.Some? && Agreeable(w.value.value) && ToSql(w).Ok?
    ensures ToSql(w.(prepare := None)).Ok?
    ensures Agree(ToSql(w).value, ToSql(w.(prepare := None)).value)
    ensures Render(ToSql(w).value) == Render(ToSql(w.(prepare := None)).value)
  {
    var c := w.value.value;
    match c {
      case Object(entries) =>
        ObjectConditionPrepared(w, entries);
      case Array(items) =>
        AgreeSelf(TemplateCondition(items).value);
      case Str(s) =>
        AgreePlain(s);
      case _ =>
        AgreePlain("");
    }
    AgreeRender(ToSql(w).value, ToSql(w.(prepare := None)).value);
  }

  // ---------------------------------------------------------------------------
  // The conditions of the unit test of `where.rs`.

  /** `{"a": 1, "b": "2", "c": true, "d": [1, 2, 3], "e": null}` */
  const Sample := [("a", Number("1")), ("b", Str("2")), ("c", Bool(true)),
                   ("d", Array([Number("1"), Number("2"), Number("3")])), ("e", Null)]

  /** The comparison of the list `[1, 2, 3]`. */
  lemma SampleList(w: Where)
    ensures ColumnCondition(w, Array([Number("1"), Number("2"), Number("3")]))
         == Ok(Fragment(ListOpening(w) + (if IsSet(w.prepare) then "?,?,?" else "1,2,3") + ")",
                        if IsSet(w.prepare) then Some(["1", "2", "3"]) else None))
  {
    var r := StringifyAll([Number("1"), Number("2"), Number("3")]);
    assert r.value[0] == "1" && r.value[1] == "2" && r.value[2] == "3";
    assert r.value == ["1", "2", "3"];
    assert Join(["1", "2", "3"], ",") == "1,2,3";
    assert Placeholders(3, ",") == "?,?,?" by {
      assert Repeat("?", 3) == ["?", "?", "?"];
    }
  }

  /** Every column of the sample object has a comparison. */
  lemma SampleCompares(w: Where)
    ensures EntriesCompare(w, Sample)
  {
    SampleList(w);
  }

  /** The sample object's texts: each column, a space and its comparison. */
  lemma SampleTexts(w: Where)
    ensures EntriesCompare(w, Sample)
    ensures EntryTexts(w, Sample)
         == ["a" + " " + (Comparison(w) + (if IsSet(w.prepare) then "?" else "1")),
             "b" + " " + (Comparison(w) + (if IsSet(w.prepare) then "?" else "'2'")),
             "c" + " " + (Comparison(w) + (if IsSet(w.prepare) then "?" else "1")),
             "d" + " " + (ListOpening(w) + (if IsSet(w.prepare) then "?,?,?" else "1,2,3") + ")"),
             "e" + " " + (if IsSet(w.not) then "IS NOT NULL" else "IS NULL")]
  {
    SampleCompares(w);
    SampleList(w);
    var texts := EntryTexts(w, Sample);
    assert texts[0] == "a" + " " + (Comparison(w) + (if IsSet(w.prepare) then "?" else "1"));
    assert texts[1] == "b" + " " + (Comparison(w) + (if IsSet(w.prepare) then "?" else "'2'"));
    assert texts[2] == "c" + " " + (Comparison(w) + (if IsSet(w.prepare) then "?" else "1"));
    assert texts[3] == "d" + " " + (ListOpening(w) + (if IsSet(w.prepare) then "?,?,?" else "1,2,3") + ")");
    assert texts[4] == "e" + " " + (if IsSet(w.not) then "IS NOT NULL" else "IS NULL");
  }

  /** Five texts joined by one connective. */
  lemma JoinFive(a: string, b: string, c: string, d: string, e: string, sep: string)
    ensures Join([a, b, c, d, e], sep) == a + sep + b + sep + c + sep + d + sep + e
  {
    assert [a, b, c, d, e][1..] == [b, c, d, e];
    assert [b, c, d, e][1..] == [c, d, e];
    assert [c, d, e][1..] == [d, e];
    assert [d, e][1..] == [e];
    assert Join([e], sep) == e;
    assert Join([d, e], sep) == d + sep + e;
    assert Join([c, d, e], sep) == c + sep + (d + sep + e);
    assert Join([b, c, d, e], sep) == b + sep + (c + sep + (d + sep + e));
    assert a + sep + (b + sep + (c + sep + (d + sep + e))) == a + sep + b + sep + c + sep + d + sep + e;
  }

  /** The sample's texts without modifiers. */
  lemma SampleInlineTexts()
    ensures var w := Where(Some(Object(Sample)), None, None, None);
      EntriesCompare(w, Sample) && EntryTexts(w, Sample) == ["a = 1", "b = '2'", "c = 1", "d IN (1,2,3)", "e IS NULL"]
  {
    SampleTexts(Where(Some(Object(Sample)), None, None, None));
    InlineGlue();
  }

  lemma InlineGlue()
    ensures ["a" + " " + ("= " + "1"),
            "b" + " " + ("= " + "'2'"),
            "c" + " " + ("= " + "1"),
            "d" + " " + ("IN (" + "1,2,3" + ")"),
            "e" + " " + "IS NULL"]
         == ["a = 1", "b = '2'", "c = 1", "d IN (1,2,3)", "e IS NULL"]
  {
    assert "a" + " " + ("= " + "1") == "a = 1";
    assert "b" + " " + ("= " + "'2'") == "b = '2'";
    assert "c" + " " + ("= " + "1") == "c = 1";
    assert "d" + " " + ("IN (" + "1,2,3" + ")") == "d IN (1,2,3)";
    assert "e" + " " + "IS NULL" == "e IS NULL";
  }

  /** where.rs:195-197: each column of the sample object compared, joined by `AND`. */
  lemma SampleExample()
    ensures var w := Where(Some(Object(Sample)), None, None, None);
      ToSql(w).Ok? && Render(ToSql(w).value)
      == Ok("a = 1" + " AND " + "b = '2'" + " AND " + "c = 1" + " AND " + "d IN (1,2,3)" + " AND " + "e IS NULL")
  {
    var w := Where(Some(Object(Sample)), None, None, None);
    assert ToSql(w) == ObjectCondition(w, Sample);
    SampleInlineTexts();
    JoinFive("a = 1", "b = '2'", "c = 1", "d IN (1,2,3)", "e IS NULL", " AND ");
  }

  /** The sample's texts with `not`. */
  lemma SampleNegatedTexts()
    ensures var w := Where(Some(Object(Sample)), Some(true), None, None);
      EntriesCompare(w, Sample) && EntryTexts(w, Sample) == ["a != 1", "b != '2'", "c != 1", "d NOT IN (1,2,3)", "e IS NOT NULL"]
  {
    SampleTexts(Where(Some(Object(Sample)), Some(true), None, None));
    NegatedGlue();
  }

  lemma NegatedGlue()
    ensures ["a" + " " + ("!= " + "1"),
            "b" + " " + ("!= " + "'2'"),
            "c" + " " + ("!= " + "1"),
            "d" + " " + ("NOT IN (" + "1,2,3" + ")"),
            "e" + " " + "IS NOT NULL"]
         == ["a != 1", "b != '2'", "c != 1", "d NOT IN (1,2,3)", "e IS NOT NULL"]
  {
    assert "a" + " " + ("!= " + "1") == "a != 1";
    assert "b" + " " + ("!= " + "'2'") == "b != '2'";
    assert "c" + " " + ("!= " + "1") == "c != 1";
    assert "d" + " " + ("NOT IN (" + "1,2,3" + ")") == "d NOT IN (1,2,3)";
    assert "e" + " " + "IS NOT NULL" == "e IS NOT NULL";
  }

  /** where.rs:199-201: with `not`, every comparison is negated. */
  lemma SampleNotExample()
    ensures var w := Where(Some(Object(Sample)), Some(true), None, None);
      ToSql(w).Ok? && Render(ToSql(w).value)
      == Ok("a != 1" + " AND " + "b != '2'" + " AND " + "c != 1" + " AND " + "d NOT IN (1,2,3)" + " AND " + "e IS NOT NULL")
  {
    var w := Where(Some(Object(Sample)), Some(true), None, None);
    assert ToSql(w) == ObjectCondition(w, Sample);
    SampleNegatedTexts();
    JoinFive("a != 1", "b != '2'", "c != 1", "d NOT IN (1,2,3)", "e IS NOT NULL", " AND ");
  }

  /** The sample's texts with `not` in prepare mode. */
  lemma SamplePreparedTexts()
    ensures var w := Where(Some(Object(Sample)), Some(true), None, Some(true));
      EntriesCompare(w, Sample) && EntryTexts(w, Sample) == ["a != ?", "b != ?", "c != ?", "d NOT IN (?,?,?)", "e IS NOT NULL"]
  {
    SampleTexts(Where(Some(Object(Sample)), Some(true), None, Some(true)));
    PreparedGlue();
  }

  lemma PreparedGlue()
    ensures ["a" + " " + ("!= " + "?"),
            "b" + " " + ("!= " + "?"),
            "c" + " " + ("!= " + "?"),
            "d" + " " + ("NOT IN (" + "?,?,?" + ")"),
            "e" + " " + "IS NOT NULL"]
         == ["a != ?", "b != ?", "c != ?", "d NOT IN (?,?,?)", "e IS NOT NULL"]
  {
    assert "a" + " " + ("!= " + "?") == "a != ?";
    assert "b" + " " + ("!= " + "?") == "b != ?";
    assert "c" + " " + ("!= " + "?") == "c != ?";
    assert "d" + " " + ("NOT IN (" + "?,?,?" + ")") == "d NOT IN (?,?,?)";
    assert "e" + " " + "IS NOT NULL" == "e IS NOT NULL";
  }

  /** where.rs:203-205: in prepare mode every literal becomes `?`. */
  lemma SamplePreparedExample()
    ensures var w := Where(Some(Object(Sample)), Some(true), None, Some(true));
      ToSql(w).Ok? && ToSql(w).value.value
      == "a != ?" + " AND " + "b != ?" + " AND " + "c != ?" + " AND " + "d NOT IN (?,?,?)" + " AND " + "e IS NOT NULL"
  {
    var w := Where(Some(Object(Sample)), Some(true), None, Some(true));
    assert ToSql(w) == ObjectCondition(w, Sample);
    SamplePreparedTexts();
    JoinFive("a != ?", "b != ?", "c != ?", "d NOT IN (?,?,?)", "e IS NOT NULL", " AND ");
  }

  /** A text with one mark, at its end, filled with one value. */
  lemma {:induction false} FillLastMark(t: string, v: string)
    requires Unmarked(t)
    ensures Marks(t + "?") == 1 && Fill(t + "?", [v]) == t + v
  {
    UnmarkedHasNoMarks(t);
    MarksAppend(t, "?");
    FillConcat(t, "?", [], [v]);
    FillUnmarked(t, []);
    assert [] + [v] == [v];
    assert Fill("?", [v]) == v by {
      assert "?"[1..] == [] && [v][1..] == [];
    }
  }

  /** The template `["active = ?", true]` keeps its text and defers the literal of `true`. */
  lemma ActiveTemplate(w: Where)
    requires w.value == Some(Array([Str("active = ?"), Bool(true)]))
    ensures ToSql(w) == Ok(Fragment("active = ?", Some(["1"])))
  {
    var items := [Str("active = ?"), Bool(true)];
    assert items[1..] == [Bool(true)];
    var args := StringifyAll([Bool(true)]).value;
    assert args[0] == "1";
    assert args == ["1"];
  }

  /** `active = ?` filled with `1`. */
  lemma ActiveFilled()
    ensures var f := Fragment("active = ?", Some(["1"]));
      Renderable(f) && Render(f) == Ok("active = 1")
  {
    var t: string := "active = ";
    assert Unmarked(t) by {
      forall i | 0 <= i < |t| ensures t[i] != '?' {
      }
    }
    FillLastMark(t, "1");
    assert t + "?" == "active = ?" && t + "1" == "active = 1";
  }

  /** where.rs:208-211: the template defers its argument, whose literal fills the `?`. */
  lemma TemplateExample()
    ensures var w := Where(Some(Array([Str("active = ?"), Bool(true)])), None, None, None);
      var f := Fragment("active = ?", Some(["1"]));
      ToSql(w) == Ok(f) && Renderable(f) && Render(f) == Ok("active = 1")
  {
    ActiveTemplate(Where(Some(Array([Str("active = ?"), Bool(true)])), None, None, None));
    ActiveFilled();
  }

  /** where.rs:213-215: in prepare mode the template is kept verbatim. */
  lemma TemplatePreparedExample()
    ensures var w := Where(Some(Array([Str("active = ?"), Bool(true)])), None, None, Some(true));
      ToSql(w).Ok? && ToSql(w).value.value == "active = ?"
  {
  }

  /** where.rs:217-219: a half-open range gives both one-sided comparisons. */
  lemma HalfOpenRangeExample()
    ensures ToSql(NewRange("id", Included("1"), Excluded("100"))) == Ok(Fragment("id >= 1 AND id < 100", None))
  {
    assert "id" + " >= " + "1" == "id >= 1" && "id" + " < " + "100" == "id < 100";
    assert "id >= 1" + " AND " + "id < 100" == "id >= 1 AND id < 100";
  }

  /** where.rs:220-222: a closed range is written with BETWEEN. */
  lemma ClosedRangeExample()
    ensures ToSql(NewRange("id", Included("1"), Included("100"))) == Ok(Fragment("id BETWEEN 1 AND 100", None))
  {
    assert "id" + " BETWEEN " + "1" == "id BETWEEN 1";
    assert "id BETWEEN 1" + " AND " + "100" == "id BETWEEN 1 AND 100";
  }

  /** where.rs:223-228: a range with one bound gives that bound's comparison alone. */
  lemma OneBoundRangeExamples(t: string)
    ensures ToSql(NewRange("expired_at", Unbounded, Included(t))) == Ok(Fragment("expired_at" + " <= " + t, None))
    ensures ToSql(NewRange("expired_at", Included(t), Unbounded)) == Ok(Fragment("expired_at" + " >= " + t, None))
  {
  }

  /** An object as a column value is refused, the message showing it in its `{:?}` form. */
  lemma RefusedObjectExample(w: Where)
    ensures ColumnCondition(w, Object([("a", Null)]))
         == Err(Message("Error: Where Value " + "Object {\"a\": Null}" + " Type Not Support!"))
  {
    DebugCompoundExamples();
  }
}

/**
 * The SQL text accumulator: a text buffer plus an optional list of deferred
 * parameter values, and its rendering, which substitutes the deferred values
 * for the `?` marks from left to right.
 */
module Collectors {
  import opened Wrappers
  import opened Strings

  /** The contents of a `Sql`: its text and, once some value has been deferred, the deferred list. */
  datatype Fragment = Fragment(value: string, prepare: Option<seq<string>>) {

    /** The deferred values; empty while no list exists. */
    function Params(): seq<string> {
      prepare.GetOr([])
    }

    /** Nothing written and nothing deferred: the state a new `Sql` starts in. */
    predicate IsEmpty(): (b: bool)
      ensures b <==> this == EmptyFragment
    {
      value == "" && prepare.None?
    }

    function Push(c: char): Fragment {
      Fragment(value + [c], prepare)
    }

    function PushValue(s: string): Fragment {
      Fragment(value + s, prepare)
    }

    function PushQuoteValue(quote: string, v: string): (r: Fragment)
      ensures r == PushValue(quote).PushValue(v).PushValue(quote)
    {
      Fragment(value + quote + v + quote, prepare)
    }

    /** Defers `p`: appended at the end of the list, which is created as `[p]` when absent. */
    function PushPrepareValue(p: string): (r: Fragment)
      ensures r.value == value && r.prepare.Some? && r.Params() == Params() + [p]
    {
      match prepare
      case Some(ps) => Fragment(value, Some(ps + [p]))
      case None => Fragment(value, Some([p]))
    }

    function PushValueWithPrepareValue(s: string, p: string): (r: Fragment)
      ensures r.value == value + s && r.prepare.Some? && r.Params() == Params() + [p]
    {
      PushValue(s).PushPrepareValue(p)
    }

    /**
     * Appends another fragment: texts and deferred lists are concatenated, and the
     * list stays absent only when both lists are absent.
     */
    function PushSql(other: Fragment): (r: Fragment)
      ensures r.value == value + other.value
      ensures r.Params() == Params() + other.Params()
      ensures r.prepare.None? <==> prepare.None? && other.prepare.None?
    {
      match other.prepare
      case Some(ops) =>
        (match prepare
         case Some(ps) => Fragment(value + other.value, Some(ps + ops))
         case None => Fragment(value + other.value, Some(ops)))
      case None => Fragment(value + other.value, prepare)
    }

    /** Appends every fragment of `sqls`, with `joinStr` between consecutive ones. */
    function PushSqls(sqls: seq<Fragment>, joinStr: string): Fragment
      decreases |sqls|
    {
      if |sqls| == 0 then this
      else if |sqls| == 1 then PushSql(sqls[0])
      else PushSql(sqls[0]).PushValue(joinStr).PushSqls(sqls[1..], joinStr)
    }
  }

  const EmptyFragment := Fragment("", None)

  /** Fragment texts, in order. */
  function Texts(sqls: seq<Fragment>): (r: seq<string>)
    ensures |r| == |sqls| && forall i :: 0 <= i < |sqls| ==> r[i] == sqls[i].value
  {
    seq(|sqls|, i requires 0 <= i < |sqls| => sqls[i].value)
  }

  /** All deferred values of `sqls`, in order. */
  function AllParams(sqls: seq<Fragment>): seq<string> {
    if |sqls| == 0 then [] else sqls[0].Params() + AllParams(sqls[1..])
  }

  /** Pushing a character is pushing the one-character text. */
  lemma PushIsPushValue(f: Fragment, c: char)
    ensures f.Push(c) == f.PushValue([c])
  {
  }

  /** Text written directly is appended like a fragment that defers nothing. */
  lemma PushValueIsPushSql(f: Fragment, s: string)
    ensures f.PushValue(s) == f.PushSql(Fragment(s, None))
  {
  }

  lemma PushSqlAssociative(a: Fragment, b: Fragment, c: Fragment)
    ensures a.PushSql(b).PushSql(c) == a.PushSql(b.PushSql(c))
  {
    assert (a.value + b.value) + c.value == a.value + (b.value + c.value);
    if a.prepare.Some? && b.prepare.Some? && c.prepare.Some? {
      var pa, pb, pc := a.prepare.value, b.prepare.value, c.prepare.value;
      assert (pa + pb) + pc == pa + (pb + pc);
    }
  }

  /**
   * Joining fragments concatenates their texts with the separator and all their
   * deferred lists in order; the list stays absent only if every list is absent.
   */
  lemma {:induction false} PushSqlsMeaning(f: Fragment, sqls: seq<Fragment>, joinStr: string)
    decreases |sqls|
    ensures f.PushSqls(sqls, joinStr).value == f.value + Join(Texts(sqls), joinStr)
    ensures f.PushSqls(sqls, joinStr).Params() == f.Params() + AllParams(sqls)
    ensures f.PushSqls(sqls, joinStr).prepare.None? <==>
              f.prepare.None? && forall i :: 0 <= i < |sqls| ==> sqls[i].prepare.None?
  {
    if |sqls| == 1 {
      assert AllParams(sqls) == sqls[0].Params() + AllParams([]);
    } else if |sqls| > 1 {
      var g := f.PushSql(sqls[0]).PushValue(joinStr);
      PushSqlsMeaning(g, sqls[1..], joinStr);
      assert Texts(sqls[1..]) == Texts(sqls)[1..];
      assert forall i :: 1 <= i < |sqls| ==> sqls[i] == sqls[1..][i - 1];
    }
  }

  /** Each `?` of `s`, from left to right, replaced by the next value of `vals`. */
  function Fill(s: string, vals: seq<string>): string
    requires Marks(s) <= |vals|
    decreases |s|
  {
    if s == [] then ""
    else if s[0] == '?' then vals[0] + Fill(s[1..], vals[1..])
    else [s[0]] + Fill(s[1..], vals)
  }

  /** Rendering cannot run out of deferred values (running out is a panic in the source). */
  predicate Renderable(f: Fragment) {
    f.prepare.Some? ==> Marks(f.value) <= |f.prepare.value|
  }

  const CountMismatch := "prepare sql params count not match: "

  /**
   * `to_sql_string`: without a list the text itself; with one, the filled text, or an
   * error carrying it when some deferred values were left over.
   */
  function Render(f: Fragment): (r: Result<string>)
    requires Renderable(f)
    ensures f.prepare.None? ==> r == Ok(f.value)
    ensures r.Ok? <==> f.prepare.None? || Marks(f.value) == |f.Params()|
    ensures r.Ok? && f.prepare.Some? ==> r.value == Fill(f.value, f.Params())
  {
    match f.prepare
    case None => Ok(f.value)
    case Some(vals) =>
      var raw := Fill(f.value, vals);
      if Marks(f.value) == |vals| then Ok(raw) else Err(Message(CountMismatch + raw))
  }

  lemma {:induction false} FillUnmarked(s: string, vals: seq<string>)
    requires Marks(s) == 0
    ensures Fill(s, vals) == s
  {
    if s != [] {
      FillUnmarked(s[1..], vals);
    }
  }

  /** Filling a concatenation fills each part with its own share of the values. */
  lemma {:induction false} FillConcat(a: string, b: string, va: seq<string>, vb: seq<string>)
    requires Marks(a) == |va| && Marks(b) <= |vb|
    ensures Marks(a + b) <= |va + vb|
    ensures Fill(a + b, va + vb) == Fill(a, va) + Fill(b, vb)
  {
    MarksAppend(a, b);
    if a == [] {
      assert a + b == b && va + vb == vb;
    } else {
      assert (a + b)[0] == a[0] && (a + b)[1..] == a[1..] + b;
      if a[0] == '?' {
        assert (va + vb)[1..] == va[1..] + vb;
        FillConcat(a[1..], b, va[1..], vb);
      } else {
        FillConcat(a[1..], b, va, vb);
      }
    }
  }

  /** `f` renders to `s`: its marks and its deferred values pair up exactly and fill to `s`. */
  predicate Denotes(f: Fragment, s: string) {
    Marks(f.value) == |f.Params()| && Fill(f.value, f.Params()) == s
  }

  lemma DenotesRender(f: Fragment, s: string)
    requires Denotes(f, s)
    ensures Renderable(f) && Render(f) == Ok(s)
  {
    if f.prepare.None? {
      FillUnmarked(f.value, []);
    }
  }

  lemma DenotesPlain(t: string)
    requires Unmarked(t)
    ensures Denotes(Fragment(t, None), t)
  {
    UnmarkedHasNoMarks(t);
    FillUnmarked(t, []);
  }

  lemma DenotesPushSql(a: Fragment, sa: string, b: Fragment, sb: string)
    requires Denotes(a, sa) && Denotes(b, sb)
    ensures Denotes(a.PushSql(b), sa + sb)
  {
    MarksAppend(a.value, b.value);
    FillConcat(a.value, b.value, a.Params(), b.Params());
  }

  lemma DenotesPushValue(a: Fragment, sa: string, t: string)
    requires Denotes(a, sa) && Unmarked(t)
    ensures Denotes(a.PushValue(t), sa + t)
  {
    DenotesPlain(t);
    DenotesPushSql(a, sa, Fragment(t, None), t);
    assert a.PushSql(Fragment(t, None)) == a.PushValue(t);
  }

  /** A `?` deferring `v` renders as `v`, whatever `v` holds. */
  lemma DenotesPlaceholder(a: Fragment, sa: string, v: string)
    requires Denotes(a, sa)
    ensures Denotes(a.PushValueWithPrepareValue("?", v), sa + v)
  {
    var q := Fragment("?", Some([v]));
    assert Fill("?"[1..], [v][1..]) == "";
    assert Denotes(q, v);
    DenotesPushSql(a, sa, q, v);
    assert a.PushSql(q) == a.PushValueWithPrepareValue("?", v);
  }

  /** `n` placeholder marks separated by `sep`. */
  function Placeholders(n: nat, sep: string): string {
    Join(Repeat("?", n), sep)
  }

  /** Filling `n` separated placeholders with `n` values joins the values with the same separator. */
  lemma {:induction false} FillPlaceholders(vals: seq<string>, sep: string)
    requires Unmarked(sep)
    ensures Marks(Placeholders(|vals|, sep)) == |vals|
    ensures Fill(Placeholders(|vals|, sep), vals) == Join(vals, sep)
    decreases |vals|
  {
    var n := |vals|;
    if n == 1 {
      assert Placeholders(1, sep) == "?";
      assert "?"[1..] == [];
    } else if n > 1 {
      var rest := vals[1..];
      assert Repeat("?", n)[1..] == Repeat("?", n - 1);
      assert Placeholders(n, sep) == "?" + sep + Placeholders(n - 1, sep);
      FillPlaceholders(rest, sep);
      UnmarkedHasNoMarks(sep);
      assert ("?" + sep)[0] == '?' && ("?" + sep)[1..] == sep;
      FillUnmarked(sep, []);
      assert [vals[0]][1..] == [];
      MarksAppend("?", sep);
      assert "?" + sep != [];
      assert Fill("?" + sep, [vals[0]]) == [vals[0]][0] + Fill(sep, []);
      FillConcat("?" + sep, Placeholders(n - 1, sep), [vals[0]], rest);
      assert [vals[0]] + rest == vals;
      MarksAppend("?" + sep, Placeholders(n - 1, sep));
    }
  }

  /**
   * Filling a join of `prefix + "?"` items with one value each gives the join of
   * `prefix + value` items, as long as prefixes and separator have no mark.
   */
  lemma {:induction false} FillAffixed(prefixes: seq<string>, vals: seq<string>, sep: string)
    requires |prefixes| == |vals| && Unmarked(sep)
    requires forall i :: 0 <= i < |prefixes| ==> Unmarked(prefixes[i])
    ensures Marks(Join(Affix(prefixes, Repeat("?", |vals|)), sep)) == |vals|
    ensures Fill(Join(Affix(prefixes, Repeat("?", |vals|)), sep), vals) == Join(Affix(prefixes, vals), sep)
    decreases |vals|
  {
    var n := |vals|;
    var marked := Affix(prefixes, Repeat("?", n));
    if n >= 1 {
      var v := vals[0];
      assert "?"[1..] == [] && [v][1..] == [];
      assert Fill("?", [v]) == v;
      if n == 1 {
        Sandwich(prefixes[0], "?", "", [v]);
        assert prefixes[0] + "?" + "" == marked[0];
        assert prefixes[0] + v + "" == Affix(prefixes, vals)[0];
        assert vals == [v];
        assert Join(marked, sep) == marked[0];
      } else {
        var rest := Affix(prefixes[1..], Repeat("?", n - 1));
        assert marked[1..] == rest;
        assert Affix(prefixes, vals)[1..] == Affix(prefixes[1..], vals[1..]);
        FillAffixed(prefixes[1..], vals[1..], sep);
        Sandwich(prefixes[0], "?", sep, [v]);
        FillConcat(prefixes[0] + "?" + sep, Join(rest, sep), [v], vals[1..]);
        MarksAppend(prefixes[0] + "?" + sep, Join(rest, sep));
        assert [v] + vals[1..] == vals;
        assert Join(marked, sep) == prefixes[0] + "?" + sep + Join(rest, sep);
      }
    }
  }

  /** Marks and deferred values pair up exactly. */
  predicate Balanced(f: Fragment) {
    Marks(f.value) == |f.Params()|
  }

  /** The string a balanced fragment renders to. */
  function Literal(f: Fragment): string
    requires Balanced(f)
  {
    Fill(f.value, f.Params())
  }

  /** Unmarked text around a filled middle part passes through unchanged. */
  lemma Sandwich(open: string, mid: string, close: string, vals: seq<string>)
    requires Unmarked(open) && Unmarked(close) && Marks(mid) == |vals|
    ensures Marks(open + mid + close) == |vals|
    ensures Fill(open + mid + close, vals) == open + Fill(mid, vals) + close
  {
    UnmarkedHasNoMarks(open);
    UnmarkedHasNoMarks(close);
    MarksAppend(open, mid);
    MarksAppend(open + mid, close);
    FillUnmarked(open, []);
    FillUnmarked(close, []);
    FillConcat(open, mid, [], vals);
    assert [] + vals == vals;
    FillConcat(open + mid, close, vals, []);
    assert vals + [] == vals;
  }

  /** A fragment with one mark and one deferred value renders with the value in the mark's place. */
  lemma RenderOneMark(open: string, close: string, v: string)
    requires Unmarked(open) && Unmarked(close)
    ensures Renderable(Fragment(open + "?" + close, Some([v])))
    ensures Render(Fragment(open + "?" + close, Some([v]))) == Ok(open + v + close)
  {
    assert Marks("?") == 1 && Fill("?", [v]) == v;
    Sandwich(open, "?", close, [v]);
  }

  /**
   * `p` agrees with `i`: `i` is balanced and `p` renders to the same string as `i`. This is
   * how a prepared fragment relates to the fragment with the same values inlined.
   */
  predicate Agree(p: Fragment, i: Fragment) {
    Balanced(i) && Denotes(p, Literal(i))
  }

  lemma AgreeSelf(f: Fragment)
    requires Balanced(f)
    ensures Agree(f, f)
  {
  }

  lemma AgreePlain(t: string)
    requires Unmarked(t)
    ensures Agree(Fragment(t, None), Fragment(t, None))
    ensures Literal(Fragment(t, None)) == t
  {
    DenotesPlain(t);
  }

  /** Agreement is kept by appending agreeing fragments. */
  lemma AgreePushSql(p1: Fragment, i1: Fragment, p2: Fragment, i2: Fragment)
    requires Agree(p1, i1) && Agree(p2, i2)
    ensures Agree(p1.PushSql(p2), i1.PushSql(i2))
    ensures Literal(i1.PushSql(i2)) == Literal(i1) + Literal(i2)
  {
    DenotesPushSql(p1, Literal(i1), p2, Literal(i2));
    DenotesPushSql(i1, Literal(i1), i2, Literal(i2));
  }

  lemma AgreePushValue(p: Fragment, i: Fragment, t: string)
    requires Agree(p, i) && Unmarked(t)
    ensures Agree(p.PushValue(t), i.PushValue(t))
  {
    AgreePlain(t);
    AgreePushSql(p, i, Fragment(t, None), Fragment(t, None));
    assert p.PushSql(Fragment(t, None)) == p.PushValue(t);
    assert i.PushSql(Fragment(t, None)) == i.PushValue(t);
  }

  /** Agreeing fragments render to the same string, and without error. */
  lemma AgreeRender(p: Fragment, i: Fragment)
    requires Agree(p, i)
    ensures Renderable(p) && Renderable(i)
    ensures Render(p) == Render(i) == Ok(Literal(i))
  {
    DenotesRender(p, Literal(i));
    DenotesRender(i, Literal(i));
  }

  /**
   * A `?` inside inlined literal text is taken for a placeholder too. For example, with
   * `lit` = `b = 'x` and `rest` = `' AND a = `, the text `b = 'x?' AND a = ?` has two marks.
   * The one deferred value lands in the literal, and the real placeholder is left without one.
   */
  lemma InlineMarkIsConsumed(lit: string, rest: string, v: string)
    requires Unmarked(lit) && Unmarked(rest)
    ensures Marks(lit + "?" + rest + "?") == 2
    ensures !Renderable(Fragment(lit + "?" + rest + "?", Some([v])))
  {
    var mark := "?";
    UnmarkedHasNoMarks(lit);
    UnmarkedHasNoMarks(rest);
    assert mark[1..] == [];
    MarksAppend(lit, mark);
    MarksAppend(lit + mark, rest);
    MarksAppend(lit + mark + rest, mark);
  }

  /** The `Sql` collector: a text buffer and an optional deferred-value list, updated in place. */
  class Sql {
    var value: string
    var prepareValue: Option<seq<string>>

    function Model(): Fragment
      reads this
    {
      Fragment(value, prepareValue)
    }

    constructor Default()
      ensures value == "" && prepareValue == None
    {
      value := "";
      prepareValue := None;
    }

    constructor New(v: string)
      ensures value == v && prepareValue == None
    {
      value := v;
      prepareValue := None;
    }

    method Push(c: char)
      modifies this
      ensures value == old(value) + [c] && prepareValue == old(prepareValue)
      ensures Model() == old(Model()).Push(c)
    {
      value := value + [c];
    }

    method PushValue(s: string)
      modifies this
      ensures value == old(value) + s && prepareValue == old(prepareValue)
      ensures Model() == old(Model()).PushValue(s)
    {
      value := value + s;
    }

    method PushQuoteValue(quote: string, v: string)
      modifies this
      ensures value == old(value) + quote + v + quote && prepareValue == old(prepareValue)
      ensures Model() == old(Model()).PushQuoteValue(quote, v)
    {
      PushValue(quote);
      PushValue(v);
      PushValue(quote);
    }

    method PushPrepareValue(p: string)
      modifies this
      ensures value == old(value)
      ensures prepareValue == Some(old(Model()).Params() + [p])
      ensures Model() == old(Model()).PushPrepareValue(p)
    {
      match prepareValue {
        case Some(ps) => prepareValue := Some(ps + [p]);
        case None =>
          assert old(Model()).Params() + [p] == [p];
          prepareValue := Some([p]);
      }
    }

    method PushValueWithPrepareValue(s: string, p: string)
      modifies this
      ensures value == old(value) + s
      ensures prepareValue == Some(old(Model()).Params() + [p])
      ensures Model() == old(Model()).PushValueWithPrepareValue(s, p)
    {
      value := value + s;
      PushPrepareValue(p);
    }

    method PushSql(other: Fragment)
      modifies this
      ensures value == old(value) + other.value
      ensures Model().Params() == old(Model()).Params() + other.Params()
      ensures prepareValue.None? <==> old(prepareValue).None? && other.prepare.None?
      ensures Model() == old(Model()).PushSql(other)
    {
      match other.prepare {
        case Some(ops) =>
          match prepareValue {
            case Some(ps) => prepareValue := Some(ps + ops);
            case None => prepareValue := Some(ops);
          }
          PushValue(other.value);
        case None =>
          PushValue(other.value);
      }
    }

    method PushSqls(sqls: seq<Fragment>, joinStr: string)
      modifies this
      ensures Model() == old(Model()).PushSqls(sqls, joinStr)
    {
      var len := |sqls|;
      var idx := 0;
      while idx < len
        invariant 0 <= idx <= len
        invariant Model().PushSqls(sqls[idx..], joinStr) == old(Model()).PushSqls(sqls, joinStr)
      {
        assert sqls[idx..][0] == sqls[idx] && sqls[idx..][1..] == sqls[idx + 1..];
        PushSql(sqls[idx]);
        if idx != len - 1 {
          PushValue(joinStr);
        }
        idx := idx + 1;
      }
    }

    /** Renders the text, substituting the deferred values for the marks from left to right. */
    method ToSqlString() returns (r: Result<string>)
      requires Renderable(Model())
      ensures r == Render(Model())
    {
      match prepareValue {
        case None =>
          r := Ok(value);
        case Some(vals) =>
          var raw, replaceIdx := Substitute(value, vals);
          if replaceIdx == |vals| {
            r := Ok(raw);
          } else {
            r := Err(Message(CountMismatch + raw));
          }
      }
    }
  }

  /**
   * The character loop of `to_sql_string`: each `?` is replaced by the next deferred value,
   * every other character is copied; `replaceIdx` counts the values used.
   */
  method Substitute(value: string, vals: seq<string>) returns (raw: string, replaceIdx: nat)
    requires Marks(value) <= |vals|
    ensures raw == Fill(value, vals) && replaceIdx == Marks(value)
  {
    replaceIdx := 0;
    raw := "";
    var i := 0;
    while i < |value|
      invariant 0 <= i <= |value|
      invariant replaceIdx + Marks(value[i..]) == Marks(value)
      invariant raw + Fill(value[i..], vals[replaceIdx..]) == Fill(value, vals)
    {
      assert value[i..][0] == value[i] && value[i..][1..] == value[i + 1..];
      if value[i] == '?' {
        assert vals[replaceIdx..][0] == vals[replaceIdx] && vals[replaceIdx..][1..] == vals[replaceIdx + 1..];
        raw := raw + vals[replaceIdx];
        replaceIdx := replaceIdx + 1;
      } else {
        raw := raw + [value[i]];
      }
      i := i + 1;
    }
    assert value[i..] == [];
    assert raw + "" == raw;
  }
}

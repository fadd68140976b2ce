/**
 * The JSON values that conditions, inserts, updates and orderings are written in.
 * An object is the sequence of its (key, value) entries in the map's iteration order;
 * a number is kept as the text its serializer prints.
 */
module Json {
  import opened Strings

  datatype Value =
    | Null
    | Bool(b: bool)
    | Number(text: string)
    | Str(s: string)
    | Array(items: seq<Value>)
    | Object(entries: seq<(string, Value)>)
  {
    predicate IsScalar() {
      Null? || Bool? || Number? || Str?
    }
  }

  /** The keys of an object, in iteration order. */
  function Keys(entries: seq<(string, Value)>): (r: seq<string>)
    ensures |r| == |entries| && forall i :: 0 <= i < |entries| ==> r[i] == entries[i].0
  {
    seq(|entries|, i requires 0 <= i < |entries| => entries[i].0)
  }

  /** The values of an object, in iteration order. */
  function Values(entries: seq<(string, Value)>): (r: seq<Value>)
    ensures |r| == |entries| && forall i :: 0 <= i < |entries| ==> r[i] == entries[i].1
  {
    seq(|entries|, i requires 0 <= i < |entries| => entries[i].1)
  }

  /**
   * Compact JSON text of a value, as `Value::to_string` prints it (string escapes are not
   * modelled): strings in double quotes, lists in brackets, objects in braces.
   */
  function Text(v: Value): (r: string)
    ensures v.Null? ==> r == "null"
    ensures v.Str? ==> |r| == |v.s| + 2 && r[0] == '"' && r[1..|r| - 1] == v.s && r[|r| - 1] == '"'
    ensures v.Array? ==> |r| >= 2 && r[0] == '[' && r[|r| - 1] == ']'
    ensures v.Object? ==> |r| >= 2 && r[0] == '{' && r[|r| - 1] == '}'
  {
    match v
    case Null => "null"
    case Bool(b) => if b then "true" else "false"
    case Number(t) => t
    case Str(s) => "\"" + s + "\""
    case Array(items) =>
      "[" + Join(seq(|items|, i requires 0 <= i < |items| => Text(items[i])), ",") + "]"
    case Object(entries) =>
      "{" + Join(seq(|entries|, i requires 0 <= i < |entries| => "\"" + entries[i].0 + "\":" + Text(entries[i].1)), ",") + "}"
  }

  /**
   * No string, number text or key anywhere in `v` holds a `?`: inlining its literals
   * cannot introduce a placeholder mark.
   */
  predicate Plain(v: Value) {
    match v
    case Null => true
    case Bool(_) => true
    case Number(t) => Unmarked(t)
    case Str(s) => Unmarked(s)
    case Array(items) => forall i :: 0 <= i < |items| ==> Plain(items[i])
    case Object(entries) => forall i :: 0 <= i < |entries| ==> Unmarked(entries[i].0) && Plain(entries[i].1)
  }

  /** The JSON text of a value without marks has no mark either. */
  lemma {:induction false} TextUnmarked(v: Value)
    requires Plain(v)
    ensures Unmarked(Text(v))
    decreases v
  {
    match v {
      case Array(items) =>
        var texts := seq(|items|, i requires 0 <= i < |items| => Text(items[i]));
        forall i | 0 <= i < |items| ensures Unmarked(texts[i]) {
          TextUnmarked(items[i]);
        }
        JoinUnmarked(texts, ",");
      case Object(entries) =>
        var texts := seq(|entries|, i requires 0 <= i < |entries| => "\"" + entries[i].0 + "\":" + Text(entries[i].1));
        forall i | 0 <= i < |entries| ensures Unmarked(texts[i]) {
          assert entries[i].1 < v;
          TextUnmarked(entries[i].1);
        }
        JoinUnmarked(texts, ",");
      case _ =>
    }
  }

  // ---------------------------------------------------------------------------------
  // The `{:?}` (Debug) form error messages quote values in.

  /**
   * One character as Rust's `Debug` writes it inside a quoted string: NUL, tab, carriage
   * return, line feed, backslash and the double quote are escaped; any other character is
   * written as it is (the `\u{..}` escapes of non-printable characters are not modelled).
   */
  function EscapedChar(c: char): (r: string)
    ensures |r| == 1 <==> r == [c]
    ensures |r| == 2 ==> r[0] == '\\'
    ensures 1 <= |r| <= 2
  {
    match c
    case '\0' => "\\0"
    case '\t' => "\\t"
    case '\r' => "\\r"
    case '\n' => "\\n"
    case '\\' => "\\\\"
    case '"' => "\\\""
    case _ => [c]
  }

  /** Every character of `s` escaped, in order; escaping never shortens the text. */
  function Escaped(s: string): (r: string)
    ensures |r| >= |s|
    decreases |s|
  {
    if s == [] then "" else EscapedChar(s[0]) + Escaped(s[1..])
  }

  /** A string's `Debug` form: the escaped text between double quotes. */
  function DebugString(s: string): (r: string)
    ensures |r| >= |s| + 2 && r[0] == '"' && r[|r| - 1] == '"'
  {
    "\"" + Escaped(s) + "\""
  }

  /** The character an escape sequence `\c` stands for. */
  function EscapeCode(c: char): char {
    match c
    case '0' => '\0'
    case 't' => '\t'
    case 'r' => '\r'
    case 'n' => '\n'
    case _ => c
  }

  /** Reading escaped text back: a backslash and the next character give one character. */
  function Unescaped(t: string): string
    decreases |t|
  {
    if t == [] then ""
    else if t[0] == '\\' && |t| >= 2 then [EscapeCode(t[1])] + Unescaped(t[2..])
    else [t[0]] + Unescaped(t[1..])
  }

  /** Escaping loses nothing: the escaped text reads back to the original string. */
  lemma {:induction false} EscapedRoundTrip(s: string)
    ensures Unescaped(Escaped(s)) == s
    decreases |s|
  {
    if s != [] {
      EscapedRoundTrip(s[1..]);
      var e, rest := EscapedChar(s[0]), Escaped(s[1..]);
      var t := e + rest;
      if |e| == 2 {
        assert t[0] == '\\' && t[2..] == rest;
        assert EscapeCode(t[1]) == s[0];
      } else {
        assert t[0] == s[0] && t[1..] == rest;
      }
    }
  }

  /** The name `Debug` writes first for each kind of value. */
  function Kind(v: Value): string {
    match v
    case Null => "Null"
    case Bool(_) => "Bool"
    case Number(_) => "Number"
    case Str(_) => "String"
    case Array(_) => "Array"
    case Object(_) => "Object"
  }

  /**
   * `{:?}` of a `serde_json::Value`: `Null`, `Bool(true)`, `Number(1)`, `String("x")`,
   * `Array [..]` with the items separated by `, `, and `Object {..}` with `"key": value`
   * entries separated by `, `. The text starts with the value's kind.
   */
  function Debug(v: Value): (r: string)
    ensures Kind(v) <= r
  {
    match v
    case Null => "Null"
    case Bool(b) => "Bool(" + (if b then "true" else "false") + ")"
    case Number(t) => "Number(" + t + ")"
    case Str(s) => "String(" + DebugString(s) + ")"
    case Array(items) =>
      "Array [" + Join(seq(|items|, i requires 0 <= i < |items| => Debug(items[i])), ", ") + "]"
    case Object(entries) =>
      "Object {" + Join(seq(|entries|, i requires 0 <= i < |entries| => DebugString(entries[i].0) + ": " + Debug(entries[i].1)), ", ") + "}"
  }

  /** `{:?}` of `Some(v)`, as the statements print their optional value. */
  function DebugSome(v: Value): (r: string)
    ensures "Some(" + Kind(v) <= r && r[|r| - 1] == ')'
  {
    var d := Debug(v);
    assert ("Some(" + d + ")")[..5 + |Kind(v)|] == "Some(" + d[..|Kind(v)|];
    "Some(" + d + ")"
  }

  /** Values of different kinds never print alike: an error message tells which kind was refused. */
  lemma DebugTellsKinds(a: Value, b: Value)
    requires Debug(a) == Debug(b)
    ensures Kind(a) == Kind(b)
  {
    var ka, kb, d := Kind(a), Kind(b), Debug(a);
    assert d[..|ka|] == ka && d[..|kb|] == kb;
    // the kinds differ in their first letter, or for `Null`/`Number` in their third
    assert ka[0] == d[0] == kb[0] && ka[2] == d[2] == kb[2];
  }

  /** The `{:?}` forms of a string, a number and an optional number. */
  lemma DebugScalarExamples()
    ensures Debug(Str("x")) == "String(\"x\")"
    ensures Debug(Number("1")) == "Number(1)"
    ensures Debug(Bool(true)) == "Bool(true)"
    ensures DebugSome(Number("1")) == "Some(Number(1))"
  {
    assert Escaped("x") == "x" by {
      assert "x"[1..] == "";
    }
    assert "\"" + "x" + "\"" == "\"x\"";
    assert "String(" + "\"x\"" + ")" == "String(\"x\")";
    assert "Number(" + "1" + ")" == "Number(1)";
    assert "Bool(" + "true" + ")" == "Bool(true)";
    assert "Some(" + "Number(1)" + ")" == "Some(Number(1))";
  }

  /** The `{:?}` forms of a list and of an object: items and entries separated by `, `. */
  lemma DebugCompoundExamples()
    ensures Debug(Array([Number("1"), Null])) == "Array [Number(1), Null]"
    ensures Debug(Object([("a", Null)])) == "Object {\"a\": Null}"
  {
    DebugScalarExamples();
    var items := seq(2, i requires 0 <= i < 2 => Debug([Number("1"), Null][i]));
    assert items == ["Number(1)", "Null"];
    assert Join(items, ", ") == "Number(1)" + ", " + "Null";
    assert "Array [" + ("Number(1)" + ", " + "Null") + "]" == "Array [Number(1), Null]";
    assert Escaped("a") == "a" by {
      assert "a"[1..] == "";
    }
    var entries := seq(1, i requires 0 <= i < 1 => DebugString([("a", Null)][i].0) + ": " + Debug([("a", Null)][i].1));
    assert entries == ["\"" + "a" + "\"" + ": " + "Null"];
    assert "Object {" + ("\"" + "a" + "\"" + ": " + "Null") + "}" == "Object {\"a\": Null}";
  }
}

/** Rendering of one JSON value as an inline SQL literal. */
module Methods {
  import opened Wrappers
  import opened Strings
  import opened Json

  const UnsupportedLiteral := "Error: json_value_to_string value type not support!"

  /**
   * `json_value_to_string`: a string is single-quoted (embedded quotes are not escaped),
   * a boolean is 1 or 0, null and numbers print as JSON does, and arrays and objects
   * are refused with a message that shows them in their `{:?}` form.
   */
  function JsonValueToString(v: Value): (r: Result<string>)
    ensures r.Ok? <==> v.IsScalar()
    ensures v.Str? ==> r == Ok("'" + v.s + "'")
    ensures v.Bool? ==> r == Ok(if v.b then "1" else "0")
    ensures v.Null? || v.Number? ==> r == Ok(Text(v))
    ensures !v.IsScalar() ==> r == Err(Message(UnsupportedLiteral + " " + Debug(v)))
    ensures r.Ok? && Plain(v) ==> Unmarked(r.value)
  {
    match v
    case Str(s) => Ok("'" + s + "'")
    case Bool(b) => Ok(if b then "1" else "0")
    case Array(_) => Err(Message(UnsupportedLiteral + " " + Debug(v)))
    case Object(_) => Err(Message(UnsupportedLiteral + " " + Debug(v)))
    case _ => Ok(Text(v))
  }

  /**
   * The literals of `xs` in order, or the error of the first value that has none
   * (a `collect` into `Result<Vec<String>>`).
   */
  function StringifyAll(xs: seq<Value>): (r: Result<seq<string>>)
    ensures r.Ok? <==> forall i :: 0 <= i < |xs| ==> xs[i].IsScalar()
    ensures r.Ok? ==> |r.value| == |xs| &&
                      forall i :: 0 <= i < |xs| ==> Ok(r.value[i]) == JsonValueToString(xs[i])
    decreases |xs|
  {
    if |xs| == 0 then Ok([])
    else
      var init :- StringifyAll(xs[..|xs| - 1]);
      var last :- JsonValueToString(xs[|xs| - 1]);
      Ok(init + [last])
  }

  /** Literals of values without marks carry no marks either. */
  lemma StringifyAllUnmarked(xs: seq<Value>)
    requires forall i :: 0 <= i < |xs| ==> Plain(xs[i])
    requires StringifyAll(xs).Ok?
    ensures forall i :: 0 <= i < |xs| ==> Unmarked(StringifyAll(xs).value[i])
  {
    var vs := StringifyAll(xs).value;
    forall i | 0 <= i < |xs| ensures Unmarked(vs[i]) {
      assert Ok(vs[i]) == JsonValueToString(xs[i]);
    }
  }

  /** An element without a literal makes every longer list fail with that same error. */
  lemma {:induction false} StringifyAllPrefixErr(xs: seq<Value>, k: nat)
    requires k <= |xs| && StringifyAll(xs[..k]).Err?
    ensures StringifyAll(xs) == StringifyAll(xs[..k])
    decreases |xs|
  {
    if k < |xs| {
      var init := xs[..|xs| - 1];
      assert init[..k] == xs[..k];
      StringifyAllPrefixErr(init, k);
    } else {
      assert xs[..k] == xs;
    }
  }

  /** One more value with a literal extends the literals by its own. */
  lemma {:induction false} StringifyAllNext(xs: seq<Value>, k: nat)
    requires k < |xs| && StringifyAll(xs[..k]).Ok? && xs[k].IsScalar()
    ensures StringifyAll(xs[..k + 1]) == Ok(StringifyAll(xs[..k]).value + [JsonValueToString(xs[k]).value])
  {
    assert xs[..k + 1][..k] == xs[..k];
  }

  /** One more value without a literal fails the whole list with its error. */
  lemma {:induction false} StringifyAllNextErr(xs: seq<Value>, k: nat)
    requires k < |xs| && StringifyAll(xs[..k]).Ok? && !xs[k].IsScalar()
    ensures StringifyAll(xs) == Err(JsonValueToString(xs[k]).error)
  {
    var prefix := xs[..k + 1];
    assert prefix[..k] == xs[..k] && prefix[k] == xs[k];
    var e := JsonValueToString(xs[k]);
    assert StringifyAll(prefix) == Err(e.error);
    StringifyAllPrefixErr(xs, k + 1);
  }

  /** The `collect` of literals, value by value: it stops at the first value without one. */
  method StringifyEach(xs: seq<Value>) returns (r: Result<seq<string>>)
    ensures r == StringifyAll(xs)
  {
    var out: seq<string> := [];
    var idx := 0;
    while idx < |xs|
      invariant 0 <= idx <= |xs|
      invariant StringifyAll(xs[..idx]) == Ok(out)
    {
      assert xs[..idx + 1][..idx] == xs[..idx];
      var literal := JsonValueToString(xs[idx]);
      if literal.Err? {
        StringifyAllPrefixErr(xs, idx + 1);
        return Err(literal.error);
      }
      out := out + [literal.value];
      idx := idx + 1;
    }
    assert xs[..idx] == xs;
    r := Ok(out);
  }

  /** A list has no literal; the message shows it in its `{:?}` form. */
  lemma RefusedListExample()
    ensures JsonValueToString(Array([Number("1"), Null]))
         == Err(Message("Error: json_value_to_string value type not support!" + " " + "Array [Number(1), Null]"))
  {
    DebugCompoundExamples();
  }
}

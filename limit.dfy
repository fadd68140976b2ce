/** The LIMIT clause. */
module LimitStatement {
  import opened Wrappers
  import opened Strings
  import opened Collectors

  datatype Limit = Limit(value: nat)

  /** `Limit::new`. */
  function New(value: nat): (l: Limit)
    requires value <= UsizeMax
    ensures l.value == value
  {
    Limit(value)
  }

  const Keyword := "LIMIT "

  /** `Limit::to_sql`: `LIMIT n` in decimal; it never fails and defers nothing. */
  function ToSql(l: Limit): (r: Result<Fragment>)
    ensures r.Ok? && r.value.prepare.None? && Unmarked(r.value.value)
    ensures |r.value.value| > |Keyword| && r.value.value[..|Keyword|] == Keyword
    ensures forall i :: |Keyword| <= i < |r.value.value| ==> '0' <= r.value.value[i] <= '9'
  {
    DecimalUnmarked(l.value);
    Ok(EmptyFragment.PushValue(Keyword + NatToString(l.value)))
  }

  /** The count can be read back from the clause: its digits are the count's value. */
  lemma ReadBack(l: Limit)
    ensures DigitsValue(ToSql(l).value.value[|Keyword|..]) == l.value
  {
    var text := ToSql(l).value.value;
    assert text[|Keyword|..] == NatToString(l.value);
    NatToStringRoundTrip(l.value);
  }
}

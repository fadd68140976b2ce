/** The OFFSET clause. */
module OffsetStatement {
  import opened Wrappers
  import opened Strings
  import opened Collectors

  datatype Offset = Offset(value: nat)

  /** `Offset::new`. */
  function New(value: nat): (o: Offset)
    requires value <= UsizeMax
    ensures o.value == value
  {
    Offset(value)
  }

  const Keyword := "OFFSET "

  /** `Offset::to_sql`: `OFFSET n` in decimal; it never fails and defers nothing. */
  function ToSql(o: Offset): (r: Result<Fragment>)
    ensures r.Ok? && r.value.prepare.None? && Unmarked(r.value.value)
    ensures |r.value.value| > |Keyword| && r.value.value[..|Keyword|] == Keyword
    ensures forall i :: |Keyword| <= i < |r.value.value| ==> '0' <= r.value.value[i] <= '9'
  {
    DecimalUnmarked(o.value);
    Ok(EmptyFragment.PushValue(Keyword + NatToString(o.value)))
  }

  /** The offset can be read back from the clause: its digits are the offset's value. */
  lemma ReadBack(o: Offset)
    ensures DigitsValue(ToSql(o).value.value[|Keyword|..]) == o.value
  {
    var text := ToSql(o).value.value;
    assert text[|Keyword|..] == NatToString(o.value);
    NatToStringRoundTrip(o.value);
  }
}

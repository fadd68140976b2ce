/** A JOIN clause, given as raw SQL. */
module JoinStatement {
  import opened Wrappers
  import opened Collectors

  datatype Join = Join(value: Option<string>)

  const JoinValueMissing := "Error: Join Value Must Exists!"

  /** `Join::to_sql`: the clause text; a join without text is an error. */
  function ToSql(j: Join): (r: Result<Fragment>)
    ensures r.Ok? <==> j.value.Some?
    ensures r.Ok? ==> r.value == Fragment(j.value.value, None)
    ensures r.Err? ==> r.error == Message(JoinValueMissing)
  {
    match j.value
    case Some(v) => Ok(EmptyFragment.PushValue(v))
    case None => Err(Message(JoinValueMissing))
  }
}

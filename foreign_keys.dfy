/**
 * Foreign-key clauses of a table definition: the referential action words and the
 * `FOREIGN KEY ... REFERENCES ...` clause a foreign-key column renders.
 */
module ForeignKeys {
  import opened Wrappers
  import opened Strings
  import opened ColumnActions

  /** `ON UPDATE` / `ON DELETE` referential actions; `Custom` carries its own text. */
  datatype ReferenceOption = NoAction | SetNull | Cascade | Restrict | Custom(text: string)

  /** The words of a referential action as the source spells them: `Cascade` comes out misspelt. */
  function ReferenceSqlAsWritten(o: ReferenceOption): (r: string)
    ensures o != Cascade ==> r == ReferenceSql(o)
    ensures o == Cascade ==> r != ReferenceSql(o)
  {
    match o
    case NoAction => "NO ACTION"
    case SetNull => "SET NULL"
    case Cascade => "CANSCADE"
    case Restrict => "RESTRICT"
    case Custom(t) => t
  }

  /** The words of a referential action, with the SQL keyword `CASCADE` spelt correctly. */
  function ReferenceSql(o: ReferenceOption): (r: string)
    ensures o.Custom? ==> r == o.text
    ensures !o.Custom? ==> r in {"NO ACTION", "SET NULL", "CASCADE", "RESTRICT"}
  {
    match o
    case NoAction => "NO ACTION"
    case SetNull => "SET NULL"
    case Cascade => "CASCADE"
    case Restrict => "RESTRICT"
    case Custom(t) => t
  }

  /** The four named actions render four different keywords, so none is mistaken for another. */
  lemma ReferenceSqlInjective(a: ReferenceOption, b: ReferenceOption)
    requires !a.Custom? && !b.Custom?
    ensures ReferenceSql(a) == ReferenceSql(b) <==> a == b
  {
  }

  /** The as-written spelling of `Cascade` is not the SQL keyword; the other actions agree. */
  lemma CascadeMisspelt()
    ensures ReferenceSqlAsWritten(Cascade) == "CANSCADE"
    ensures ReferenceSql(Cascade) == "CASCADE"
    ensures forall o: ReferenceOption :: o != Cascade ==> ReferenceSqlAsWritten(o) == ReferenceSql(o)
  {
  }

  datatype ForeignKey = ForeignKey(
    columnNames: seq<string>,
    indexName: Option<string>,
    referenceTable: string,
    referenceColumns: seq<string>,
    onUpdate: Option<ReferenceOption>,
    onDelete: Option<ReferenceOption>)

  /** English pluralisation of a table stem; the crate uses a foreign inflection library. */
  function Plural(s: string): string {
    s + "s"
  }

  predicate EndsWithId(c: string) {
    |c| >= 3 && c[|c| - 3..] == "_id"
  }

  /** The regular expression `_id$` replaced by nothing: one trailing `_id` is removed. */
  function StripId(c: string): (r: string)
    ensures EndsWithId(c) ==> r + "_id" == c
    ensures !EndsWithId(c) ==> r == c
  {
    if EndsWithId(c) then c[..|c| - 3] else c
  }

  /** `ForeignKey::from(column)`: the conventional key on `column` referencing `id` of the plural table. */
  function From(column: string): ForeignKey {
    ForeignKey([column], Some("fk_on_" + column), Plural(StripId(column)), ["id"], None, None)
  }

  function OptionClause(o: Option<ReferenceOption>): string {
    if o.Some? then " " + ReferenceSql(o.value) else ""
  }

  /** `FOREIGN KEY` and the index name, the part a dropped key renders. */
  function Head(fk: ForeignKey): string {
    "FOREIGN KEY" + (if fk.indexName.Some? then " " + fk.indexName.value else "")
  }

  /**
   * The clause of a foreign key for a column with the given action: only the head when
   * the key is dropped, otherwise the head, the referencing and referenced columns and the
   * referential actions that are set.
   */
  function ForeignKeySql(fk: ForeignKey, action: ColumnTypeAction): string {
    if action.DropConstraint? then Head(fk)
    else
      Head(fk) + " (" + Join(fk.columnNames, ",") + ") REFERENCES " + fk.referenceTable
      + " (" + Join(fk.referenceColumns, ",") + ")" + OptionClause(fk.onUpdate) + OptionClause(fk.onDelete)
  }

  /** A dropped key renders its head alone; any other starts with the head, the columns and the referenced table. */
  lemma ForeignKeySqlShape(fk: ForeignKey, action: ColumnTypeAction)
    ensures Head(fk) <= ForeignKeySql(fk, action)
    ensures ForeignKeySql(fk, action) == Head(fk) <==> action.DropConstraint?
    ensures !action.DropConstraint? ==>
      Head(fk) + " (" + Join(fk.columnNames, ",") + ") REFERENCES " + fk.referenceTable <= ForeignKeySql(fk, action)
  {
    var r := ForeignKeySql(fk, action);
    if !action.DropConstraint? {
      var p := Head(fk) + " (" + Join(fk.columnNames, ",") + ") REFERENCES " + fk.referenceTable;
      assert r[..|p|] == p;
      assert r[..|Head(fk)|] == Head(fk);
      assert |r| > |Head(fk)|;
    }
  }

  /** What `From(c)` renders: `FOREIGN KEY fk_on_c (c) REFERENCES <plural stem> (id)`, or only its head when dropped. */
  lemma FromSql(c: string, action: ColumnTypeAction)
    ensures action.DropConstraint? ==> ForeignKeySql(From(c), action) == "FOREIGN KEY fk_on_" + c
    ensures !action.DropConstraint? ==>
      ForeignKeySql(From(c), action)
      == "FOREIGN KEY fk_on_" + c + " (" + c + ") REFERENCES " + Plural(StripId(c)) + " (id)"
  {
    var fk := From(c);
    assert Join([c], ",") == c;
    assert Join(["id"], ",") == "id";
    assert Head(fk) == "FOREIGN KEY fk_on_" + c;
    assert OptionClause(None) == "";
    if !action.DropConstraint? {
      var p := Head(fk) + " (" + c + ") REFERENCES " + Plural(StripId(c)) + " (" + "id" + ")";
      assert ForeignKeySql(fk, action) == p + "" + "";
      assert p + "" + "" == p;
    }
  }

  /** A `<table>_id` column references the plural of its stem, e.g. `user_id` references `users`. */
  lemma {:induction false} IdColumnReferencesStem(stem: string)
    ensures From(stem + "_id").referenceTable == Plural(stem)
    ensures From("user_id").referenceTable == "users"
  {
    var c := stem + "_id";
    assert c[|c| - 3..] == "_id";
    assert c[..|c| - 3] == stem;
    var u := "user_id";
    assert u[|u| - 3..] == "_id";
    assert u[..|u| - 3] == "user";
  }
}

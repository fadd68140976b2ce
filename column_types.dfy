/**
 * Column type descriptors of a table definition: their attributes, the setters that
 * configure them, the column definition a value type renders (`INT UNSIGNED NOT NULL ...`)
 * and the constraint clauses (primary key, unique/index, foreign key) every type can add.
 */
module ColumnTypes {
  import opened Wrappers
  import opened Strings
  import opened Dialects
  import opened ColumnActions
  import opened ForeignKeys

  type Byte = b: nat | b < 256

  /** The attributes every value type carries; `nullable` is the source's `null` flag. */
  datatype Attrs = Attrs(
    nullable: Option<bool>,
    comment: Option<string>,
    index: Option<bool>,
    unique: Option<bool>,
    primaryKey: Option<bool>)

  const NoAttrs := Attrs(None, None, None, None, None)

  /**
   * One descriptor per column type. Lengths, sizes and precisions that the source keeps
   * as an always-present `Option` are plain numbers here; floating-point defaults are the
   * text their formatter prints.
   */
  datatype ColumnType =
    | Boolean(defaultFlag: Option<bool>, attrs: Attrs)
    | Integer(
        limit: Option<nat>, bitType: Option<nat>, unsigned: Option<bool>, zerofill: Option<bool>,
        defaultNumber: Option<int>, autoIncrement: Option<bool>, foreignKey: Option<ForeignKey>, attrs: Attrs)
    | Double(defaultText: Option<string>, attrs: Attrs)
    | Decimal(precision: nat, scale: nat, defaultText: Option<string>, attrs: Attrs)
    | Str(isChar: Option<bool>, length: nat, defaultText: Option<string>, attrs: Attrs)
    | Text(defaultText: Option<string>, attrs: Attrs)
    | Json(defaultText: Option<string>, attrs: Attrs)
    | Blob(defaultText: Option<string>, attrs: Attrs)
    | Date(defaultText: Option<string>, attrs: Attrs)
    | Datetime(defaultText: Option<string>, attrs: Attrs)
    | Timestamp(defaultText: Option<string>, onCreate: Option<bool>, onUpdate: Option<bool>, attrs: Attrs)
    | Binary(isBinary: Option<bool>, byte: nat, defaultBytes: Option<seq<Byte>>, attrs: Attrs)
    | Index(index: Option<bool>, unique: Option<bool>)
    | Unique(index: Option<bool>, unique: Option<bool>)
    | PrimaryKey(primaryKey: Option<bool>)
    | ForeignKeyType(foreignKey: Option<ForeignKey>)
  {
    /** The value types, which render a column definition; the other four only add constraints. */
    predicate HasAttrs() {
      !(Index? || Unique? || PrimaryKey? || ForeignKeyType?)
    }

    /** The value types whose default is a piece of text. */
    predicate HasTextDefault() {
      Double? || Decimal? || Str? || Text? || Json? || Blob? || Date? || Datetime? || Timestamp?
    }
  }

  // The descriptors as each type's `Default` builds them.
  const DefaultBoolean := Boolean(None, NoAttrs)
  const DefaultInteger := Integer(None, None, None, None, None, None, None, NoAttrs)
  const DefaultDouble := Double(None, NoAttrs)
  const DefaultDecimal := Decimal(30, 6, None, NoAttrs)
  const DefaultString := Str(None, 255, None, NoAttrs)
  const DefaultText := Text(None, NoAttrs)
  const DefaultJson := Json(None, NoAttrs)
  const DefaultBlob := Blob(None, NoAttrs)
  const DefaultDate := Date(None, NoAttrs)
  const DefaultDatetime := Datetime(None, NoAttrs)
  const DefaultTimestamp := Timestamp(None, None, None, NoAttrs)
  const DefaultBinary := Binary(None, 255, None, NoAttrs)
  const DefaultIndex := Index(Some(true), None)
  const DefaultUnique := Unique(None, Some(true))
  const DefaultPrimaryKey := PrimaryKey(Some(true))
  const DefaultForeignKey := ForeignKeyType(None)

  /** The default descriptor of one of the value types. */
  predicate IsValueDefault(t: ColumnType) {
    t in {DefaultBoolean, DefaultInteger, DefaultDouble, DefaultDecimal, DefaultString, DefaultText,
          DefaultJson, DefaultBlob, DefaultDate, DefaultDatetime, DefaultTimestamp, DefaultBinary}
  }

  // The capability queries: a type that does not override one answers None.

  function PrimaryKeyOf(t: ColumnType): (r: Option<bool>)
    ensures !t.HasAttrs() && !t.PrimaryKey? ==> r.None?
  {
    if t.HasAttrs() then t.attrs.primaryKey else if t.PrimaryKey? then t.primaryKey else None
  }

  function UniqueOf(t: ColumnType): (r: Option<bool>)
    ensures t.PrimaryKey? || t.ForeignKeyType? ==> r.None?
  {
    if t.HasAttrs() then t.attrs.unique else if t.Index? || t.Unique? then t.unique else None
  }

  function IndexOf(t: ColumnType): (r: Option<bool>)
    ensures t.PrimaryKey? || t.ForeignKeyType? ==> r.None?
  {
    if t.HasAttrs() then t.attrs.index else if t.Index? || t.Unique? then t.index else None
  }

  function ForeignKeyOf(t: ColumnType): (r: Option<ForeignKey>)
    ensures !t.Integer? && !t.ForeignKeyType? ==> r.None?
  {
    if t.Integer? || t.ForeignKeyType? then t.foreignKey else None
  }

  /**
   * A descriptor being configured (the builder callbacks receive one). Setters that a
   * type does not override leave it unchanged, as the trait's defaults do; setters that
   * exist on one type only require that type.
   */
  class Descriptor {
    var def: ColumnType

    constructor (initial: ColumnType)
      ensures def == initial
    {
      def := initial;
    }

    method SetNull(nullable: bool)
      modifies this
      ensures old(def).HasAttrs() ==> def == old(def).(attrs := old(def).attrs.(nullable := Some(nullable)))
      ensures !old(def).HasAttrs() ==> def == old(def)
    {
      if def.HasAttrs() {
        def := def.(attrs := def.attrs.(nullable := Some(nullable)));
      }
    }

    /** `set_not_null(b)` is `set_null(!b)`. */
    method SetNotNull(notNull: bool)
      modifies this
      ensures old(def).HasAttrs() ==> def == old(def).(attrs := old(def).attrs.(nullable := Some(!notNull)))
      ensures !old(def).HasAttrs() ==> def == old(def)
    {
      SetNull(!notNull);
    }

    method SetComment(comment: string)
      modifies this
      ensures old(def).HasAttrs() ==> def == old(def).(attrs := old(def).attrs.(comment := Some(comment)))
      ensures !old(def).HasAttrs() ==> def == old(def)
    {
      if def.HasAttrs() {
        def := def.(attrs := def.attrs.(comment := Some(comment)));
      }
    }

    /** An `Index` descriptor keeps its own index flag: only value types and `Unique` take this one. */
    method SetIndex(index: bool)
      modifies this
      ensures old(def).HasAttrs() ==> def == old(def).(attrs := old(def).attrs.(index := Some(index)))
      ensures old(def).Unique? ==> def == Unique(Some(index), old(def).unique)
      ensures !old(def).HasAttrs() && !old(def).Unique? ==> def == old(def)
    {
      if def.HasAttrs() {
        def := def.(attrs := def.attrs.(index := Some(index)));
      } else if def.Unique? {
        def := Unique(Some(index), def.unique);
      }
    }

    /** A `Unique` descriptor keeps its own unique flag: only value types and `Index` take this one. */
    method SetUnique(unique: bool)
      modifies this
      ensures old(def).HasAttrs() ==> def == old(def).(attrs := old(def).attrs.(unique := Some(unique)))
      ensures old(def).Index? ==> def == Index(old(def).index, Some(unique))
      ensures !old(def).HasAttrs() && !old(def).Index? ==> def == old(def)
    {
      if def.HasAttrs() {
        def := def.(attrs := def.attrs.(unique := Some(unique)));
      } else if def.Index? {
        def := Index(def.index, Some(unique));
      }
    }

    /** The `PrimaryKey` descriptor's own setter is disabled, so it stays a primary key. */
    method SetPrimaryKey(primaryKey: bool)
      modifies this
      ensures old(def).HasAttrs() ==> def == old(def).(attrs := old(def).attrs.(primaryKey := Some(primaryKey)))
      ensures !old(def).HasAttrs() ==> def == old(def)
    {
      if def.HasAttrs() {
        def := def.(attrs := def.attrs.(primaryKey := Some(primaryKey)));
      }
    }

    /** Only `Integer` and the `ForeignKey` descriptor hold a foreign key. */
    method SetForeignKey(fk: ForeignKey)
      modifies this
      ensures old(def).Integer? || old(def).ForeignKeyType? ==> def == old(def).(foreignKey := Some(fk))
      ensures !old(def).Integer? && !old(def).ForeignKeyType? ==> def == old(def)
    {
      if def.Integer? || def.ForeignKeyType? {
        def := def.(foreignKey := Some(fk));
      }
    }

    method SetLimit(limit: nat)
      requires def.Integer? && limit < 256
      modifies this
      ensures def == old(def).(limit := Some(limit))
    {
      def := def.(limit := Some(limit));
    }

    method SetTinyintType()
      requires def.Integer?
      modifies this
      ensures def == old(def).(limit := Some(1))
    {
      def := def.(limit := Some(1));
    }

    method SetBigintType()
      requires def.Integer?
      modifies this
      ensures def == old(def).(limit := Some(8))
    {
      def := def.(limit := Some(8));
    }

    method SetBitType(width: nat)
      requires def.Integer? && width < 256
      modifies this
      ensures def == old(def).(bitType := Some(width))
    {
      def := def.(bitType := Some(width));
    }

    method SetUnsigned(unsigned: bool)
      requires def.Integer?
      modifies this
      ensures def == old(def).(unsigned := Some(unsigned))
    {
      def := def.(unsigned := Some(unsigned));
    }

    method SetZerofill(zerofill: bool)
      requires def.Integer?
      modifies this
      ensures def == old(def).(zerofill := Some(zerofill))
    {
      def := def.(zerofill := Some(zerofill));
    }

    /** An `i64` default. */
    method SetNumberDefault(d: int)
      requires def.Integer? && -0x8000_0000_0000_0000 <= d < 0x8000_0000_0000_0000
      modifies this
      ensures def == old(def).(defaultNumber := Some(d))
    {
      def := def.(defaultNumber := Some(d));
    }

    method SetAutoIncrement(autoIncrement: bool)
      requires def.Integer?
      modifies this
      ensures def == old(def).(autoIncrement := Some(autoIncrement))
    {
      def := def.(autoIncrement := Some(autoIncrement));
    }

    method SetFlagDefault(d: bool)
      requires def.Boolean?
      modifies this
      ensures def == old(def).(defaultFlag := Some(d))
    {
      def := def.(defaultFlag := Some(d));
    }

    method SetTextDefault(d: string)
      requires def.HasTextDefault()
      modifies this
      ensures def == old(def).(defaultText := Some(d))
    {
      def := def.(defaultText := Some(d));
    }

    method SetBytesDefault(d: seq<Byte>)
      requires def.Binary?
      modifies this
      ensures def == old(def).(defaultBytes := Some(d))
    {
      def := def.(defaultBytes := Some(d));
    }

    method SetPrecisionScale(precision: nat, scale: nat)
      requires def.Decimal? && precision < 256 && scale < 256
      modifies this
      ensures def == old(def).(precision := precision, scale := scale)
    {
      def := def.(precision := precision, scale := scale);
    }

    method SetCharType(length: nat)
      requires def.Str? && length < 256
      modifies this
      ensures def == old(def).(isChar := Some(true), length := length)
    {
      def := def.(isChar := Some(true), length := length);
    }

    method SetLength(length: nat)
      requires def.Str? && length < 0x1_0000_0000
      modifies this
      ensures def == old(def).(length := length)
    {
      def := def.(length := length);
    }

    method SetBinaryType(byte: nat)
      requires def.Binary? && byte < 0x1_0000_0000
      modifies this
      ensures def == old(def).(isBinary := Some(true), byte := byte)
    {
      def := def.(isBinary := Some(true), byte := byte);
    }

    method SetByte(byte: nat)
      requires def.Binary? && byte < 0x1_0000_0000
      modifies this
      ensures def == old(def).(byte := byte)
    {
      def := def.(byte := byte);
    }

    method SetOnCreateCurrentTimestamp(on: bool)
      requires def.Timestamp?
      modifies this
      ensures def == old(def).(onCreate := Some(on))
    {
      def := def.(onCreate := Some(on));
    }

    method SetOnUpdateCurrentTimestamp(on: bool)
      requires def.Timestamp?
      modifies this
      ensures def == old(def).(onUpdate := Some(on))
    {
      def := def.(onUpdate := Some(on));
    }
  }

  // ---------------------------------------------------------------------------------
  // Column definitions

  function NullClause(nullable: Option<bool>): string {
    if nullable.None? then "" else if nullable.value then " NULL" else " NOT NULL"
  }

  /** `text` when the flag is `Some(true)`; an unset flag and `Some(false)` both emit nothing. */
  function FlagClause(flag: Option<bool>, text: string): string {
    if IsSet(flag) then text else ""
  }

  function CommentClause(comment: Option<string>): string {
    if comment.Some? then " COMMENT '" + comment.value + "'" else ""
  }

  function DefaultClause(d: Option<string>): string {
    if d.Some? then " DEFAULT " + d.value else ""
  }

  /** A byte vector as Rust's `Debug` prints it: `[1, 2, 3]`. */
  function ByteList(bytes: seq<Byte>): string {
    "[" + Join(seq(|bytes|, i requires 0 <= i < |bytes| => NatToString(bytes[i])), ", ") + "]"
  }

  /** The integer keyword a byte width selects; other widths keep the dialect's keyword. */
  function IntegerKeyword(limit: Option<nat>, kw: Keywords): string {
    if limit == Some(1) then "TINYINT"
    else if limit == Some(2) then "SMALLINT"
    else if limit == Some(4) then "INT"
    else if limit == Some(8) then "BIGINT"
    else kw.integer
  }

  /** The type keyword with its size, precision or width. */
  function TypeName(t: ColumnType, kw: Keywords): string
    requires t.HasAttrs()
  {
    match t
    case Boolean(_, _) => kw.boolean
    case Integer(limit, bitType, _, _, _, _, _, _) =>
      if bitType.Some? then "BIT(" + NatToString(bitType.value) + ")" else IntegerKeyword(limit, kw)
    case Double(_, _) => kw.double
    case Decimal(p, s, _, _) => kw.decimal + "(" + NatToString(p) + ", " + NatToString(s) + ")"
    case Str(isChar, len, _, _) =>
      if IsSet(isChar) then "CHAR(" + NatToString(len) + ")" else kw.str + "(" + NatToString(len) + ")"
    case Text(_, _) => kw.text
    case Json(_, _) => kw.json
    case Blob(_, _) => kw.blob
    case Date(_, _) => kw.date
    case Datetime(_, _) => kw.datetime
    case Timestamp(_, _, _, _) => kw.timestamp
    case Binary(isBinary, byte, _, _) =>
      if IsSet(isBinary) then "BINARY(" + NatToString(byte) + ")" else kw.binary + "(" + NatToString(byte) + ")"
  }

  /** ` UNSIGNED`, followed on MySQL by ` ZEROFILL`, for an unsigned integer. */
  function Modifiers(t: ColumnType, kw: Keywords): string {
    if t.Integer? && IsSet(t.unsigned) then
      " UNSIGNED" + (if kw.dialect.MySql? then FlagClause(t.zerofill, " ZEROFILL") else "")
    else ""
  }

  /**
   * The DEFAULT clause: booleans as `true`/`false`, integers in decimal, byte vectors as a
   * bracketed list, JSON in parentheses, and a timestamp's on-create flag taking the place
   * of any explicit default.
   */
  function DefaultOf(t: ColumnType): string
    requires t.HasAttrs()
  {
    match t
    case Boolean(d, _) => if d.Some? then " DEFAULT " + (if d.value then "true" else "false") else ""
    case Integer(_, _, _, _, d, _, _, _) => if d.Some? then " DEFAULT " + IntToString(d.value) else ""
    case Json(d, _) => if d.Some? then " DEFAULT (" + d.value + ")" else ""
    case Timestamp(d, onCreate, _, _) =>
      if onCreate.Some? then FlagClause(onCreate, " DEFAULT CURRENT_TIMESTAMP") else DefaultClause(d)
    case Binary(_, _, d, _) => if d.Some? then " DEFAULT " + ByteList(d.value) else ""
    case Double(d, _) => DefaultClause(d)
    case Decimal(_, _, d, _) => DefaultClause(d)
    case Str(_, _, d, _) => DefaultClause(d)
    case Text(d, _) => DefaultClause(d)
    case Blob(d, _) => DefaultClause(d)
    case Date(d, _) => DefaultClause(d)
    case Datetime(d, _) => DefaultClause(d)
    case Index(_, _) => ""
    case Unique(_, _) => ""
    case PrimaryKey(_) => ""
    case ForeignKeyType(_) => ""
  }

  /**
   * What follows the default: the auto-increment keyword for an integer (whose primary-key
   * flag only ever shows as a constraint), otherwise ` PRIMARY KEY`, and for a timestamp
   * then ` ON UPDATE CURRENT_TIMESTAMP`.
   */
  function KeyClauses(t: ColumnType, kw: Keywords): string
    requires t.HasAttrs()
  {
    if t.Integer? then FlagClause(t.autoIncrement, " " + kw.autoIncrement)
    else if t.Timestamp? then
      FlagClause(t.attrs.primaryKey, " PRIMARY KEY") + FlagClause(t.onUpdate, " ON UPDATE CURRENT_TIMESTAMP")
    else FlagClause(t.attrs.primaryKey, " PRIMARY KEY")
  }

  predicate EndsWith(s: string, suffix: string) {
    |suffix| <= |s| && s[|s| - |suffix|..] == suffix
  }

  /**
   * `ColumnType::to_sql`: a value type always renders its definition (type keyword, then
   * the clauses that are set, comment last); the four constraint-only types render none.
   */
  function Definition(t: ColumnType, kw: Keywords): (r: Option<string>)
    ensures r.Some? <==> t.HasAttrs()
  {
    if !t.HasAttrs() then None
    else
      Some(TypeName(t, kw) + Modifiers(t, kw) + NullClause(t.attrs.nullable) + DefaultOf(t) + KeyClauses(t, kw)
        + CommentClause(t.attrs.comment))
  }

  /** A definition starts with the type keyword and ends with the comment clause. */
  lemma DefinitionShape(t: ColumnType, kw: Keywords)
    requires t.HasAttrs()
    ensures TypeName(t, kw) <= Definition(t, kw).value
    ensures EndsWith(Definition(t, kw).value, CommentClause(t.attrs.comment))
  {
    var name, comment := TypeName(t, kw), CommentClause(t.attrs.comment);
    var r := Definition(t, kw).value;
    assert r[..|name|] == name;
    assert r[|r| - |comment|..] == comment;
  }

  /** Index and unique flags never change a definition: they only show as constraints. */
  lemma DefinitionIgnoresIndexFlags(t: ColumnType, kw: Keywords, index: Option<bool>, unique: Option<bool>)
    requires t.HasAttrs()
    ensures Definition(t.(attrs := t.attrs.(index := index, unique := unique)), kw) == Definition(t, kw)
  {
  }

  /** An integer's primary-key flag and foreign key never appear in its definition. */
  lemma IntegerDefinitionIgnoresKeys(t: ColumnType, kw: Keywords, pk: Option<bool>, fk: Option<ForeignKey>)
    requires t.Integer?
    ensures Definition(t.(attrs := t.attrs.(primaryKey := pk), foreignKey := fk), kw) == Definition(t, kw)
  {
  }

  /** A flag set to false renders exactly as an unset one. */
  lemma FalseFlagsAreUnset(t: ColumnType, kw: Keywords)
    requires t.HasAttrs()
    ensures Definition(t.(attrs := t.attrs.(primaryKey := Some(false))), kw)
         == Definition(t.(attrs := t.attrs.(primaryKey := None)), kw)
    ensures t.Integer? ==>
      Definition(t.(unsigned := Some(false), autoIncrement := Some(false)), kw)
      == Definition(t.(unsigned := None, autoIncrement := None), kw)
    ensures t.Timestamp? ==>
      Definition(t.(onUpdate := Some(false)), kw) == Definition(t.(onUpdate := None), kw)
  {
  }

  /** ZEROFILL is only emitted after UNSIGNED, and only on MySQL. */
  lemma ZerofillNeedsUnsigned(t: ColumnType, kw: Keywords, zerofill: Option<bool>)
    requires t.Integer? && (!IsSet(t.unsigned) || !kw.dialect.MySql?)
    ensures Definition(t.(zerofill := zerofill), kw) == Definition(t, kw)
  {
  }

  /** A bit width overrides whatever byte width was set. */
  lemma BitTypeOverridesLimit(t: ColumnType, kw: Keywords, limit: Option<nat>)
    requires t.Integer? && t.bitType.Some?
    ensures Definition(t.(limit := limit), kw) == Definition(t, kw)
  {
  }

  /** Once the on-create flag is set, either way, an explicit timestamp default is not emitted. */
  lemma OnCreateSuppressesDefault(t: ColumnType, kw: Keywords, d: Option<string>)
    requires t.Timestamp? && t.onCreate.Some?
    ensures Definition(t.(defaultText := d), kw) == Definition(t, kw)
  {
  }

  // ---------------------------------------------------------------------------------
  // Constraints

  /** `PRIMARY KEY pk_on_<c>`, then ` (<c>)` when adding or `DROP INDEX <c>` (no separator) when dropping. */
  function PrimaryKeyPart(names: seq<string>, action: ColumnTypeAction): string
    requires |names| > 0
  {
    "PRIMARY KEY pk_on_" + names[0]
    + (if action.Adds() then " (" + names[0] + ")"
       else if action.DropConstraint? then "DROP INDEX " + names[0]
       else "")
  }

  /** The name of the key an add creates, from its kind and its columns joined by `_and_`. */
  function KeyName(unique: bool, index: bool, names: seq<string>): string {
    (if unique && index then "UNIQUE INDEX unique_index_on_"
     else if unique then "UNIQUE unique_on_"
     else "INDEX index_on_")
    + Join(names, "_and_")
  }

  /** The unique/index clause: created, renamed or dropped according to the action. */
  function IndexPart(unique: bool, index: bool, names: seq<string>, action: ColumnTypeAction): string
    requires (unique || index) && (action.RenameIndex? || action.DropConstraint?) ==> |names| > 0
  {
    if !(unique || index) then ""
    else if action.Adds() then KeyName(unique, index, names) + " (" + Join(names, ",") + ")"
    else if action.RenameIndex? then "RENAME INDEX " + names[0] + " TO " + action.newName
    else if action.DropConstraint? then "DROP INDEX " + names[0]
    else ""
  }

  /** The constraint clauses read the first column name in these cases only. */
  predicate ConstraintNeedsName(t: ColumnType, action: ColumnTypeAction) {
    IsSet(PrimaryKeyOf(t))
    || ((IsSet(UniqueOf(t)) || IsSet(IndexOf(t))) && (action.RenameIndex? || action.DropConstraint?))
  }

  function KeyParts(t: ColumnType, names: seq<string>, action: ColumnTypeAction): string
    requires ConstraintNeedsName(t, action) ==> |names| > 0
  {
    (if IsSet(PrimaryKeyOf(t)) then PrimaryKeyPart(names, action) else "")
    + IndexPart(IsSet(UniqueOf(t)), IsSet(IndexOf(t)), names, action)
  }

  /**
   * The default `to_constraint_sql`: the primary-key part, then the unique/index part,
   * then the foreign key (after `,\n` when something precedes it); None when nothing was
   * emitted.
   */
  function ConstraintSql(t: ColumnType, names: seq<string>, action: ColumnTypeAction): (r: Option<string>)
    requires ConstraintNeedsName(t, action) ==> |names| > 0
    ensures r.None? <==> KeyParts(t, names, action) == "" && ForeignKeyOf(t).None?
    ensures ForeignKeyOf(t).Some? && KeyParts(t, names, action) == "" ==>
      r == Some(ForeignKeySql(ForeignKeyOf(t).value, action))
  {
    var keys := KeyParts(t, names, action);
    var full :=
      if ForeignKeyOf(t).Some? then
        keys + (if keys != "" then ",\n" else "") + ForeignKeySql(ForeignKeyOf(t).value, action)
      else keys;
    assert ForeignKeyOf(t).Some? && keys == "" ==> full == ForeignKeySql(ForeignKeyOf(t).value, action);
    if full == "" then None else Some(full)
  }

  /** A set primary key comes first in the constraint text. */
  lemma PrimaryKeyComesFirst(t: ColumnType, names: seq<string>, action: ColumnTypeAction)
    requires IsSet(PrimaryKeyOf(t)) && |names| > 0
    ensures ConstraintSql(t, names, action).Some?
    ensures "PRIMARY KEY pk_on_" + names[0] <= ConstraintSql(t, names, action).value
  {
    var keys := KeyParts(t, names, action);
    var p := "PRIMARY KEY pk_on_" + names[0];
    assert keys[..|p|] == p;
    var r := ConstraintSql(t, names, action).value;
    assert r[..|keys|] == keys;
  }

  /** A foreign key comes last in the constraint text. */
  lemma ForeignKeyComesLast(t: ColumnType, names: seq<string>, action: ColumnTypeAction)
    requires ConstraintNeedsName(t, action) ==> |names| > 0
    requires ForeignKeyOf(t).Some?
    ensures ConstraintSql(t, names, action).Some?
    ensures EndsWith(ConstraintSql(t, names, action).value, ForeignKeySql(ForeignKeyOf(t).value, action))
  {
    var f := ForeignKeySql(ForeignKeyOf(t).value, action);
    var r := ConstraintSql(t, names, action).value;
    assert r[|r| - |f|..] == f;
  }

  /**
   * The constraints of a column depend only on which key flags are `Some(true)` and on its
   * foreign key: `Some(false)` is the same as unset, and the definition attributes play no part.
   */
  lemma ConstraintDependsOnlyOnKeys(t1: ColumnType, t2: ColumnType, names: seq<string>, action: ColumnTypeAction)
    requires IsSet(PrimaryKeyOf(t1)) == IsSet(PrimaryKeyOf(t2))
    requires IsSet(UniqueOf(t1)) == IsSet(UniqueOf(t2))
    requires IsSet(IndexOf(t1)) == IsSet(IndexOf(t2))
    requires ForeignKeyOf(t1) == ForeignKeyOf(t2)
    requires ConstraintNeedsName(t1, action) ==> |names| > 0
    ensures ConstraintNeedsName(t2, action) ==> |names| > 0
    ensures ConstraintSql(t1, names, action) == ConstraintSql(t2, names, action)
  {
  }
}

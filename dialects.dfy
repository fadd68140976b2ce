/**
 * The build-time configuration of the crate: which SQL dialect it targets, and the
 * keyword tables that configuration selects. The crate chooses both with cargo
 * features; here they are ordinary values passed to the renderers.
 */
module Dialects {
  /** The database a build targets. */
  datatype Dialect = MySql | PostgreSql | Sqlite | MsSql

  /** The `auto_increment` entry of the crate's own keyword map: SQLite writes it without the underscore. */
  function AutoIncrement(d: Dialect): (r: string)
    ensures r == "AUTOINCREMENT" <==> d.Sqlite?
    ensures r == "AUTO_INCREMENT" <==> !d.Sqlite?
  {
    if d.Sqlite? then "AUTOINCREMENT" else "AUTO_INCREMENT"
  }

  /**
   * The per-database column keyword table the column types read (one field per key of
   * the map), together with the dialect that selected it.
   */
  datatype Keywords = Keywords(
    dialect: Dialect,
    integer: string,
    boolean: string,
    str: string,
    binary: string,
    decimal: string,
    double: string,
    text: string,
    json: string,
    blob: string,
    date: string,
    datetime: string,
    timestamp: string,
    autoIncrement: string)

  /** The MySQL table, as the repository's MySQL expectations spell its keywords. */
  const MySqlKeywords := Keywords(
    MySql, "INT", "BOOLEAN", "VARCHAR", "VARBINARY", "DECIMAL", "DOUBLE", "TEXT",
    "JSON", "BLOB", "DATE", "DATETIME", "TIMESTAMP", "AUTO_INCREMENT")
}

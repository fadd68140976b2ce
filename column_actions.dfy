/** What an ALTER/CREATE TABLE entry does with its column or constraint. */
module ColumnActions {
  import opened Wrappers

  /** `position` is MySQL's `FIRST` / `AFTER <column>` text, kept verbatim. */
  datatype ColumnTypeAction =
    | AddColumn(position: Option<string>)
    | ModifyColumn(position: Option<string>)
    | ChangeColumn(position: Option<string>, newName: string)
    | RenameColumn(position: Option<string>, newName: string)
    | DropColumn
    | AddConstraint
    | DropConstraint
    | RenameIndex(newName: string)
  {
    /** The actions whose column text needs the type's own definition. */
    predicate UsesDefinition() {
      AddColumn? || ModifyColumn? || ChangeColumn? || AddConstraint?
    }

    /** The actions an ALTER TABLE renders as a column clause; the other three only as constraints. */
    predicate AltersColumn() {
      AddColumn? || ModifyColumn? || ChangeColumn? || RenameColumn? || DropColumn?
    }

    /** The actions that create an index or key rather than alter or drop one. */
    predicate Adds() {
      AddColumn? || AddConstraint?
    }
  }
}

/**
 * The schema and example records of the harness: `DbInfo`, `TableInfo` and
 * `SqlInfo`. They are immutable once built; the only behaviour is the length
 * check that `TableInfo` runs when it is constructed.
 */
module Data {
  import opened Wrappers

  /** One database, identified by its id. */
  datatype DbInfo = DbInfo(dbId: string)

  /**
   * The loosely typed `Union[str, List[str], None]` that `primary_key` and
   * `foreign_key` may hold: a single column name, a list of them, or nothing.
   */
  datatype KeySpec = NoKey | Name(name: string) | Names(names: seq<string>)

  /** One table of one database, with optional per-column descriptions. */
  datatype TableInfo = TableInfo(
    tableName: string,
    cols: seq<string>,
    primaryKey: KeySpec,
    foreignKey: KeySpec,
    columnDescription: Option<seq<string>>,
    valueDescription: Option<seq<string>>,
    db: DbInfo)

  /**
   * One question/gold-query example. `queryPredicted` and `externalKnowledge`
   * default to `None`.
   */
  datatype SqlInfo = SqlInfo(
    question: string,
    queryGold: string,
    queryPredicted: Option<string> := None,
    externalKnowledge: Option<string> := None,
    difficulty: string,
    schemaStr: string,
    dbId: string)

  /** The exceptions the loader can raise: a list index out of range, or a failed validation. */
  datatype Error = IndexError | ValueError(message: string)

  const ColumnDescriptionMismatch := "column_description must have the same length as cols"
  const ValueDescriptionMismatch := "value_description must have the same length as cols"

  /** Python truthiness of an optional list: `None` and `[]` are both false. */
  predicate Truthy(d: Option<seq<string>>)
  {
    d.Some? && d.value != []
  }

  /** A description list is acceptable for `n` columns when it is falsy or has exactly `n` entries. */
  predicate DescriptionFits(d: Option<seq<string>>, n: nat)
  {
    !Truthy(d) || |d.value| == n
  }

  /** What every constructed `TableInfo` satisfies. */
  predicate Valid(t: TableInfo)
  {
    DescriptionFits(t.columnDescription, |t.cols|) && DescriptionFits(t.valueDescription, |t.cols|)
  }

  /**
   * `TableInfo(...)`: builds the record, then raises if a truthy column
   * description list, and after it a truthy value description list, does not
   * have one entry per column.
   */
  function NewTableInfo(
    tableName: string,
    cols: seq<string>,
    primaryKey: KeySpec,
    foreignKey: KeySpec,
    db: DbInfo,
    columnDescription: Option<seq<string>> := None,
    valueDescription: Option<seq<string>> := None): (r: Result<TableInfo, Error>)
    ensures r.Success? <==>
      DescriptionFits(columnDescription, |cols|) && DescriptionFits(valueDescription, |cols|)
    ensures r.Success? ==> Valid(r.value)
    ensures r.Success? ==> r.value.cols == cols && r.value.tableName == tableName && r.value.db == db
    ensures r.Success? ==>
      r.value.columnDescription == columnDescription && r.value.valueDescription == valueDescription
    ensures r.Success? ==> r.value.primaryKey == primaryKey && r.value.foreignKey == foreignKey
    ensures r.Failure? ==> r.error == ValueError(
      if DescriptionFits(columnDescription, |cols|) then ValueDescriptionMismatch else ColumnDescriptionMismatch)
  {
    var t := TableInfo(tableName, cols, primaryKey, foreignKey, columnDescription, valueDescription, db);
    if Truthy(t.columnDescription) && |t.columnDescription.value| != |t.cols| then
      Failure(ValueError(ColumnDescriptionMismatch))
    else if Truthy(t.valueDescription) && |t.valueDescription.value| != |t.cols| then
      Failure(ValueError(ValueDescriptionMismatch))
    else
      Success(t)
  }
}

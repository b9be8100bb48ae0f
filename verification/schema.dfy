/**
 * The schema renderer (`generate_sql_schema`) that turns the tables of one
 * database into `CREATE TABLE` text for the prompt, and the record builder
 * (`build_q2sql_model`) that pairs each question with that text.
 */
module Schema {
  import opened Wrappers
  import opened Data
  import opened Text
  import opened Sequences

  /** Python's `str()` of a list of names, `['a', 'b']`, for names without quotes or backslashes. */
  function ListRepr(names: seq<string>): string
  {
    "[" + Join(", ", seq(|names|, i requires 0 <= i < |names| => "'" + names[i] + "'")) + "]"
  }

  /** Python's `str()` of a primary or foreign key value as an f-string formats it. */
  function KeyStr(k: KeySpec): string
  {
    match k
    case Names(ns) => ListRepr(ns)
    case Name(n) => n
    case NoKey => "None"
  }

  /**
   * What `PRIMARY KEY (...)` holds: a list of two or more names joined by
   * ", ", anything else formatted with `str()`. So a one-name list keeps its
   * list brackets and quotes, and an empty list renders as `[]`.
   */
  function PrimaryKeyText(pk: KeySpec): (r: string)
    ensures pk == Names([]) ==> r == "[]"
    ensures pk.Names? && |pk.names| == 1 ==> r == "['" + pk.names[0] + "']"
    ensures pk.Name? ==> r == pk.name
  {
    if pk.Names? && |pk.names| > 1 then Join(", ", pk.names) else KeyStr(pk)
  }

  function PrimaryKeyClause(pk: KeySpec): string
  {
    "PRIMARY KEY (" + PrimaryKeyText(pk) + ")"
  }

  /** A composite key of two columns renders as `PRIMARY KEY (a, b)`. */
  lemma PrimaryKeyTwoNames(a: string, b: string)
    ensures PrimaryKeyClause(Names([a, b])) == "PRIMARY KEY (" + a + ", " + b + ")"
  {
    assert [a, b][..1] == [a];
    assert Join(", ", [a, b]) == Join(", ", [a]) + ", " + b;
    assert PrimaryKeyText(Names([a, b])) == a + ", " + b;
  }

  /** The description shown for column `i`: its entry when the list is truthy, else "". */
  function ColumnDescriptionAt(t: TableInfo, i: nat): string
    requires Valid(t) && i < |t.cols|
  {
    if Truthy(t.columnDescription) then t.columnDescription.value[i] else ""
  }

  /** `<col> TEXT <descr>`; the type is always the placeholder TEXT and the space before an empty description stays. */
  function ColumnDefinition(t: TableInfo, i: nat): string
    requires Valid(t) && i < |t.cols|
  {
    t.cols[i] + " TEXT " + ColumnDescriptionAt(t, i)
  }

  /** One definition per column in column order, then the primary key clause; never a foreign key clause. */
  function Definitions(t: TableInfo): seq<string>
    requires Valid(t)
  {
    seq(|t.cols|, i requires 0 <= i < |t.cols| => ColumnDefinition(t, i)) + [PrimaryKeyClause(t.primaryKey)]
  }

  function CreateTable(t: TableInfo): string
    requires Valid(t)
  {
    "CREATE TABLE " + t.tableName + " (" + Join(", ", Definitions(t)) + ");"
  }

  /** The tables that belong to database `db`, in their input order. */
  function TablesOf(tables: seq<TableInfo>, db: string): (r: seq<TableInfo>)
    ensures |r| <= |tables|
    ensures forall t :: t in r ==> t in tables && t.db.dbId == db
    decreases |tables|
  {
    if tables == [] then []
    else
      var last := tables[|tables| - 1];
      assert tables == tables[..|tables| - 1] + [last];
      TablesOf(tables[..|tables| - 1], db) + (if last.db.dbId == db then [last] else [])
  }

  /** A table is kept exactly when it belongs to database `db`. */
  lemma {:induction false} TablesOfMembers(tables: seq<TableInfo>, db: string, t: TableInfo)
    ensures t in TablesOf(tables, db) <==> t in tables && t.db.dbId == db
    decreases |tables|
  {
    if tables != [] {
      var init := tables[..|tables| - 1];
      TablesOfMembers(init, db, t);
      assert tables == init + [tables[|tables| - 1]];
    }
  }

  /** The `CREATE TABLE` statements of database `db`, in input order. */
  function Statements(tables: seq<TableInfo>, db: string): seq<string>
    requires forall t :: t in tables ==> Valid(t)
    decreases |tables|
  {
    if tables == [] then []
    else
      var last := tables[|tables| - 1];
      Statements(tables[..|tables| - 1], db) + (if last.db.dbId == db then [CreateTable(last)] else [])
  }

  /** The text `generate_sql_schema(tables, db)` returns: the statements joined by newlines. */
  function SchemaText(tables: seq<TableInfo>, db: string): string
    requires forall t :: t in tables ==> Valid(t)
  {
    Join("\n", Statements(tables, db))
  }

  /** The loops of `generate_sql_schema`. */
  method GenerateSqlSchema(tables: seq<TableInfo>, dbName: string) returns (schema: string)
    requires forall t :: t in tables ==> Valid(t)
    ensures schema == SchemaText(tables, dbName)
  {
    var schemaParts: seq<string> := [];
    for k := 0 to |tables|
      invariant schemaParts == Statements(tables[..k], dbName)
    {
      assert tables[..k + 1][..k] == tables[..k];
      assert tables[..k + 1][k] == tables[k];
      var t := tables[k];
      assert Valid(t);
      if t.db.dbId == dbName {
        var columnDefinitions: seq<string> := [];
        for i := 0 to |t.cols|
          invariant |columnDefinitions| == i
          invariant forall j :: 0 <= j < i ==> columnDefinitions[j] == ColumnDefinition(t, j)
        {
          var colType := "TEXT";
          var colDescr := if Truthy(t.columnDescription) then t.columnDescription.value[i] else "";
          columnDefinitions := columnDefinitions + [t.cols[i] + " " + colType + " " + colDescr];
        }
        var primaryKeys :=
          if t.primaryKey.Names? && |t.primaryKey.names| > 1 then Join(", ", t.primaryKey.names)
          else KeyStr(t.primaryKey);
        columnDefinitions := columnDefinitions + ["PRIMARY KEY (" + primaryKeys + ")"];
        assert columnDefinitions == Definitions(t);
        var tableSchema := "CREATE TABLE " + t.tableName + " (" + Join(", ", columnDefinitions) + ");";
        assert tableSchema == CreateTable(t);
        schemaParts := schemaParts + [tableSchema];
      }
    }
    assert tables[..|tables|] == tables;
    schema := Join("\n", schemaParts);
  }

  /** Statement `k` is the `CREATE TABLE` of the `k`-th table of the database, and there is one per table. */
  lemma {:induction false} StatementsAt(tables: seq<TableInfo>, db: string)
    requires forall t :: t in tables ==> Valid(t)
    ensures |Statements(tables, db)| == |TablesOf(tables, db)|
    ensures forall k :: 0 <= k < |TablesOf(tables, db)| ==>
      Statements(tables, db)[k] == CreateTable(TablesOf(tables, db)[k])
    decreases |tables|
  {
    if tables != [] {
      StatementsAt(tables[..|tables| - 1], db);
    }
  }

  /** Filtering a concatenation filters each side. */
  lemma {:induction false} TablesOfAppend(a: seq<TableInfo>, b: seq<TableInfo>, db: string)
    ensures TablesOf(a + b, db) == TablesOf(a, db) + TablesOf(b, db)
    decreases |b|
  {
    if b == [] {
      assert a + b == a;
    } else {
      var b', last := b[..|b| - 1], b[|b| - 1];
      var ab := a + b;
      assert ab[..|ab| - 1] == a + b';
      assert ab[|ab| - 1] == last;
      TablesOfAppend(a, b', db);
      var tail := if last.db.dbId == db then [last] else [];
      assert TablesOf(ab, db) == TablesOf(a + b', db) + tail;
      assert TablesOf(b, db) == TablesOf(b', db) + tail;
      AppendAssoc(TablesOf(a, db), TablesOf(b', db), tail);
    }
  }

  /** The statements of a concatenation are those of each side, so input order is kept. */
  lemma {:induction false} StatementsAppend(a: seq<TableInfo>, b: seq<TableInfo>, db: string)
    requires forall t :: t in a + b ==> Valid(t)
    ensures Statements(a + b, db) == Statements(a, db) + Statements(b, db)
    decreases |b|
  {
    if b == [] {
      assert a + b == a;
    } else {
      var b' := b[..|b| - 1];
      assert (a + b)[..|a + b| - 1] == a + b';
      StatementsAppend(a, b', db);
    }
  }

  /** The statements of a database do not depend on the tables of other databases. */
  lemma {:induction false} StatementsOwnTables(tables: seq<TableInfo>, db: string)
    requires forall t :: t in tables ==> Valid(t)
    ensures Statements(tables, db) == Statements(TablesOf(tables, db), db)
    decreases |tables|
  {
    if tables != [] {
      var init, last := tables[..|tables| - 1], tables[|tables| - 1];
      assert forall t :: t in init ==> t in tables;
      StatementsOwnTables(init, db);
      var own := TablesOf(init, db);
      var tail := if last.db.dbId == db then [last] else [];
      assert TablesOf(tables, db) == own + tail;
      StatementsAppend(own, tail, db);
      if last.db.dbId == db {
        assert tail[..0] == [];
        assert Statements(tail, db) == [CreateTable(last)];
      }
    }
  }

  /** The schema of a database is the same whether or not other databases' tables are in the list. */
  lemma SchemaTextOwnTables(tables: seq<TableInfo>, db: string)
    requires forall t :: t in tables ==> Valid(t)
    ensures SchemaText(tables, db) == SchemaText(TablesOf(tables, db), db)
  {
    StatementsOwnTables(tables, db);
  }

  /** The schema text is empty exactly when the database has no table. */
  lemma SchemaTextEmpty(tables: seq<TableInfo>, db: string)
    requires forall t :: t in tables ==> Valid(t)
    ensures SchemaText(tables, db) == "" <==> TablesOf(tables, db) == []
  {
    StatementsAt(tables, db);
    var parts := Statements(tables, db);
    if parts != [] {
      JoinStartsWithFirst("\n", parts);
      assert |parts[0]| > 0;
    }
  }

  /** No name or description of the table contains a line break. */
  predicate NewlineFree(t: TableInfo)
  {
    && '\n' !in t.tableName
    && (forall i :: 0 <= i < |t.cols| ==> '\n' !in t.cols[i])
    && (t.columnDescription.Some? ==>
          forall i :: 0 <= i < |t.columnDescription.value| ==> '\n' !in t.columnDescription.value[i])
    && (t.primaryKey.Name? ==> '\n' !in t.primaryKey.name)
    && (t.primaryKey.Names? ==> forall i :: 0 <= i < |t.primaryKey.names| ==> '\n' !in t.primaryKey.names[i])
  }

  lemma PrimaryKeyClauseNewlineFree(t: TableInfo)
    requires NewlineFree(t)
    ensures '\n' !in PrimaryKeyClause(t.primaryKey)
  {
    var pk := t.primaryKey;
    if pk.Names? {
      var quoted := seq(|pk.names|, i requires 0 <= i < |pk.names| => "'" + pk.names[i] + "'");
      forall i | 0 <= i < |quoted|
        ensures '\n' !in quoted[i]
      {
        assert quoted[i] == "'" + pk.names[i] + "'";
      }
      JoinAvoids('\n', ", ", quoted);
      JoinAvoids('\n', ", ", pk.names);
      assert '\n' !in ListRepr(pk.names);
    }
    assert '\n' !in PrimaryKeyText(pk);
  }

  lemma DefinitionsNewlineFree(t: TableInfo)
    requires Valid(t) && NewlineFree(t)
    ensures forall i :: 0 <= i < |Definitions(t)| ==> '\n' !in Definitions(t)[i]
  {
    PrimaryKeyClauseNewlineFree(t);
    var defs := Definitions(t);
    forall i | 0 <= i < |defs|
      ensures '\n' !in defs[i]
    {
      if i < |t.cols| {
        assert defs[i] == ColumnDefinition(t, i);
      }
    }
  }

  lemma CreateTableNewlineFree(t: TableInfo)
    requires Valid(t) && NewlineFree(t)
    ensures '\n' !in CreateTable(t)
  {
    DefinitionsNewlineFree(t);
    JoinAvoids('\n', ", ", Definitions(t));
  }

  /**
   * When the database has at least one table and nothing in its tables
   * contains a line break, the schema text has exactly one line per table,
   * and that line is the table's `CREATE TABLE` statement.
   */
  lemma SchemaLines(tables: seq<TableInfo>, db: string)
    requires forall t :: t in tables ==> Valid(t) && NewlineFree(t)
    requires TablesOf(tables, db) != []
    ensures Split(SchemaText(tables, db), '\n') == Statements(tables, db)
  {
    StatementsAt(tables, db);
    var parts := Statements(tables, db);
    forall k | 0 <= k < |parts|
      ensures '\n' !in parts[k]
    {
      CreateTableNewlineFree(TablesOf(tables, db)[k]);
    }
    SplitJoin('\n', parts);
  }

  /** Foreign keys and value descriptions never reach the rendered statement. */
  lemma CreateTableIgnoresKeysAndValues(t: TableInfo, fk: KeySpec, vd: Option<seq<string>>)
    requires Valid(t) && DescriptionFits(vd, |t.cols|)
    ensures CreateTable(t.(foreignKey := fk, valueDescription := vd)) == CreateTable(t)
  {
    var t' := t.(foreignKey := fk, valueDescription := vd);
    assert Definitions(t') == Definitions(t);
  }

  /** One record of the question file: the keys `build_q2sql_model` reads. */
  datatype QuestionRecord = QuestionRecord(
    question: string,
    sql: string,
    evidence: Option<string>,
    difficulty: string,
    dbId: string)

  /** `build_q2sql_model`: one `SqlInfo` per record, in order, each carrying its database's schema text. */
  method BuildQ2SqlModel(records: seq<QuestionRecord>, tables: seq<TableInfo>) returns (infos: seq<SqlInfo>)
    requires forall t :: t in tables ==> Valid(t)
    ensures |infos| == |records|
    ensures forall i :: 0 <= i < |records| ==>
      && infos[i].question == records[i].question
      && infos[i].queryGold == records[i].sql
      && infos[i].externalKnowledge == records[i].evidence
      && infos[i].difficulty == records[i].difficulty
      && infos[i].dbId == records[i].dbId
      && infos[i].schemaStr == SchemaText(tables, records[i].dbId)
      && infos[i].queryPredicted == None
  {
    infos := [];
    for i := 0 to |records|
      invariant |infos| == i
      invariant forall j :: 0 <= j < i ==>
        infos[j] == SqlInfo(records[j].question, records[j].sql, None, records[j].evidence,
                            records[j].difficulty, SchemaText(tables, records[j].dbId), records[j].dbId)
    {
      var entry := records[i];
      var schemaStr := GenerateSqlSchema(tables, entry.dbId);
      var sqlInfo := SqlInfo(
        question := entry.question,
        queryGold := entry.sql,
        queryPredicted := None,
        externalKnowledge := entry.evidence,
        difficulty := entry.difficulty,
        schemaStr := schemaStr,
        dbId := entry.dbId);
      infos := infos + [sqlInfo];
    }
  }
}

/**
 * The schema loader (`create_models_from_json`): from one JSON record per
 * database it builds one `DbInfo` per record and one `TableInfo` per table,
 * resolving which columns, primary keys and foreign keys belong to each
 * table by index.
 */
module Loader {
  import opened Wrappers
  import opened Data

  /** A `primary_keys` entry: one column index, or a group of indices for a composite key. */
  datatype PrimaryKeyJson = Column(index: int) | Group(indices: seq<int>)

  /** One database record of the tables file, with the keys the loader pops. */
  datatype TableJson = TableJson(
    dbId: string,
    tableNames: seq<string>,
    tableNamesOriginal: seq<string>,
    columnNamesOriginal: seq<(int, string)>,
    primaryKeys: seq<PrimaryKeyJson>,
    foreignKeys: seq<seq<int>>)

  /**
   * `get_cols_descr`, as an oracle: from the database id and the canonical
   * table name (which together address the table's description file) to the
   * column descriptions and the value descriptions, in file order.
   */
  type Describer = (string, string) -> (seq<string>, seq<string>)

  /** `i` is a valid Python index into a list of length `n`. */
  predicate InRange(n: nat, i: int)
  {
    -(n as int) <= i < n
  }

  /** Python's `s[i]`: a negative index counts from the end; anything else out of range raises. */
  function PyIndex<T>(s: seq<T>, i: int): (r: Option<T>)
    ensures r.Some? <==> InRange(|s|, i)
    ensures r.Some? ==> r.value == s[if i < 0 then |s| + i else i]
  {
    if 0 <= i < |s| then Some(s[i])
    else if -|s| <= i < 0 then Some(s[|s| + i])
    else None
  }

  /** Sequencing two lookups: the first failure wins, otherwise the names are concatenated. */
  function Then(a: Result<seq<string>, Error>, b: Result<seq<string>, Error>): Result<seq<string>, Error>
  {
    if a.Failure? then a else if b.Failure? then b else Success(a.value + b.value)
  }

  function Elements(s: seq<string>): set<string>
  {
    set x | x in s
  }

  predicate NoDuplicates(s: seq<string>)
  {
    forall i, j :: 0 <= i < j < |s| ==> s[i] != s[j]
  }

  // ---------------------------------------------------------------- columns

  /** `[col[1] for col in column_names_db if col[0] == table_idx]`. */
  function ColumnsOf(cols: seq<(int, string)>, t: int): (r: seq<string>)
    ensures |r| <= |cols|
    decreases |cols|
  {
    if cols == [] then []
    else
      var c := cols[|cols| - 1];
      ColumnsOf(cols[..|cols| - 1], t) + (if c.0 == t then [c.1] else [])
  }

  /** A name is among table `t`'s columns exactly when some entry pairs it with `t`. */
  lemma {:induction false} ColumnsOfMembers(cols: seq<(int, string)>, t: int, x: string)
    ensures x in ColumnsOf(cols, t) <==> exists i :: 0 <= i < |cols| && cols[i] == (t, x)
    decreases |cols|
  {
    if cols != [] {
      var init := cols[..|cols| - 1];
      ColumnsOfMembers(init, t, x);
      if exists i :: 0 <= i < |init| && init[i] == (t, x) {
        var i :| 0 <= i < |init| && init[i] == (t, x);
        assert cols[i] == (t, x);
      }
      if exists i :: 0 <= i < |cols| && cols[i] == (t, x) {
        var i :| 0 <= i < |cols| && cols[i] == (t, x);
        if i < |init| {
          assert init[i] == (t, x);
        }
      }
    }
  }

  /** The columns of a table keep the order of `column_names_original`. */
  lemma {:induction false} ColumnsOfAppend(a: seq<(int, string)>, b: seq<(int, string)>, t: int)
    ensures ColumnsOf(a + b, t) == ColumnsOf(a, t) + ColumnsOf(b, t)
    decreases |b|
  {
    if b == [] {
      assert a + b == a;
    } else {
      var b' := b[..|b| - 1];
      assert (a + b)[..|a + b| - 1] == a + b';
      assert (a + b)[|a + b| - 1] == b[|b| - 1];
      ColumnsOfAppend(a, b', t);
    }
  }

  // ----------------------------------------------------------- primary keys

  /** `column_names_db[i][1]` when `column_names_db[i][0] == t`: one name, none, or an IndexError. */
  function OwnedName(cols: seq<(int, string)>, i: int, t: int): Result<seq<string>, Error>
  {
    match PyIndex(cols, i)
    case None => Failure(IndexError)
    case Some(c) => Success(if c.0 == t then [c.1] else [])
  }

  /** The names a group of indices contributes to table `t`. */
  function GroupNames(cols: seq<(int, string)>, group: seq<int>, t: int): (r: Result<seq<string>, Error>)
    ensures r.Failure? ==> r.error == IndexError
    decreases |group|
  {
    if group == [] then Success([])
    else Then(GroupNames(cols, group[..|group| - 1], t), OwnedName(cols, group[|group| - 1], t))
  }

  function EntryNames(cols: seq<(int, string)>, pk: PrimaryKeyJson, t: int): (r: Result<seq<string>, Error>)
    ensures r.Failure? ==> r.error == IndexError
  {
    match pk
    case Column(i) => OwnedName(cols, i, t)
    case Group(g) => GroupNames(cols, g, t)
  }

  /** Table `t`'s primary key names: every entry, single or grouped, flattened in order. */
  function PrimaryKeyNames(cols: seq<(int, string)>, pks: seq<PrimaryKeyJson>, t: int): (r: Result<seq<string>, Error>)
    ensures r.Failure? ==> r.error == IndexError
    decreases |pks|
  {
    if pks == [] then Success([])
    else Then(PrimaryKeyNames(cols, pks[..|pks| - 1], t), EntryNames(cols, pks[|pks| - 1], t))
  }

  predicate EntryIndicesOk(n: nat, pk: PrimaryKeyJson)
  {
    match pk
    case Column(i) => InRange(n, i)
    case Group(g) => forall j :: 0 <= j < |g| ==> InRange(n, g[j])
  }

  predicate PrimaryKeyIndicesOk(cols: seq<(int, string)>, pks: seq<PrimaryKeyJson>)
  {
    forall k :: 0 <= k < |pks| ==> EntryIndicesOk(|cols|, pks[k])
  }

  lemma {:induction false} GroupNamesSucceeds(cols: seq<(int, string)>, group: seq<int>, t: int)
    ensures GroupNames(cols, group, t).Success? <==> forall j :: 0 <= j < |group| ==> InRange(|cols|, group[j])
    decreases |group|
  {
    if group != [] {
      var init := group[..|group| - 1];
      GroupNamesSucceeds(cols, init, t);
      assert forall j :: 0 <= j < |init| ==> init[j] == group[j];
    }
  }

  /** Resolving the primary keys fails exactly when some index, single or grouped, is out of range. */
  lemma {:induction false} PrimaryKeyNamesSucceeds(cols: seq<(int, string)>, pks: seq<PrimaryKeyJson>, t: int)
    ensures PrimaryKeyNames(cols, pks, t).Success? <==> PrimaryKeyIndicesOk(cols, pks)
    decreases |pks|
  {
    if pks != [] {
      var init := pks[..|pks| - 1];
      PrimaryKeyNamesSucceeds(cols, init, t);
      assert forall k :: 0 <= k < |init| ==> init[k] == pks[k];
      if pks[|pks| - 1].Group? {
        GroupNamesSucceeds(cols, pks[|pks| - 1].indices, t);
      }
    }
  }

  lemma {:induction false} GroupNamesOwned(cols: seq<(int, string)>, group: seq<int>, t: int, x: string)
    requires GroupNames(cols, group, t).Success?
    requires x in GroupNames(cols, group, t).value
    ensures x in ColumnsOf(cols, t)
    decreases |group|
  {
    var init := group[..|group| - 1];
    var c := PyIndex(cols, group[|group| - 1]);
    if x in GroupNames(cols, init, t).value {
      GroupNamesOwned(cols, init, t, x);
    } else {
      var i := if group[|group| - 1] < 0 then |cols| + group[|group| - 1] else group[|group| - 1];
      assert cols[i] == (t, x);
      ColumnsOfMembers(cols, t, x);
    }
  }

  /** Every primary key name of table `t` is the name of a column that table `t` owns. */
  lemma {:induction false} PrimaryKeysOwned(cols: seq<(int, string)>, pks: seq<PrimaryKeyJson>, t: int, x: string)
    requires PrimaryKeyNames(cols, pks, t).Success?
    requires x in PrimaryKeyNames(cols, pks, t).value
    ensures x in ColumnsOf(cols, t)
    decreases |pks|
  {
    var init := pks[..|pks| - 1];
    if x in PrimaryKeyNames(cols, init, t).value {
      PrimaryKeysOwned(cols, init, t, x);
    } else {
      match pks[|pks| - 1]
      case Column(i) =>
        var j := if i < 0 then |cols| + i else i;
        assert cols[j] == (t, x);
        ColumnsOfMembers(cols, t, x);
      case Group(g) =>
        GroupNamesOwned(cols, g, t, x);
    }
  }

  /** Entry `pk` of `primary_keys` lists column index `i`, on its own or inside a group. */
  predicate EntryLists(pk: PrimaryKeyJson, i: int)
  {
    match pk
    case Column(j) => j == i
    case Group(g) => i in g
  }

  /** A group adds `x` for table `t` exactly when one of its indices points at column `(t, x)`. */
  lemma {:induction false} GroupNamesMembers(cols: seq<(int, string)>, group: seq<int>, t: int, x: string)
    requires GroupNames(cols, group, t).Success?
    ensures x in GroupNames(cols, group, t).value <==>
      exists j :: 0 <= j < |group| && PyIndex(cols, group[j]) == Some((t, x))
    decreases |group|
  {
    if group != [] {
      var init, last := group[..|group| - 1], group[|group| - 1];
      GroupNamesMembers(cols, init, t, x);
      var own := OwnedName(cols, last, t).value;
      assert GroupNames(cols, group, t).value == GroupNames(cols, init, t).value + own;
      assert x in own <==> PyIndex(cols, last) == Some((t, x));
      if exists j :: 0 <= j < |group| && PyIndex(cols, group[j]) == Some((t, x)) {
        var j :| 0 <= j < |group| && PyIndex(cols, group[j]) == Some((t, x));
        if j < |init| {
          assert init[j] == group[j];
        }
      }
      if x in GroupNames(cols, init, t).value {
        var j :| 0 <= j < |init| && PyIndex(cols, init[j]) == Some((t, x));
        assert init[j] == group[j];
      }
    }
  }

  /** One entry adds `x` for table `t` exactly when it lists an index that points at column `(t, x)`. */
  lemma {:induction false} EntryNamesMembers(cols: seq<(int, string)>, pk: PrimaryKeyJson, t: int, x: string)
    requires EntryNames(cols, pk, t).Success?
    ensures x in EntryNames(cols, pk, t).value <==> exists i :: EntryLists(pk, i) && PyIndex(cols, i) == Some((t, x))
  {
    match pk
    case Column(j) =>
    case Group(g) =>
      GroupNamesMembers(cols, g, t, x);
      if exists i :: EntryLists(pk, i) && PyIndex(cols, i) == Some((t, x)) {
        var i :| EntryLists(pk, i) && PyIndex(cols, i) == Some((t, x));
        var j :| 0 <= j < |g| && g[j] == i;
      }
  }

  /**
   * A name is a primary key name of table `t` exactly when some entry of
   * `primary_keys` lists an index that points at column `(t, x)`.
   */
  lemma {:induction false} PrimaryKeyNamesMembers(cols: seq<(int, string)>, pks: seq<PrimaryKeyJson>, t: int, x: string)
    requires PrimaryKeyNames(cols, pks, t).Success?
    ensures x in PrimaryKeyNames(cols, pks, t).value <==>
      exists k, i :: 0 <= k < |pks| && EntryLists(pks[k], i) && PyIndex(cols, i) == Some((t, x))
    decreases |pks|
  {
    if pks != [] {
      var init, last := pks[..|pks| - 1], pks[|pks| - 1];
      PrimaryKeyNamesMembers(cols, init, t, x);
      var names := EntryNames(cols, last, t).value;
      assert PrimaryKeyNames(cols, pks, t).value == PrimaryKeyNames(cols, init, t).value + names;
      EntryNamesMembers(cols, last, t, x);
      if exists k, i :: 0 <= k < |pks| && EntryLists(pks[k], i) && PyIndex(cols, i) == Some((t, x)) {
        var k, i :| 0 <= k < |pks| && EntryLists(pks[k], i) && PyIndex(cols, i) == Some((t, x));
        if k < |init| {
          assert init[k] == pks[k];
        }
      }
      if x in PrimaryKeyNames(cols, init, t).value {
        var k, i :| 0 <= k < |init| && EntryLists(init[k], i) && PyIndex(cols, i) == Some((t, x));
        assert init[k] == pks[k];
      }
    }
  }

  /** Primary key entries contribute their names in the order of `primary_keys`. */
  lemma {:induction false} PrimaryKeyNamesAppend(
    cols: seq<(int, string)>, a: seq<PrimaryKeyJson>, b: seq<PrimaryKeyJson>, t: int)
    ensures PrimaryKeyNames(cols, a + b, t) == Then(PrimaryKeyNames(cols, a, t), PrimaryKeyNames(cols, b, t))
    decreases |b|
  {
    if b == [] {
      assert a + b == a;
      var pa := PrimaryKeyNames(cols, a, t);
      assert pa.Success? ==> pa.value + [] == pa.value;
    } else {
      var b' := b[..|b| - 1];
      var last := EntryNames(cols, b[|b| - 1], t);
      assert (a + b)[..|a + b| - 1] == a + b';
      assert (a + b)[|a + b| - 1] == b[|b| - 1];
      assert PrimaryKeyNames(cols, a + b, t) == Then(PrimaryKeyNames(cols, a + b', t), last);
      PrimaryKeyNamesAppend(cols, a, b', t);
      ThenAssoc(PrimaryKeyNames(cols, a, t), PrimaryKeyNames(cols, b', t), last);
    }
  }

  lemma ThenAssoc(x: Result<seq<string>, Error>, y: Result<seq<string>, Error>, z: Result<seq<string>, Error>)
    ensures Then(Then(x, y), z) == Then(x, Then(y, z))
  {
    if x.Success? && y.Success? && z.Success? {
      assert (x.value + y.value) + z.value == x.value + (y.value + z.value);
    }
  }

  // ----------------------------------------------------------- foreign keys

  function ColumnName(cols: seq<(int, string)>, i: int): Result<seq<string>, Error>
  {
    match PyIndex(cols, i)
    case None => Failure(IndexError)
    case Some(c) => Success([c.1])
  }

  /** The column names referenced by one foreign-key pair, whatever table owns them. */
  function PairNames(cols: seq<(int, string)>, pair: seq<int>): (r: Result<seq<string>, Error>)
    ensures r.Failure? ==> r.error == IndexError
    decreases |pair|
  {
    if pair == [] then Success([])
    else Then(PairNames(cols, pair[..|pair| - 1]), ColumnName(cols, pair[|pair| - 1]))
  }

  /** Every column name referenced by any foreign-key pair, in order and with repeats. */
  function ForeignKeyRefs(cols: seq<(int, string)>, fks: seq<seq<int>>): (r: Result<seq<string>, Error>)
    ensures r.Failure? ==> r.error == IndexError
    decreases |fks|
  {
    if fks == [] then Success([])
    else Then(ForeignKeyRefs(cols, fks[..|fks| - 1]), PairNames(cols, fks[|fks| - 1]))
  }

  predicate ForeignKeyIndicesOk(cols: seq<(int, string)>, fks: seq<seq<int>>)
  {
    forall k, j :: 0 <= k < |fks| && 0 <= j < |fks[k]| ==> InRange(|cols|, fks[k][j])
  }

  lemma {:induction false} PairNamesSpec(cols: seq<(int, string)>, pair: seq<int>)
    ensures PairNames(cols, pair).Success? <==> forall j :: 0 <= j < |pair| ==> InRange(|cols|, pair[j])
    ensures PairNames(cols, pair).Success? ==>
      |PairNames(cols, pair).value| == |pair| &&
      forall j :: 0 <= j < |pair| ==> PairNames(cols, pair).value[j] == PyIndex(cols, pair[j]).value.1
    decreases |pair|
  {
    if pair != [] {
      var init := pair[..|pair| - 1];
      PairNamesSpec(cols, init);
      assert forall j :: 0 <= j < |init| ==> init[j] == pair[j];
    }
  }

  /** Resolving the foreign keys fails exactly when some referenced index is out of range. */
  lemma {:induction false} ForeignKeyRefsSucceeds(cols: seq<(int, string)>, fks: seq<seq<int>>)
    ensures ForeignKeyRefs(cols, fks).Success? <==> ForeignKeyIndicesOk(cols, fks)
    decreases |fks|
  {
    if fks != [] {
      var init := fks[..|fks| - 1];
      ForeignKeyRefsSucceeds(cols, init);
      assert forall k :: 0 <= k < |init| ==> init[k] == fks[k];
      PairNamesSpec(cols, fks[|fks| - 1]);
    }
  }

  /** A name is a foreign key name exactly when some foreign-key pair references a column of that name. */
  lemma {:induction false} ForeignKeyRefsMembers(cols: seq<(int, string)>, fks: seq<seq<int>>, x: string)
    requires ForeignKeyRefs(cols, fks).Success?
    ensures x in ForeignKeyRefs(cols, fks).value <==>
      exists k, j :: 0 <= k < |fks| && 0 <= j < |fks[k]| && ColumnName(cols, fks[k][j]) == Success([x])
    decreases |fks|
  {
    if fks != [] {
      var init, last := fks[..|fks| - 1], fks[|fks| - 1];
      ForeignKeyRefsMembers(cols, init, x);
      PairNamesSpec(cols, last);
      var names := PairNames(cols, last).value;
      if x in names {
        var j :| 0 <= j < |names| && names[j] == x;
        assert PyIndex(cols, fks[|fks| - 1][j]).value.1 == x;
      }
      if exists k, j :: 0 <= k < |fks| && 0 <= j < |fks[k]| && ColumnName(cols, fks[k][j]) == Success([x]) {
        var k, j :| 0 <= k < |fks| && 0 <= j < |fks[k]| && ColumnName(cols, fks[k][j]) == Success([x]);
        if k < |init| {
          assert init[k] == fks[k];
        } else {
          assert names[j] == x;
        }
      }
    }
  }

  // ------------------------------------------------------------ one table

  /** The exception, if any, that loading table `t` of entry `e` raises, in the order the code meets them. */
  function TableError(e: TableJson, t: nat, describe: Describer): Option<Error>
  {
    var cols := e.columnNamesOriginal;
    if PrimaryKeyNames(cols, e.primaryKeys, t).Failure? then Some(PrimaryKeyNames(cols, e.primaryKeys, t).error)
    else if ForeignKeyRefs(cols, e.foreignKeys).Failure? then Some(ForeignKeyRefs(cols, e.foreignKeys).error)
    else if t >= |e.tableNamesOriginal| then Some(IndexError)
    else if !DescriptionFits(Some(describe(e.dbId, e.tableNamesOriginal[t]).0), |ColumnsOf(cols, t)|) then
      Some(ValueError(ColumnDescriptionMismatch))
    else None
  }

  /** `ti` is what loading table `t` of entry `e` yields. */
  ghost predicate LoadedTable(e: TableJson, t: nat, describe: Describer, ti: TableInfo)
  {
    var cols := e.columnNamesOriginal;
    && TableError(e, t, describe) == None
    && ti.tableName == e.tableNamesOriginal[t]
    && ti.cols == ColumnsOf(cols, t)
    && ti.primaryKey == Names(PrimaryKeyNames(cols, e.primaryKeys, t).value)
    && ti.foreignKey.Names?
    && NoDuplicates(ti.foreignKey.names)
    && Elements(ti.foreignKey.names) == Elements(ForeignKeyRefs(cols, e.foreignKeys).value)
    && ti.columnDescription == Some(describe(e.dbId, e.tableNamesOriginal[t]).0)
    && ti.valueDescription == None
    && ti.db == DbInfo(e.dbId)
  }

  /** Two tables of one database carry the same set of foreign key names. */
  lemma SameForeignKeys(e: TableJson, describe: Describer, t1: nat, t2: nat, a: TableInfo, b: TableInfo)
    requires LoadedTable(e, t1, describe, a) && LoadedTable(e, t2, describe, b)
    ensures Elements(a.foreignKey.names) == Elements(b.foreignKey.names)
  {
  }

  /** The inner loop over a composite key's indices: the names one group of indices adds, in order. */
  method CollectGroup(cols: seq<(int, string)>, g: seq<int>, t: int) returns (r: Result<seq<string>, Error>)
    ensures r == GroupNames(cols, g, t)
  {
    var added: seq<string> := [];
    for j := 0 to |g|
      invariant GroupNames(cols, g[..j], t) == Success(added)
    {
      assert g[..j + 1][..j] == g[..j];
      var c := PyIndex(cols, g[j]);
      if c.None? {
        GroupNamesSucceeds(cols, g[..j + 1], t);
        GroupNamesSucceeds(cols, g, t);
        assert !InRange(|cols|, g[j]);
        return Failure(IndexError);
      }
      if c.value.0 == t {
        added := added + [c.value.1];
      } else {
        assert added + [] == added;
      }
    }
    assert g[..|g|] == g;
    return Success(added);
  }

  /** The loop over `primary_keys` that collects table `t`'s key names. */
  method CollectPrimaryKeys(cols: seq<(int, string)>, pks: seq<PrimaryKeyJson>, t: int)
    returns (r: Result<seq<string>, Error>)
    ensures r == PrimaryKeyNames(cols, pks, t)
  {
    var primaryKeys: seq<string> := [];
    for k := 0 to |pks|
      invariant PrimaryKeyNames(cols, pks[..k], t) == Success(primaryKeys)
    {
      assert pks[..k + 1][..k] == pks[..k];
      assert pks[..k + 1][k] == pks[k];
      var names: Result<seq<string>, Error>;
      match pks[k] {
      case Column(i) =>
        var c := PyIndex(cols, i);
        if c.None? {
          names := Failure(IndexError);
        } else if c.value.0 == t {
          names := Success([c.value.1]);
        } else {
          names := Success([]);
        }
      case Group(g) =>
        names := CollectGroup(cols, g, t);
      }
      assert names == EntryNames(cols, pks[k], t);
      if names.Failure? {
        assert pks == pks[..k + 1] + pks[k + 1..];
        PrimaryKeyNamesAppend(cols, pks[..k + 1], pks[k + 1..], t);
        return Failure(IndexError);
      }
      primaryKeys := primaryKeys + names.value;
    }
    assert pks[..|pks|] == pks;
    r := Success(primaryKeys);
  }

  /** The nested loop over `foreign_keys`: the set of every referenced column name. */
  method CollectForeignKeys(cols: seq<(int, string)>, fks: seq<seq<int>>) returns (r: Result<set<string>, Error>)
    ensures r.Failure? <==> ForeignKeyRefs(cols, fks).Failure?
    ensures r.Failure? ==> r.error == IndexError
    ensures r.Success? ==> r.value == Elements(ForeignKeyRefs(cols, fks).value)
  {
    var foreignKeys: set<string> := {};
    for k := 0 to |fks|
      invariant ForeignKeyRefs(cols, fks[..k]).Success?
      invariant foreignKeys == Elements(ForeignKeyRefs(cols, fks[..k]).value)
    {
      assert fks[..k + 1][..k] == fks[..k];
      var foreignKeyIds := fks[k];
      ghost var before := foreignKeys;
      for j := 0 to |foreignKeyIds|
        invariant PairNames(cols, foreignKeyIds[..j]).Success?
        invariant foreignKeys == before + Elements(PairNames(cols, foreignKeyIds[..j]).value)
      {
        assert foreignKeyIds[..j + 1][..j] == foreignKeyIds[..j];
        var c := PyIndex(cols, foreignKeyIds[j]);
        if c.None? {
          ForeignKeyRefsSucceeds(cols, fks);
          assert !InRange(|cols|, fks[k][j]);
          return Failure(IndexError);
        }
        foreignKeys := foreignKeys + {c.value.1};
      }
      assert foreignKeyIds[..|foreignKeyIds|] == foreignKeyIds;
    }
    assert fks[..|fks|] == fks;
    r := Success(foreignKeys);
  }

  lemma SnocFresh(l: seq<string>, x: string)
    requires NoDuplicates(l) && x !in Elements(l)
    ensures NoDuplicates(l + [x])
    ensures Elements(l + [x]) == Elements(l) + {x}
  {
    var l' := l + [x];
    forall i, j | 0 <= i < j < |l'|
      ensures l'[i] != l'[j]
    {
      if j == |l| {
        assert l[i] in Elements(l);
      }
    }
  }

  /** `list(s)`: the elements of a set, each once, in an order the model leaves open. */
  method ListOfSet(s: set<string>) returns (l: seq<string>)
    ensures NoDuplicates(l)
    ensures Elements(l) == s
  {
    l := [];
    var rest := s;
    while rest != {}
      invariant rest !! Elements(l)
      invariant rest + Elements(l) == s
      invariant NoDuplicates(l)
      decreases |rest|
    {
      var x :| x in rest;
      SnocFresh(l, x);
      l := l + [x];
      rest := rest - {x};
    }
  }

  /** The body of the loop over `table_names`, for table `t` of entry `e`. */
  method LoadTable(e: TableJson, t: nat, describe: Describer) returns (r: Result<TableInfo, Error>)
    ensures r.Failure? <==> TableError(e, t, describe).Some?
    ensures r.Failure? ==> TableError(e, t, describe) == Some(r.error)
    ensures r.Success? ==> LoadedTable(e, t, describe, r.value) && Valid(r.value)
  {
    var columnNamesDb := e.columnNamesOriginal;
    var columnNames := ColumnsOf(columnNamesDb, t);
    var primaryKeys := CollectPrimaryKeys(columnNamesDb, e.primaryKeys, t);
    if primaryKeys.Failure? {
      return Failure(primaryKeys.error);
    }
    var foreignKeys := CollectForeignKeys(columnNamesDb, e.foreignKeys);
    if foreignKeys.Failure? {
      return Failure(foreignKeys.error);
    }
    if t >= |e.tableNamesOriginal| {
      return Failure(IndexError);
    }
    var tableNameOriginal := e.tableNamesOriginal[t];
    var (columnDescriptions, valueDescriptions) := describe(e.dbId, tableNameOriginal);
    var foreignKeyList := ListOfSet(foreignKeys.value);
    // The value descriptions are passed under a keyword that is not a field, so they are dropped.
    r := NewTableInfo(
      tableName := tableNameOriginal,
      cols := columnNames,
      primaryKey := Names(primaryKeys.value),
      foreignKey := Names(foreignKeyList),
      db := DbInfo(e.dbId),
      columnDescription := Some(columnDescriptions));
  }

  // --------------------------------------------------------- whole dataset

  /** The first exception among tables `0 .. n-1` of entry `e`. */
  function FirstTableError(e: TableJson, n: nat, describe: Describer): Option<Error>
    decreases n
  {
    if n == 0 then None
    else
      var prev := FirstTableError(e, n - 1, describe);
      if prev.Some? then prev else TableError(e, n - 1, describe)
  }

  function EntryError(e: TableJson, describe: Describer): Option<Error>
  {
    FirstTableError(e, |e.tableNames|, describe)
  }

  /** The first exception over all entries: the loader raises it and returns nothing. */
  function LoadError(entries: seq<TableJson>, describe: Describer): Option<Error>
    decreases |entries|
  {
    if entries == [] then None
    else
      var prev := LoadError(entries[..|entries| - 1], describe);
      if prev.Some? then prev else EntryError(entries[|entries| - 1], describe)
  }

  /** Loading fails for an entry exactly when some table of it fails. */
  lemma {:induction false} FirstTableErrorSome(e: TableJson, n: nat, describe: Describer)
    ensures FirstTableError(e, n, describe).Some? <==> exists t :: 0 <= t < n && TableError(e, t, describe).Some?
    decreases n
  {
    if n > 0 {
      FirstTableErrorSome(e, n - 1, describe);
    }
  }

  lemma {:induction false} FirstTableErrorStable(e: TableJson, m: nat, n: nat, describe: Describer)
    requires m <= n
    requires FirstTableError(e, m, describe).Some?
    ensures FirstTableError(e, n, describe) == FirstTableError(e, m, describe)
    decreases n - m
  {
    if m < n {
      FirstTableErrorStable(e, m, n - 1, describe);
    }
  }

  lemma {:induction false} LoadErrorStable(entries: seq<TableJson>, n: nat, describe: Describer)
    requires n <= |entries|
    requires LoadError(entries[..n], describe).Some?
    ensures LoadError(entries, describe) == LoadError(entries[..n], describe)
    decreases |entries| - n
  {
    if n < |entries| {
      var init := entries[..|entries| - 1];
      assert init[..n] == entries[..n];
      LoadErrorStable(init, n, describe);
    } else {
      assert entries[..n] == entries;
    }
  }

  /**
   * A foreign-key index out of range makes the whole database fail to load
   * rather than being skipped, as soon as the database has one table; with
   * no table, nothing is looked up and nothing fails.
   */
  lemma BadForeignKeyFails(e: TableJson, describe: Describer)
    requires !ForeignKeyIndicesOk(e.columnNamesOriginal, e.foreignKeys)
    ensures EntryError(e, describe) == if e.tableNames == [] then None else Some(IndexError)
  {
    ForeignKeyRefsSucceeds(e.columnNamesOriginal, e.foreignKeys);
    if e.tableNames != [] {
      assert FirstTableError(e, 1, describe) == Some(IndexError);
      FirstTableErrorStable(e, 1, |e.tableNames|, describe);
    }
  }

  ghost predicate LoadedEntry(e: TableJson, describe: Describer, tables: seq<TableInfo>)
  {
    && |tables| == |e.tableNames|
    && forall t {:trigger LoadedTable(e, t, describe, tables[t])} :: 0 <= t < |tables| ==> LoadedTable(e, t, describe, tables[t])
  }

  /** `tables` is the concatenation, entry by entry, of each entry's loaded tables. */
  ghost predicate LoadedAll(entries: seq<TableJson>, describe: Describer, tables: seq<TableInfo>)
    decreases |entries|
  {
    if entries == [] then tables == []
    else
      var e := entries[|entries| - 1];
      var n := |e.tableNames|;
      && n <= |tables|
      && LoadedAll(entries[..|entries| - 1], describe, tables[..|tables| - n])
      && LoadedEntry(e, describe, tables[|tables| - n..])
  }

  function TableCount(entries: seq<TableJson>): nat
    decreases |entries|
  {
    if entries == [] then 0 else TableCount(entries[..|entries| - 1]) + |entries[|entries| - 1].tableNames|
  }

  /** The loader yields as many tables as all entries' `table_names` together. */
  lemma {:induction false} LoadedAllCount(entries: seq<TableJson>, describe: Describer, tables: seq<TableInfo>)
    requires LoadedAll(entries, describe, tables)
    ensures |tables| == TableCount(entries)
    decreases |entries|
  {
    if entries != [] {
      var n := |entries[|entries| - 1].tableNames|;
      LoadedAllCount(entries[..|entries| - 1], describe, tables[..|tables| - n]);
    }
  }

  /** Table `t` of entry `i` sits at position `TableCount(entries[..i]) + t` of the output. */
  lemma {:induction false} LoadedTableAt(
    entries: seq<TableJson>, describe: Describer, tables: seq<TableInfo>, i: nat, t: nat)
    requires LoadedAll(entries, describe, tables)
    requires i < |entries| && t < |entries[i].tableNames|
    ensures TableCount(entries[..i]) + t < |tables|
    ensures LoadedTable(entries[i], t, describe, tables[TableCount(entries[..i]) + t])
    decreases |entries|
  {
    var init := entries[..|entries| - 1];
    var front := LoadedInit(entries, describe, tables);
    if i < |init| {
      assert init[..i] == entries[..i];
      assert init[i] == entries[i];
      LoadedTableAt(init, describe, front, i, t);
      assert front[TableCount(init[..i]) + t] == tables[TableCount(entries[..i]) + t];
    } else {
      assert entries[..i] == init;
      LoadedLastEntry(entries, describe, tables, t);
    }
  }

  /** Without the last entry, the output loses exactly that entry's tables. */
  lemma LoadedInit(entries: seq<TableJson>, describe: Describer, tables: seq<TableInfo>)
    returns (front: seq<TableInfo>)
    requires LoadedAll(entries, describe, tables) && entries != []
    ensures LoadedAll(entries[..|entries| - 1], describe, front)
    ensures |front| == TableCount(entries[..|entries| - 1])
    ensures front <= tables
  {
    front := tables[..|tables| - |entries[|entries| - 1].tableNames|];
    LoadedAllCount(entries[..|entries| - 1], describe, front);
  }

  /** The last entry's tables are the last ones of the output. */
  lemma LoadedLastEntry(entries: seq<TableJson>, describe: Describer, tables: seq<TableInfo>, t: nat)
    requires LoadedAll(entries, describe, tables)
    requires entries != [] && t < |entries[|entries| - 1].tableNames|
    ensures TableCount(entries[..|entries| - 1]) + t < |tables|
    ensures LoadedTable(entries[|entries| - 1], t, describe, tables[TableCount(entries[..|entries| - 1]) + t])
  {
    var init := entries[..|entries| - 1];
    var n := |entries[|entries| - 1].tableNames|;
    var front, rows := tables[..|tables| - n], tables[|tables| - n..];
    LoadedAllCount(init, describe, front);
    assert rows[t] == tables[TableCount(init) + t];
  }

  /** Loading entry `i` fails: so does the whole load, with the same exception. */
  lemma {:induction false} LoadFailsAt(entries: seq<TableJson>, i: nat, describe: Describer)
    requires i < |entries|
    requires LoadError(entries[..i], describe) == None && EntryError(entries[i], describe).Some?
    ensures LoadError(entries, describe) == EntryError(entries[i], describe)
    decreases |entries|
  {
    var init := entries[..|entries| - 1];
    if i < |init| {
      assert init[..i] == entries[..i];
      assert init[i] == entries[i];
      LoadFailsAt(init, i, describe);
    } else {
      assert init == entries[..i];
    }
  }

  /** Loading entry `i` succeeds: the results so far grow by that entry alone. */
  lemma LoadStep(
    entries: seq<TableJson>, i: nat, describe: Describer, front: seq<TableInfo>, rows: seq<TableInfo>)
    requires i < |entries|
    requires LoadError(entries[..i], describe) == None && EntryError(entries[i], describe) == None
    requires LoadedAll(entries[..i], describe, front) && LoadedEntry(entries[i], describe, rows)
    ensures DbInfos(entries[..i + 1]) == DbInfos(entries[..i]) + [DbInfo(entries[i].dbId)]
    ensures LoadError(entries[..i + 1], describe) == None
    ensures LoadedAll(entries[..i + 1], describe, front + rows)
  {
    var all := front + rows;
    assert entries[..i + 1][..i] == entries[..i];
    assert entries[..i + 1][i] == entries[i];
    assert all[..|all| - |rows|] == front;
    assert all[|all| - |rows|..] == rows;
  }

  /**
   * The inner loop of `create_models_from_json`: the tables of one entry, in
   * `table_names` order, or the first exception one of them raises.
   */
  method LoadEntry(entry: TableJson, describe: Describer) returns (r: Result<seq<TableInfo>, Error>)
    ensures r.Failure? <==> EntryError(entry, describe).Some?
    ensures r.Failure? ==> EntryError(entry, describe) == Some(r.error)
    ensures r.Success? ==> LoadedEntry(entry, describe, r.value)
    ensures r.Success? ==> forall ti :: ti in r.value ==> Valid(ti)
  {
    var rows: seq<TableInfo> := [];
    for t := 0 to |entry.tableNames|
      invariant |rows| == t
      invariant forall k :: 0 <= k < t ==> LoadedTable(entry, k, describe, rows[k])
      invariant FirstTableError(entry, t, describe) == None
      invariant forall ti :: ti in rows ==> Valid(ti)
    {
      var tableInfo := LoadTable(entry, t, describe);
      if tableInfo.Failure? {
        FirstTableErrorStable(entry, t + 1, |entry.tableNames|, describe);
        return Failure(tableInfo.error);
      }
      rows := rows + [tableInfo.value];
    }
    return Success(rows);
  }

  /** One `DbInfo` per entry, in order. */
  function DbInfos(entries: seq<TableJson>): (r: seq<DbInfo>)
    ensures |r| == |entries|
    ensures forall k :: 0 <= k < |entries| ==> r[k] == DbInfo(entries[k].dbId)
    decreases |entries|
  {
    if entries == [] then [] else DbInfos(entries[..|entries| - 1]) + [DbInfo(entries[|entries| - 1].dbId)]
  }

  /** `create_models_from_json`: the loop over entries, each loading its tables. */
  method CreateModelsFromJson(entries: seq<TableJson>, describe: Describer)
    returns (r: Result<(seq<DbInfo>, seq<TableInfo>), Error>)
    ensures r.Failure? <==> LoadError(entries, describe).Some?
    ensures r.Failure? ==> LoadError(entries, describe) == Some(r.error)
    ensures r.Success? ==> |r.value.0| == |entries|
    ensures r.Success? ==> forall i :: 0 <= i < |entries| ==> r.value.0[i] == DbInfo(entries[i].dbId)
    ensures r.Success? ==> LoadedAll(entries, describe, r.value.1)
    ensures r.Success? ==> forall ti :: ti in r.value.1 ==> Valid(ti)
  {
    var dbInfos: seq<DbInfo> := [];
    var tableInfos: seq<TableInfo> := [];
    for i := 0 to |entries|
      invariant dbInfos == DbInfos(entries[..i])
      invariant LoadError(entries[..i], describe) == None
      invariant LoadedAll(entries[..i], describe, tableInfos)
      invariant forall ti :: ti in tableInfos ==> Valid(ti)
    {
      var entry := entries[i];
      dbInfos := dbInfos + [DbInfo(entry.dbId)];
      var rows := LoadEntry(entry, describe);
      if rows.Failure? {
        LoadFailsAt(entries, i, describe);
        return Failure(rows.error);
      }
      LoadStep(entries, i, describe, tableInfos, rows.value);
      tableInfos := tableInfos + rows.value;
    }
    assert entries[..|entries|] == entries;
    return Success((dbInfos, tableInfos));
  }
}

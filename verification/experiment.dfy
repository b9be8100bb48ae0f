/**
 * The experiment driver: `q2SQLExperiment` selects the examples to run,
 * asks the language model for a query per example, scores it by exact text
 * (ignoring case) and by execution against the example's database, and keeps
 * a table of sampled predictions.
 */
module Experiment {
  import opened Wrappers
  import opened Data
  import opened Text
  import opened Sequences

  /** A value in a result row. */
  datatype SqlValue = IntValue(i: int) | TextValue(s: string) | NullValue

  type Row = seq<SqlValue>

  /**
   * What the embedded database engine does with a query: it runs and has a
   * first row or none, or it raises.
   */
  datatype Outcome = Rows(first: Option<Row>) | Failed

  /** The database engine, as an oracle from (database file path, query text) to its outcome. */
  type Engine = (string, string) -> Outcome

  /** The language model, as an oracle from (schema text, external knowledge, question) to its raw answer. */
  type Model = (string, Option<string>, string) -> string

  /** `<root>/<db_id>/<db_id>.sqlite`. */
  function DbPath(root: string, dbId: string): string
  {
    root + "/" + dbId + "/" + dbId + ".sqlite"
  }

  /** `is_query_runnable`: the query runs and its first row can be fetched. */
  predicate IsQueryRunnable(engine: Engine, path: string, query: string)
  {
    !engine(path, query).Failed?
  }

  /** `execute_query`: the first row, with "no row" and "raised" both collapsed into `None`. */
  function ExecuteQuery(engine: Engine, path: string, query: string): Option<Row>
  {
    match engine(path, query)
    case Rows(first) => first
    case Failed => None
  }

  /** The execution rule of `evaluate_response`: the prediction runs and has the gold query's first row. */
  predicate ExecutionMatch(engine: Engine, path: string, predicted: string, gold: string)
  {
    IsQueryRunnable(engine, path, predicted) && ExecuteQuery(engine, path, predicted) == ExecuteQuery(engine, path, gold)
  }

  /**
   * The execution rule in terms of the engine: the prediction must run, and
   * then either both queries have the same outcome, or the prediction has no
   * row while the gold query raises, which the collapse of the two cases
   * into `None` lets through.
   */
  lemma ExecutionMatchIff(engine: Engine, path: string, predicted: string, gold: string)
    ensures ExecutionMatch(engine, path, predicted, gold) <==>
      && !engine(path, predicted).Failed?
      && (engine(path, predicted) == engine(path, gold)
          || (engine(path, predicted) == Rows(None) && engine(path, gold).Failed?))
  {
    var p, g := engine(path, predicted), engine(path, gold);
    if !p.Failed? && ExecuteQuery(engine, path, predicted) == ExecuteQuery(engine, path, gold) && p != g {
      assert p.first == None;
    }
  }

  /** The answer for one example after `response.replace("\n", "")`. */
  function Prediction(llm: Model, info: SqlInfo): (r: string)
    ensures '\n' !in r
  {
    StripNewlines(llm(info.schemaStr, info.externalKnowledge, info.question))
  }

  /** Python's `s[:n]`: a negative `n` drops that many items from the end. */
  function Truncate<T>(s: seq<T>, n: int): (r: seq<T>)
    ensures |r| <= |s|
    ensures r == s[..|r|]
    ensures 0 <= n ==> |r| == if n < |s| then n else |s|
    ensures n < 0 ==> |r| == if |s| + n < 0 then 0 else |s| + n
  {
    if 0 <= n then s[..if n < |s| then n else |s|]
    else s[..if |s| + n < 0 then 0 else |s| + n]
  }

  /** `[d for d in infos if d.difficulty == difficulty]`. */
  function WithDifficulty(infos: seq<SqlInfo>, difficulty: string): (r: seq<SqlInfo>)
    ensures |r| <= |infos|
    decreases |infos|
  {
    if infos == [] then []
    else
      var last := infos[|infos| - 1];
      WithDifficulty(infos[..|infos| - 1], difficulty) + (if last.difficulty == difficulty then [last] else [])
  }

  /** An example survives the filter exactly when it has the requested difficulty. */
  lemma {:induction false} WithDifficultyMembers(infos: seq<SqlInfo>, difficulty: string, x: SqlInfo)
    ensures x in WithDifficulty(infos, difficulty) <==> x in infos && x.difficulty == difficulty
    decreases |infos|
  {
    if infos != [] {
      var init := infos[..|infos| - 1];
      WithDifficultyMembers(init, difficulty, x);
      assert infos == init + [infos[|infos| - 1]];
    }
  }

  /** The filter keeps input order. */
  lemma {:induction false} WithDifficultyAppend(a: seq<SqlInfo>, b: seq<SqlInfo>, difficulty: string)
    ensures WithDifficulty(a + b, difficulty) == WithDifficulty(a, difficulty) + WithDifficulty(b, difficulty)
    decreases |b|
  {
    if b == [] {
      assert a + b == a;
    } else {
      var b' := b[..|b| - 1];
      assert (a + b)[..|a + b| - 1] == a + b';
      assert (a + b)[|a + b| - 1] == b[|b| - 1];
      WithDifficultyAppend(a, b', difficulty);
    }
  }

  /**
   * The examples `run_inference` scores: first the first `debugNum` examples
   * (when `debugNum` is set and non-zero), then, among those, the ones of the
   * requested difficulty (when one is set and non-empty).
   */
  function Selected(infos: seq<SqlInfo>, debugNum: Option<int>, difficulty: Option<string>): seq<SqlInfo>
  {
    var kept := if debugNum.Some? && debugNum.value != 0 then Truncate(infos, debugNum.value) else infos;
    if difficulty.Some? && difficulty.value != "" then WithDifficulty(kept, difficulty.value) else kept
  }

  /**
   * Truncation comes before filtering: an example is selected exactly when it
   * is among the first `n` examples and has the requested difficulty, so the
   * `n` budget counts examples of every difficulty.
   */
  lemma SelectedMembers(infos: seq<SqlInfo>, n: nat, difficulty: string, x: SqlInfo)
    requires n > 0 && difficulty != ""
    ensures x in Selected(infos, Some(n), Some(difficulty)) <==>
      x in infos[..if n < |infos| then n else |infos|] && x.difficulty == difficulty
  {
    WithDifficultyMembers(Truncate(infos, n), difficulty, x);
  }

  /** The two rows `log_results` appends for a logged example. */
  datatype LogRow = LogRow(question: string, kind: string, query: string, result: string)

  function LogRows(info: SqlInfo, response: string, result: bool): seq<LogRow>
  {
    [ LogRow(info.question, "AI Generated SQL Query", response, if result then "Correct" else "Incorrect"),
      LogRow(info.question, "Gold Standard SQL Query", info.queryGold, "") ]
  }

  /** How many of `infos` the model gets right by execution. */
  function ExecutionHits(infos: seq<SqlInfo>, llm: Model, engine: Engine, root: string): (r: nat)
    ensures r <= |infos|
    decreases |infos|
  {
    if infos == [] then 0
    else
      var info := infos[|infos| - 1];
      ExecutionHits(infos[..|infos| - 1], llm, engine, root)
        + (if ExecutionMatch(engine, DbPath(root, info.dbId), Prediction(llm, info), info.queryGold) then 1 else 0)
  }

  /** How many of `infos` the model gets right as text, ignoring case. */
  function TextHits(infos: seq<SqlInfo>, llm: Model): (r: nat)
    ensures r <= |infos|
    decreases |infos|
  {
    if infos == [] then 0
    else
      var info := infos[|infos| - 1];
      TextHits(infos[..|infos| - 1], llm) + (if SameIgnoringCase(Prediction(llm, info), info.queryGold) then 1 else 0)
  }

  /** The rows logged while scoring `infos`: two for every example whose position is a multiple of 10. */
  function LogTable(infos: seq<SqlInfo>, llm: Model, engine: Engine, root: string): seq<LogRow>
    decreases |infos|
  {
    if infos == [] then []
    else
      var idx := |infos| - 1;
      var info := infos[idx];
      var response := Prediction(llm, info);
      var result := ExecutionMatch(engine, DbPath(root, info.dbId), response, info.queryGold);
      LogTable(infos[..idx], llm, engine, root) + (if idx % 10 == 0 then LogRows(info, response, result) else [])
  }

  /** One more example adds one to `ceil(n / 10)` exactly when its position `n` is a multiple of 10. */
  lemma CeilTenthStep(n: nat)
    ensures (n + 10) / 10 == (n + 9) / 10 + (if n % 10 == 0 then 1 else 0)
  {
    var q, r := n / 10, n % 10;
    assert n == 10 * q + r;
    assert n + 10 == 10 * (q + 1) + r;
    if r == 0 {
      assert n + 9 == 10 * q + 9;
    } else {
      assert n + 9 == 10 * (q + 1) + (r - 1);
    }
  }

  /** Scoring `n` examples logs `ceil(n / 10)` of them, two rows each. */
  lemma {:induction false} LogTableSize(infos: seq<SqlInfo>, llm: Model, engine: Engine, root: string)
    ensures |LogTable(infos, llm, engine, root)| == 2 * ((|infos| + 9) / 10)
    decreases |infos|
  {
    if infos != [] {
      var idx := |infos| - 1;
      LogTableSize(infos[..idx], llm, engine, root);
      CeilTenthStep(idx);
      var info := infos[idx];
      var response := Prediction(llm, info);
      var result := ExecutionMatch(engine, DbPath(root, info.dbId), response, info.queryGold);
      assert |LogRows(info, response, result)| == 2;
      assert |LogTable(infos, llm, engine, root)|
          == |LogTable(infos[..idx], llm, engine, root)| + (if idx % 10 == 0 then 2 else 0);
    }
  }

  /**
   * Scoring one more example extends each running total by that example
   * alone: `response` is its prediction and `result` its execution verdict.
   */
  lemma ScoresStep(infos: seq<SqlInfo>, idx: nat, llm: Model, engine: Engine, root: string,
                   response: string, result: bool)
    requires idx < |infos|
    requires response == Prediction(llm, infos[idx])
    requires result == ExecutionMatch(engine, DbPath(root, infos[idx].dbId), response, infos[idx].queryGold)
    ensures ExecutionHits(infos[..idx + 1], llm, engine, root)
      == ExecutionHits(infos[..idx], llm, engine, root) + (if result then 1 else 0)
    ensures TextHits(infos[..idx + 1], llm)
      == TextHits(infos[..idx], llm) + (if SameIgnoringCase(response, infos[idx].queryGold) then 1 else 0)
    ensures LogTable(infos[..idx + 1], llm, engine, root)
      == LogTable(infos[..idx], llm, engine, root) + (if idx % 10 == 0 then LogRows(infos[idx], response, result) else [])
  {
    assert infos[..idx + 1][..idx] == infos[..idx];
    assert infos[..idx + 1][idx] == infos[idx];
  }

  /** `q2SQLExperiment`, with its scoring state. */
  class Q2SqlExperiment {
    var q2sqlInfos: seq<SqlInfo>
    const dbInfoPath: string
    const difficulty: Option<string>
    const debugNum: Option<int>
    var sqlData: seq<LogRow>
    var tp: nat
    var lsTp: nat
    var totalQueries: nat

    /** Neither hit counter ever exceeds the number of scored examples. */
    ghost predicate Valid()
      reads this
    {
      tp <= totalQueries && lsTp <= totalQueries
    }

    /** The state `__init__` leaves once the examples are loaded: no log rows and all counters zero. */
    constructor (q2sqlInfos: seq<SqlInfo>, dbInfoPath: string, difficulty: Option<string> := None,
                 debugNum: Option<int> := None)
      ensures Valid()
      ensures this.q2sqlInfos == q2sqlInfos && this.dbInfoPath == dbInfoPath
      ensures this.difficulty == difficulty && this.debugNum == debugNum
      ensures sqlData == [] && tp == 0 && lsTp == 0 && totalQueries == 0
    {
      this.q2sqlInfos := q2sqlInfos;
      this.dbInfoPath := dbInfoPath;
      this.difficulty := difficulty;
      this.debugNum := debugNum;
      sqlData := [];
      tp, lsTp, totalQueries := 0, 0, 0;
    }

    /**
     * `evaluate_response`: one more scored example; `lsTp` counts it when the
     * text matches ignoring case, `tp` when it matches by execution, and the
     * result says whether it did.
     */
    method EvaluateResponse(response: string, queryInfo: SqlInfo, dbPath: string, engine: Engine)
      returns (result: bool)
      requires Valid()
      modifies this`tp, this`lsTp, this`totalQueries
      ensures Valid()
      ensures result == ExecutionMatch(engine, dbPath, response, queryInfo.queryGold)
      ensures tp == old(tp) + (if result then 1 else 0)
      ensures lsTp == old(lsTp) + (if SameIgnoringCase(response, queryInfo.queryGold) then 1 else 0)
      ensures totalQueries == old(totalQueries) + 1
    {
      result := false;
      if Lower(response) == Lower(queryInfo.queryGold) {
        lsTp := lsTp + 1;
      }
      if IsQueryRunnable(engine, dbPath, response)
         && ExecuteQuery(engine, dbPath, response) == ExecuteQuery(engine, dbPath, queryInfo.queryGold)
      {
        tp := tp + 1;
        result := true;
      }
      totalQueries := totalQueries + 1;
    }

    /**
     * `log_results`: every tenth example (positions 0, 10, 20, ...) appends
     * its two rows; the accuracies it then logs divide by `totalQueries`.
     */
    method LogResults(idx: nat, queryInfo: SqlInfo, response: string, result: bool)
      requires idx % 10 == 0 ==> totalQueries > 0
      modifies this`sqlData
      ensures sqlData == old(sqlData) + (if idx % 10 == 0 then LogRows(queryInfo, response, result) else [])
    {
      if idx % 10 == 0 {
        sqlData := sqlData + LogRows(queryInfo, response, result);
      }
    }

    /**
     * The loop of `run_inference`: score each of `q2sqlInfos` in order.
     * Afterwards every one of them has been counted once, each counter grew
     * by the hits among them, and the log grew by the sampled rows.
     */
    method ScoreAll(llm: Model, engine: Engine)
      requires Valid()
      modifies this`tp, this`lsTp, this`totalQueries, this`sqlData
      ensures Valid()
      ensures totalQueries == old(totalQueries) + |q2sqlInfos|
      ensures tp == old(tp) + ExecutionHits(q2sqlInfos, llm, engine, dbInfoPath)
      ensures lsTp == old(lsTp) + TextHits(q2sqlInfos, llm)
      ensures sqlData == old(sqlData) + LogTable(q2sqlInfos, llm, engine, dbInfoPath)
    {
      ghost var tp0, lsTp0, total0, data0 := tp, lsTp, totalQueries, sqlData;
      for idx := 0 to |q2sqlInfos|
        invariant Valid()
        invariant totalQueries == total0 + idx
        invariant tp == tp0 + ExecutionHits(q2sqlInfos[..idx], llm, engine, dbInfoPath)
        invariant lsTp == lsTp0 + TextHits(q2sqlInfos[..idx], llm)
        invariant sqlData == data0 + LogTable(q2sqlInfos[..idx], llm, engine, dbInfoPath)
      {
        var queryInfo := q2sqlInfos[idx];
        var response := llm(queryInfo.schemaStr, queryInfo.externalKnowledge, queryInfo.question);
        var dbPath := DbPath(dbInfoPath, queryInfo.dbId);
        response := StripNewlines(response);
        assert response == Prediction(llm, queryInfo);
        var result := EvaluateResponse(response, queryInfo, dbPath, engine);
        ScoresStep(q2sqlInfos, idx, llm, engine, dbInfoPath, response, result);
        ghost var before := LogTable(q2sqlInfos[..idx], llm, engine, dbInfoPath);
        ghost var added := if idx % 10 == 0 then LogRows(queryInfo, response, result) else [];
        LogResults(idx, queryInfo, response, result);
        AppendAssoc(data0, before, added);
      }
      assert q2sqlInfos[..|q2sqlInfos|] == q2sqlInfos;
    }

    /**
     * `run_inference`: select the examples, then score each in order.
     */
    method RunInference(llm: Model, engine: Engine)
      requires Valid()
      modifies this
      ensures Valid()
      ensures q2sqlInfos == Selected(old(q2sqlInfos), debugNum, difficulty)
      ensures totalQueries == old(totalQueries) + |q2sqlInfos|
      ensures tp == old(tp) + ExecutionHits(q2sqlInfos, llm, engine, dbInfoPath)
      ensures lsTp == old(lsTp) + TextHits(q2sqlInfos, llm)
      ensures sqlData == old(sqlData) + LogTable(q2sqlInfos, llm, engine, dbInfoPath)
    {
      if debugNum.Some? && debugNum.value != 0 {
        q2sqlInfos := Truncate(q2sqlInfos, debugNum.value);
      }
      if difficulty.Some? && difficulty.value != "" {
        q2sqlInfos := WithDifficulty(q2sqlInfos, difficulty.value);
      }
      ScoreAll(llm, engine);
    }
  }
}

# Text-to-SQL evaluation harness, modelled in Dafny

This project models the core of a text-to-SQL evaluation harness:

- the loader that turns a JSON dump of database schemas into `DbInfo` and `TableInfo` records (`create_models_from_json`);
- the renderer that writes a database's tables as `CREATE TABLE` text for the prompt (`generate_sql_schema`);
- the builder that pairs every question with that text (`build_q2sql_model`);
- the experiment driver `q2SQLExperiment`, which picks the examples to run, asks a language model for a query, and scores the answer two ways:
  - by exact text, ignoring case;
  - by executing both queries and comparing the first row.

  It also keeps a table of every tenth prediction.

Modules, one per component:

- `Sequences`: one shared lemma, associativity of sequence concatenation.
- `Wrappers`: `Option` and `Result`.
- `Data`: the records and the length check `TableInfo` runs when it is built.
- `Text`: the Python string operations the harness uses (`join`, ASCII `lower`, `replace("\n", "")`), and Python's `split`, which the harness does not call. `split` is there only to state that the schema text has one line per table (`Schema.SchemaLines`).
- `Schema`: the renderer and the question builder.
- `Loader`: the loader.
- `Experiment`: the query helpers and the `Q2SqlExperiment` class.

Pure code is modelled as functions and lemmas. The loops of the source are methods with loop invariants. Each loop method is proved against a specification written with pure functions, and the properties are proved about those functions. `list(set)` leaves the order of the foreign-key names open, and so does the specification where it occurs (`Loader.ListOfSet`, `Loader.LoadedTable`). The experiment object is a class whose methods update its counters and its log in place.

The language model, the database engine and the reader of the per-table description files are oracles. Each is a parameter of function type:

- `Experiment.Model`;
- `Experiment.Engine`, which yields a first row, no row, or a failure;
- `Loader.Describer`.

Python's own behaviour is written out where it matters:

- negative list indices (`Loader.PyIndex`);
- negative slice bounds (`Experiment.Truncate`);
- truthiness of `None`, `[]`, `0` and `""`;
- `str()` of a list, which gives `['a']`.

Two quirks of the code are kept as written:

- `execute_query` returns `None` both when the query has no row and when it raises. The two outcomes are not distinguishable. `Experiment.ExecutionMatchIff` states what this does to the execution check.
- A primary key that is a one-element list renders with its list brackets and quotes, as `PRIMARY KEY (['id'])`. The loader always produces list-valued keys, so this applies to every single-column key it loads.

## Model

| member | source | states |
|---|---|---|
| Data.Truthy | experiment/data.py:20-23 | defines Python truthiness of an optional description list: `None` and `[]` are false |
| Data.DescriptionFits | experiment/data.py:20-23 | defines when a description list passes the check: it is falsy or has one entry per column |
| Data.Valid | experiment/data.py:18-23 | defines what every constructed `TableInfo` satisfies: both description lists pass the check; `Data.NewTableInfo` establishes it |
| Data.NewTableInfo | experiment/data.py:18-23 | construction succeeds exactly when each truthy description list has one entry per column; on success the record holds the arguments and is `Valid`; on failure the error is the column-description message when that list is wrong, else the value-description message |
| Text.Join | experiment/utils.py:23 | defines Python's `sep.join(parts)`, used at experiment/utils.py:23, 31 and 34; `Text.JoinAppend`, `Text.JoinStartsWithFirst`, `Text.JoinAvoids` and `Text.SplitJoin` state its properties |
| Text.SplitJoin | experiment/utils.py:34 | `"\n".join` then `split("\n")` gives back the parts, for a non-empty list of newline-free parts |
| Text.JoinStartsWithFirst | experiment/utils.py:34 | the joined text begins with the first part |
| Text.JoinAppend | experiment/utils.py:31 | appending a part adds exactly one separator, or none to an empty list |
| Text.JoinAvoids | experiment/utils.py:31 | a character in neither the separator nor any part is not in the joined text |
| Text.StripNewlines | experiment/main.py:120 | the result has no newline, equals the input when the input had none, and keeps every other character with its multiplicity |
| Text.StripNewlinesConcat | experiment/main.py:120 | stripping distributes over concatenation, so the other characters keep their order |
| Text.StripNewlinesIdempotent | experiment/main.py:120 | stripping twice is stripping once |
| Text.Lower | experiment/main.py:127 | lower-casing keeps the length and folds each character on its own |
| Text.LowerIdempotent | experiment/main.py:127 | lower-casing twice is lower-casing once |
| Text.SameIgnoringCaseIff | experiment/main.py:127 | two texts compare equal ignoring case exactly when they have the same length and agree letter by letter after folding |
| Text.SameIgnoringCase | experiment/main.py:127 | defines the case-insensitive comparison `response.lower() == query_gold.lower()`; `Text.SameIgnoringCaseIff` states what it means |
| Schema.ListRepr | experiment/utils.py:25-26 | defines `str()` of a list of names: each name between single quotes, joined by `, `, inside brackets |
| Schema.KeyStr | experiment/utils.py:25-26 | defines how the f-string formats a key value: a list through `Schema.ListRepr`, a plain name as itself, an absent key as `None` |
| Schema.PrimaryKeyText | experiment/utils.py:22-25 | an empty list renders as `[]`, a one-name list as `['name']`, a plain name as itself |
| Schema.PrimaryKeyTwoNames | experiment/utils.py:22-26 | a two-column key renders as `PRIMARY KEY (a, b)` |
| Schema.PrimaryKeyClause | experiment/utils.py:22-26 | defines the key clause: `PRIMARY KEY (` around the rendered key; its properties are `Schema.PrimaryKeyText`, `Schema.PrimaryKeyTwoNames` and `Schema.PrimaryKeyClauseNewlineFree` |
| Schema.ColumnDescriptionAt | experiment/utils.py:18 | defines column `i`'s description: its entry in a truthy description list, otherwise `""` |
| Schema.ColumnDefinition | experiment/utils.py:17-20 | defines column `i`'s definition as its name, type `TEXT` and its description, or an empty description when the table has none |
| Schema.Definitions | experiment/utils.py:16-26 | defines the column definitions in column order followed by the key clause; `Schema.DefinitionsNewlineFree` states its property |
| Schema.CreateTable | experiment/utils.py:28-31 | defines one table's statement from its name and its definitions joined by `, `; `Schema.CreateTableNewlineFree` and `Schema.CreateTableIgnoresKeysAndValues` state its properties |
| Schema.TablesOf | experiment/utils.py:12-13 | the kept tables are tables of the input that belong to the database, never more than the input |
| Schema.TablesOfMembers | experiment/utils.py:12-13 | a table is kept exactly when it is in the input and belongs to the database |
| Schema.TablesOfAppend | experiment/utils.py:12-13 | the filter keeps input order |
| Schema.Statements | experiment/utils.py:12-32 | defines the statements of the database's tables, in input order; `Schema.StatementsAt` and `Schema.StatementsAppend` state its properties |
| Schema.SchemaText | experiment/utils.py:9-34 | defines the schema text as the statements joined by newlines; `Schema.SchemaLines` and `Schema.SchemaTextEmpty` state its properties |
| Schema.GenerateSqlSchema | experiment/utils.py:9-34 | the loops return `SchemaText`: the `CREATE TABLE` statements of the database's tables, in input order, joined by newlines |
| Schema.StatementsAt | experiment/utils.py:12-32 | there is one statement per table of the database, and statement `k` is the `CREATE TABLE` of its `k`-th table |
| Schema.StatementsAppend | experiment/utils.py:12-32 | the statements of a concatenation are those of each side, in order |
| Schema.StatementsOwnTables | experiment/utils.py:12-32 | the statements of a database do not depend on the tables of other databases |
| Schema.SchemaTextOwnTables | experiment/utils.py:9-34 | the schema text of a database is the same with or without other databases' tables in the list |
| Schema.SchemaTextEmpty | experiment/utils.py:9-34 | the schema text is empty exactly when the database has no table |
| Schema.PrimaryKeyClauseNewlineFree | experiment/utils.py:22-26 | key names without line breaks give a primary key clause without line breaks |
| Schema.DefinitionsNewlineFree | experiment/utils.py:15-26 | newline-free names and descriptions give newline-free column and key definitions |
| Schema.CreateTableNewlineFree | experiment/utils.py:31 | a table whose names and descriptions have no line break renders as a one-line statement |
| Schema.SchemaLines | experiment/utils.py:9-34 | when nothing contains a line break and the database has a table, the schema text has exactly one line per table, and line `k` is the `k`-th statement |
| Schema.CreateTableIgnoresKeysAndValues | experiment/utils.py:14-31 | the statement does not depend on the foreign key or on the value descriptions |
| Schema.BuildQ2SqlModel | experiment/utils.py:37-51 | one `SqlInfo` per record, in order, with its question, gold query, evidence, difficulty and database id, no predicted query, and its database's schema text |
| Loader.PyIndex | experiment/utils.py:75 | indexing succeeds exactly for `-n <= i < n`, and a negative index counts from the end |
| Loader.ColumnsOf | experiment/utils.py:70 | table `t`'s columns are never more than the entries of `column_names_original`; `Loader.ColumnsOfMembers` and `Loader.ColumnsOfAppend` state what they are |
| Loader.ColumnsOfMembers | experiment/utils.py:70 | a name is a column of table `t` exactly when some `(t, name)` entry exists |
| Loader.ColumnsOfAppend | experiment/utils.py:70 | a table's columns keep the order of `column_names_original` |
| Loader.OwnedName | experiment/utils.py:74-76 | defines one index's contribution: its column name when table `t` owns it, nothing otherwise, `IndexError` out of range |
| Loader.GroupNames | experiment/utils.py:77-80 | resolving a group can only fail with `IndexError`; `Loader.GroupNamesSucceeds`, `Loader.GroupNamesOwned` and `Loader.GroupNamesMembers` state the rest |
| Loader.EntryNames | experiment/utils.py:73-80 | resolving one entry can only fail with `IndexError` |
| Loader.PrimaryKeyNames | experiment/utils.py:72-80 | resolving the primary keys can only fail with `IndexError`; `Loader.PrimaryKeyNamesSucceeds`, `Loader.PrimaryKeyNamesMembers` and `Loader.PrimaryKeyNamesAppend` state the rest |
| Loader.PrimaryKeyNamesSucceeds | experiment/utils.py:72-80 | resolving the primary keys fails exactly when some index, single or grouped, is out of range |
| Loader.GroupNamesSucceeds | experiment/utils.py:78-80 | resolving a group fails exactly when one of its indices is out of range |
| Loader.PrimaryKeysOwned | experiment/utils.py:72-80 | every primary key name of table `t` is one of table `t`'s columns |
| Loader.GroupNamesOwned | experiment/utils.py:78-80 | every name a group adds for table `t` is one of table `t`'s columns |
| Loader.GroupNamesMembers | experiment/utils.py:77-80 | a group adds `x` for table `t` exactly when one of its indices points at column `(t, x)` |
| Loader.EntryNamesMembers | experiment/utils.py:73-80 | one `primary_keys` entry adds `x` for table `t` exactly when it lists an index, on its own or in its group, that points at column `(t, x)` |
| Loader.PrimaryKeyNamesMembers | experiment/utils.py:72-80 | a name is a primary key name of table `t` exactly when some entry of `primary_keys`, single or grouped, lists an index that points at column `(t, x)` |
| Loader.PrimaryKeyNamesAppend | experiment/utils.py:72-80 | primary key entries contribute their names in the order of `primary_keys`, and the first failure wins |
| Loader.CollectGroup | experiment/utils.py:78-80 | the inner loop returns the group's names for table `t`, or `IndexError` |
| Loader.CollectPrimaryKeys | experiment/utils.py:72-80 | the loop returns the names of `PrimaryKeyNames`, or its `IndexError` |
| Loader.PairNamesSpec | experiment/utils.py:83-85 | one foreign-key pair resolves exactly when its indices are in range, to one name per index |
| Loader.ColumnName | experiment/utils.py:85 | defines `column_names_db[i][1]` for any owner, or `IndexError` out of range |
| Loader.PairNames | experiment/utils.py:84-85 | resolving one foreign-key pair can only fail with `IndexError` |
| Loader.ForeignKeyRefs | experiment/utils.py:82-85 | resolving the foreign keys can only fail with `IndexError`; `Loader.ForeignKeyRefsSucceeds` and `Loader.ForeignKeyRefsMembers` state the rest |
| Loader.ForeignKeyRefsSucceeds | experiment/utils.py:82-85 | resolving the foreign keys fails exactly when some referenced index is out of range |
| Loader.ForeignKeyRefsMembers | experiment/utils.py:82-85 | a name is a foreign key name exactly when some pair references a column of that name, whatever table owns it |
| Loader.CollectForeignKeys | experiment/utils.py:82-85 | the loop fails exactly when `ForeignKeyRefs` fails, with `IndexError`, and otherwise returns the set of its names |
| Loader.ListOfSet | experiment/utils.py:95 | `list(set)` holds every element once and nothing else |
| Loader.SameForeignKeys | experiment/utils.py:82-95 | all tables of one database carry the same foreign key names |
| Loader.TableError | experiment/utils.py:69-101 | defines the exception loading table `t` raises, in the order the code meets them: primary key index, foreign key index, `table_names_original` index, column description length |
| Loader.LoadedTable | experiment/utils.py:69-101 | defines a loaded table: canonical name, owned columns, `Names` of the primary key names, `Names` of the distinct foreign key names, the entry's `DbInfo`, the column descriptions, no value descriptions |
| Loader.LoadTable | experiment/utils.py:69-101 | loading table `t` fails exactly when `TableError` names an exception, and with that one; otherwise the table is `LoadedTable` and `Valid` |
| Loader.FirstTableError | experiment/utils.py:69-101 | defines the exception the table loop raises over its first `n` tables: the first `TableError`, or none |
| Loader.EntryError | experiment/utils.py:69-101 | defines the exception one entry raises: `FirstTableError` over all its `table_names` |
| Loader.LoadError | experiment/utils.py:58-103 | defines the exception the whole load raises: the first entry's `EntryError` that is not none |
| Loader.FirstTableErrorSome | experiment/utils.py:69-101 | an entry fails exactly when one of its tables fails |
| Loader.FirstTableErrorStable | experiment/utils.py:69-101 | once a table has failed, later tables do not change the exception raised |
| Loader.LoadErrorStable | experiment/utils.py:58-103 | once an entry has failed, later entries do not change the exception raised |
| Loader.LoadFailsAt | experiment/utils.py:58-103 | when the first failing entry is entry `i`, the whole load raises entry `i`'s exception |
| Loader.BadForeignKeyFails | experiment/utils.py:82-85 | one out-of-range foreign key index fails the whole database as soon as it has a table; it is not skipped |
| Loader.LoadEntry | experiment/utils.py:69-101 | the table loop of one entry fails exactly when `EntryError` names an exception, and with that one; otherwise it yields one loaded table per `table_names` entry, all `Valid` |
| Loader.DbInfos | experiment/utils.py:59-60 | one `DbInfo` per entry, carrying that entry's id |
| Loader.LoadedEntry | experiment/utils.py:69-101 | defines one entry's output: one table per `table_names` entry, table `t` being `LoadedTable` for `t` |
| Loader.LoadedAll | experiment/utils.py:56-103 | defines the loader's table list: the concatenation, entry by entry, of each entry's `LoadedEntry` tables |
| Loader.TableCount | experiment/utils.py:69 | defines the total number of `table_names` entries over the given entries; `Loader.LoadedAllCount` ties it to the output length |
| Loader.LoadedAllCount | experiment/utils.py:58-103 | the loader yields as many tables as all entries' `table_names` together |
| Loader.LoadedTableAt | experiment/utils.py:58-103 | table `t` of entry `i` is loaded at position `TableCount(entries[..i]) + t` of the output |
| Loader.CreateModelsFromJson | experiment/utils.py:54-103 | the load fails exactly when `LoadError` names an exception, and with that one; otherwise it gives one `DbInfo` per entry and the concatenation of every entry's loaded tables, all `Valid` |
| Experiment.DbPath | experiment/main.py:117-119 | defines the database file path from the data root and the database id |
| Experiment.IsQueryRunnable | experiment/utils.py:126-144 | defines runnability: the engine does not fail on the query |
| Experiment.ExecuteQuery | experiment/utils.py:147-162 | defines the query's first row, or `None` both when there is no row and when the engine fails |
| Experiment.ExecutionMatch | experiment/main.py:130-133 | defines the execution check: the prediction runs and both queries give the same `ExecuteQuery` value; `Experiment.ExecutionMatchIff` states what it means |
| Experiment.ExecutionMatchIff | experiment/main.py:130-133 | the execution check passes exactly when the prediction runs and either both queries have the same outcome, or the prediction has no row while the gold query raises |
| Experiment.Prediction | experiment/main.py:109-120 | the scored answer has no newline |
| Experiment.Truncate | experiment/main.py:93-94 | `s[:n]` is a prefix of `s` of length `min(n, len)` for `n >= 0`, and `max(len + n, 0)` for `n < 0` |
| Experiment.WithDifficulty | experiment/main.py:95-98 | the filter never yields more examples than it is given; `Experiment.WithDifficultyMembers` and `Experiment.WithDifficultyAppend` state the rest |
| Experiment.WithDifficultyMembers | experiment/main.py:95-98 | an example survives the filter exactly when it has the requested difficulty |
| Experiment.WithDifficultyAppend | experiment/main.py:95-98 | the filter keeps input order |
| Experiment.Selected | experiment/main.py:93-98 | defines the selection: the first `debug_num` when it is truthy, then the difficulty filter when it is truthy; `Experiment.SelectedMembers` states what it keeps |
| Experiment.SelectedMembers | experiment/main.py:93-98 | with both options set, an example is selected exactly when it is among the first `n` and has the difficulty, so truncation counts every difficulty |
| Experiment.ExecutionHits | experiment/main.py:130-135 | the execution hits never exceed the number of examples |
| Experiment.TextHits | experiment/main.py:127-128 | the text hits never exceed the number of examples |
| Experiment.LogRows | experiment/main.py:141-157 | defines the two logged rows of one example: the prediction with `Correct` or `Incorrect`, then the gold query |
| Experiment.LogTable | experiment/main.py:139-157 | defines the rows logged for a run: `LogRows` of the examples at positions 0, 10, 20, ...; `Experiment.LogTableSize` states its length |
| Experiment.LogTableSize | experiment/main.py:139-157 | scoring `n` examples logs `ceil(n / 10)` of them, two rows each |
| Experiment.ScoresStep | experiment/main.py:122-123 | scoring one more example extends each running total and the log by that example alone |
| Experiment.Q2SqlExperiment.Valid | experiment/main.py:125-137 | defines the counter invariant: `tp` and `ls_tp` never exceed `total_queries`; the constructor establishes it, and `EvaluateResponse`, `ScoreAll` and `RunInference` keep it |
| Experiment.Q2SqlExperiment.constructor | experiment/main.py:40-48 | a new experiment has the given examples, an empty log and zero counters |
| Experiment.Q2SqlExperiment.EvaluateResponse | experiment/main.py:125-137 | one more example is counted; `lsTp` grows when the text matches ignoring case, `tp` when execution matches; the result is the execution verdict; neither counter passes the total |
| Experiment.Q2SqlExperiment.LogResults | experiment/main.py:139-157 | examples at positions 0, 10, 20, ... append their two rows (prediction with its verdict, then the gold query); others leave the log alone |
| Experiment.Q2SqlExperiment.ScoreAll | experiment/main.py:99-123 | after the loop, every example has been counted once, `tp` and `lsTp` grew by `ExecutionHits` and `TextHits`, and the log grew by `LogTable` |
| Experiment.Q2SqlExperiment.RunInference | experiment/main.py:92-123 | the examples become the selection (first `debug_num`, then the difficulty), and scoring them leaves the counters and the log as `ScoreAll` states |

## Left out

- The language model call (prompt templates, HTTP client, model parameters) is the `Model` oracle. The model is a pure function, so the same example always gets the same answer.
- Experiment.Engine: the oracle is stateless, a function of the database path and the query text only. Statements that change the database file are not modelled. These include DDL such as `DROP TABLE`, which Python's `sqlite3` commits at once. The effect of the order of the three calls per example is not modelled either: `is_query_runnable` and `execute_query` on the prediction, then `execute_query` on the gold query. A prediction that drops a table therefore changes the outcome of the gold query and of every later example on that database in the source, but not in the model.
- The SQLite engine behind `is_query_runnable` and `execute_query` is the `Engine` oracle. The model does not cover opening the file, connections that leak when a query raises, or values other than integers, text and NULL.
- `get_cols_descr` is the `Describer` oracle. The model does not cover reading the CSV file, the Latin-1 fallback, `astype(str)`, or a missing file.
- Weights & Biases logging is left out: `init_wandb`, `wandb.log` and the two accuracies as floats. The model keeps the counters they are computed from.
- `Experiment.Q2SqlExperiment.LogResults` requires `totalQueries > 0` when it logs, because the source divides by it. `RunInference` always meets this.
- The command-line arguments, the YAML configuration, `load_data`, `load_prompts`, `initialize_model` and the `__main__` block are left out. They read files and build clients.
- `int(debug_num)` on the raw configuration value is left out: the model takes `debugNum` as an already converted optional integer.
- `Loader.ListOfSet` states that the foreign-key list holds each name once and nothing else. It does not fix the order, because the order of `list(set)` is not defined.
- `Text.Lower` folds ASCII letters only. Python's full Unicode case mapping is not modelled.
- `Schema.ListRepr` writes each name between single quotes. Python's `repr` escaping of names that contain quotes or backslashes is not modelled.
- The loader takes typed records, so a missing key (`KeyError`), a wrongly typed JSON value, and `entry.pop` removing keys from the caller's dictionaries are not modelled.
- `TableInfo` is built with the keyword `value_descriptions`, which is not a field, so it is dropped. Loaded tables therefore have no value descriptions, and the value-description check never fires during loading.
- The inference service and `experiment/check.py` are not part of this model.

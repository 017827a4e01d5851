# PrimeQA core in Dafny

A model of four pieces of PrimeQA's question-answering plumbing, and proofs of
what they promise:

- **ColBERT retriever pipeline** (`DenseRetrieverPipeline`). A `ColBERTRetriever`
  class holds the registry of tunable parameters (id → record with
  `parameter_id`, `name`, `type`, `value`, optional `options`/`range`) and the
  ColBERT configuration snapshot. The getters, the two setters and `serialize`
  are modelled. So is `retrieve`, which sets the index path, builds the
  positional query map, passes the live `max_num_documents` to the searcher
  as its cap and reduces every raw result tuple to `(first, last)`. The
  searcher is a function parameter.
- **QA pipeline** (`QaPipeline`). The passage collection is read from
  tab-separated lines, keeping the text field of each. `run` resolves every
  retrieved document id to its passage and hands the questions plus contexts to
  the reader. Retriever and reader are function-valued fields of the
  `QAPipeline` class.
- **Seq2seq MRC trainer** (`Seq2SeqMrcTrainer`). `evaluate` and `predict`
  switch `compute_metrics` off around the inherited inference loop. `evaluate`
  restores it afterwards; `predict` leaves it off. Both handle the optional
  post-processing and metric functions. `evaluate` also runs the in-place loop
  that prefixes metric keys with `<prefix>_`. The inference loop,
  post-processing and metric functions are parameters, and the loop may fail.
- **WikiSQL preprocessing** (`WikiSqlPreprocessor`). `preprocess_table`
  transposes a table into a column map. `preprocess_wikisql` applies the
  keep/skip rule per example and writes a TSV with position-based question
  ids. `_execute_sql` and `parse_question` are function parameters.

Python exceptions are values: `Result.Failure` with a `PyError`
(`KeyError`, `IndexError`, `ValueError`). They are not preconditions. Python
values are the `Python.Value` datatype, and floats are carried opaquely as
their literal text. Each loop of the source is a Dafny loop proved against a
declarative function:
- `ColumnMapOf` for the column map, with its keys in insertion order;
- `Prefixed` for the metric-key loop;
- `ResolveContexts` for `run`;
- `Preprocessed` for the whole WikiSQL run.

The lemmas state the promised properties of those functions.

Three behaviours of the source that a reader might not expect:
- A document id in `run` is used as a Python list index, so a negative id
  counts from the end of the collection. Only ids outside `[-n, n)` raise
  `IndexError`.
- `set_parameter` inserts an unknown id.
- `set_parameter_value` stores any value without checking it against the
  declared type, options or range.

## Model

| member | source | states |
|---|---|---|
| DenseRetrieverPipeline.DefaultRegistry | primeqa/pipelines/dense_retriever_pipeline.py:29-133 | the construction table: every key is the `parameter_id` of its record, and `max_num_documents` and `min_score_threshold` are registered |
| DenseRetrieverPipeline.DefaultsInDomain | primeqa/pipelines/dense_retriever_pipeline.py:29-133 | every default has its declared type, is one of its `options`, and an integer default with a range lies in `[min, max]` on the step grid from `min` |
| DenseRetrieverPipeline.ConfigSnapshot | primeqa/pipelines/dense_retriever_pipeline.py:136-146 | the configuration holds exactly the registry ids other than `max_num_documents` and `min_score_threshold`, each with its value |
| DenseRetrieverPipeline.QueryBatch | primeqa/pipelines/dense_retriever_pipeline.py:182 | the query map has exactly the keys `0..n-1`, with the i-th input text at key i |
| DenseRetrieverPipeline.ReshapeQuery | primeqa/pipelines/dense_retriever_pipeline.py:186 | succeeds iff no result tuple is empty (IndexError otherwise); one pair per tuple, `(t[0], t[-1])` |
| DenseRetrieverPipeline.Reshape | primeqa/pipelines/dense_retriever_pipeline.py:185-188 | one reshaped list per entry of the searcher's data, in order; IndexError iff some entry holds an empty tuple |
| DenseRetrieverPipeline.Values | primeqa/pipelines/dense_retriever_pipeline.py:172-175 | the id → value projection has exactly the registry's ids as keys |
| DenseRetrieverPipeline.ValuesUpdate | primeqa/pipelines/dense_retriever_pipeline.py:155 | storing a record changes the id → value projection at that id only |
| DenseRetrieverPipeline.WellKeyedRecordCount | primeqa/pipelines/dense_retriever_pipeline.py:151-152 | a well-keyed registry has as many records as ids |
| DenseRetrieverPipeline.ColBERTRetriever.constructor | primeqa/pipelines/dense_retriever_pipeline.py:14-146 | pipeline id `"ColBERTRetriever"` and the fixed name, description and type; registry is the default table; configuration is its snapshot; class invariant holds |
| DenseRetrieverPipeline.ColBERTRetriever.GetParameters | primeqa/pipelines/dense_retriever_pipeline.py:151-152 | a one-element list whose element holds exactly the registered records, as many as there are ids |
| DenseRetrieverPipeline.ColBERTRetriever.GetParameter | primeqa/pipelines/dense_retriever_pipeline.py:157-158 | the record of a registered id, carrying that id; KeyError(id) exactly when the id is unknown |
| DenseRetrieverPipeline.ColBERTRetriever.GetParameterType | primeqa/pipelines/dense_retriever_pipeline.py:160-161 | the `type` of the record `get_parameter` returns; KeyError(id) for an unknown id |
| DenseRetrieverPipeline.ColBERTRetriever.GetParameterValue | primeqa/pipelines/dense_retriever_pipeline.py:166-167 | the `value` of the record `get_parameter` returns; KeyError(id) for an unknown id |
| DenseRetrieverPipeline.ColBERTRetriever.SetParameter | primeqa/pipelines/dense_retriever_pipeline.py:154-155 | afterwards `get_parameter(p.id) == p`, an absent id is inserted, every other record is unchanged, the serialized values change at that id only, the configuration is untouched and the invariant is kept |
| DenseRetrieverPipeline.ColBERTRetriever.SetParameterValue | primeqa/pipelines/dense_retriever_pipeline.py:163-164 | KeyError and no change for an unknown id; otherwise the new value is stored, and name, type, options and range of that record are kept; other records, the configuration and the other serialized values are unchanged |
| DenseRetrieverPipeline.ColBERTRetriever.Serialize | primeqa/pipelines/dense_retriever_pipeline.py:169-176 | pipeline id `"ColBERTRetriever"`; one entry per registered id holding that record's current value, agreeing with `get_parameter_value` |
| DenseRetrieverPipeline.ColBERTRetriever.Retrieve | primeqa/pipelines/dense_retriever_pipeline.py:178-188 | without `index_path` a KeyError and no change; otherwise the configuration gains exactly `index_path`, the searcher gets it, the positional query map and the live `max_num_documents` value, and its data is reshaped; the invariant is kept |
| Python.ToStr | primeqa/tableqa/preprocessors/wikisql_preprocessor.py:21 | `str()` of a value: a string is itself; an int gives a minus sign exactly when negative, followed by digits that read back to its magnitude |
| Python.NatToString | primeqa/tableqa/preprocessors/wikisql_preprocessor.py:16 | `str(n)` of a natural number is a non-empty string of decimal digits |
| Python.ParseNatToString | primeqa/tableqa/preprocessors/wikisql_preprocessor.py:16 | reading the decimal text of `n` back gives `n` |
| Python.NatToStringInjective | primeqa/tableqa/preprocessors/wikisql_preprocessor.py:16 | two numbers have the same decimal text iff they are equal |
| QaPipeline.Split | primeqa/pipelines/qa_pipeline.py:13 | `split` yields at least one field, and no field contains the separator |
| QaPipeline.JoinSplit | primeqa/pipelines/qa_pipeline.py:13 | joining the fields of a line with the separator gives the line back |
| QaPipeline.SplitJoin | primeqa/pipelines/qa_pipeline.py:13 | splitting a join of separator-free fields gives the fields back |
| QaPipeline.SplitCount | primeqa/pipelines/qa_pipeline.py:13 | a line has one more field than it has separators, so three fields means exactly two tabs |
| QaPipeline.ReadCollection | primeqa/pipelines/qa_pipeline.py:10-14 | succeeds iff every line has exactly three tab-separated fields (ValueError otherwise); one passage per line, in line order, each the line's second field |
| QaPipeline.QAPipeline.Create | primeqa/pipelines/qa_pipeline.py:7-14 | construction keeps retriever and reader and fails with ValueError iff some line lacks exactly three fields; otherwise `corpus_passages[i]` is the text field of line i |
| QaPipeline.PassageAt | primeqa/pipelines/qa_pipeline.py:20 | Python list indexing: succeeds iff `-n <= id < n` (IndexError otherwise), giving the passage at `id mod n` |
| QaPipeline.ResolveContext | primeqa/pipelines/qa_pipeline.py:20 | succeeds iff every id indexes the collection Python-style (IndexError otherwise); one passage per result, each the one its id selects |
| QaPipeline.ResolveContexts | primeqa/pipelines/qa_pipeline.py:18-21 | one context list per retrieved list, in order; IndexError iff some list holds an id outside the collection |
| QaPipeline.QAPipeline.Run | primeqa/pipelines/qa_pipeline.py:16-24 | the retriever is asked once; on IndexError that error, otherwise the reader's answer for the unchanged questions and the resolved contexts; `corpus_passages` is not modified |
| QaPipeline.RunContextsShape | primeqa/pipelines/qa_pipeline.py:18-21 | with in-range ids, `|contexts| == |search_results|`, each `contexts[i]` as long as `search_results[i]`, and `contexts[i][j]` the passage at id `search_results[i][j][0]` |
| Seq2SeqMrcTrainer.HasMetricPrefix | primeqa/mrc/trainers/seq2seq_mrc.py:89 | a key carries the prefix iff it is longer than the prefix, starts with it, and has `_` right after it |
| Seq2SeqMrcTrainer.Prefixed | primeqa/mrc/trainers/seq2seq_mrc.py:88-90 | the metrics the prefix loop leaves behind; every key that already carried the prefix is still there |
| Seq2SeqMrcTrainer.MetricKey | primeqa/mrc/trainers/seq2seq_mrc.py:90 | `prefix_key` carries the prefix, and cutting the prefix off gives the key back |
| Seq2SeqMrcTrainer.PrefixMetricKeys | primeqa/mrc/trainers/seq2seq_mrc.py:88-90 | the loop, visiting keys in any order, leaves exactly the metrics that `Prefixed` describes |
| Seq2SeqMrcTrainer.PrefixedSpec | primeqa/mrc/trainers/seq2seq_mrc.py:88-90 | an unprefixed key is removed and its value sits under `prefix_key`, winning a clash with an existing prefixed key; a prefixed key stays, with its value unless such a clash overrides it; no other key appears |
| Seq2SeqMrcTrainer.PrefixedKeysHavePrefix | primeqa/mrc/trainers/seq2seq_mrc.py:88-90 | every key left by the loop starts with `prefix_` |
| Seq2SeqMrcTrainer.PrefixedLeavesPrefixedAlone | primeqa/mrc/trainers/seq2seq_mrc.py:88-90 | metrics whose keys all carry the prefix pass through unchanged |
| Seq2SeqMrcTrainer.PrefixedIdempotent | primeqa/mrc/trainers/seq2seq_mrc.py:88-90 | running the prefix loop on its own output changes nothing |
| Seq2SeqMrcTrainer.MRCSeq2SeqTrainer.constructor | primeqa/mrc/trainers/seq2seq_mrc.py:42-45 | the trainer keeps its arguments, evaluation examples and post-processing function |
| Seq2SeqMrcTrainer.MRCSeq2SeqTrainer.Evaluate | primeqa/mrc/trainers/seq2seq_mrc.py:47-100 | `compute_metrics` is off while the loop runs and restored after, even if the loop fails; `prediction_loss_only` is True iff no metric function was set; max length and beams come from the arguments or the generation defaults; a loop failure propagates; with both functions set, the prefixed metrics are returned, otherwise `{}` |
| Seq2SeqMrcTrainer.MRCSeq2SeqTrainer.Predict | primeqa/mrc/trainers/seq2seq_mrc.py:102-134 | `compute_metrics` ends up cleared; the loop runs as "Prediction" with `prediction_loss_only=False`; max length and beams as in `evaluate`; a loop failure propagates; the post-processed predictions, or `{}` without a post-processing function |
| WikiSqlPreprocessor.LastIndexOf | primeqa/tableqa/preprocessors/wikisql_preprocessor.py:48-49 | the position of the last column with a given name |
| WikiSqlPreprocessor.TableData | primeqa/tableqa/preprocessors/wikisql_preprocessor.py:47-49 | the columns of the dict: its keys are exactly the header names, and every column is as long as the table has rows |
| WikiSqlPreprocessor.TableDataSpec | primeqa/tableqa/preprocessors/wikisql_preprocessor.py:47-49 | a name at position i with no later duplicate maps to `[r[i] for r in rows]` |
| WikiSqlPreprocessor.FirstOccurrencesSpec | primeqa/tableqa/preprocessors/wikisql_preprocessor.py:47-49 | the dict's key order lists every header name once and nothing else, and a name keeps its place once inserted: the key order of a header prefix is a prefix of the whole order |
| WikiSqlPreprocessor.KeyOrderSnoc | primeqa/tableqa/preprocessors/wikisql_preprocessor.py:49 | an assignment appends a name to the key order exactly when the dict does not hold it yet |
| WikiSqlPreprocessor.ColumnMapOf | primeqa/tableqa/preprocessors/wikisql_preprocessor.py:47-49 | the dict `table_data` without the loop: its key order lists each key of the dict exactly once |
| WikiSqlPreprocessor.ColumnMapSnoc | primeqa/tableqa/preprocessors/wikisql_preprocessor.py:48-49 | one loop step on the whole dict: a new name is appended to the key order, and the name's entry becomes the newest column |
| WikiSqlPreprocessor.TableDataSnoc | primeqa/tableqa/preprocessors/wikisql_preprocessor.py:48-49 | each loop step overwrites the entry of the newest header name with its column, so on duplicate names the last column wins |
| WikiSqlPreprocessor.PreprocessTable | primeqa/tableqa/preprocessors/wikisql_preprocessor.py:42-50 | IndexError iff some row is shorter than the header; otherwise the table id unchanged, the dict with its keys in first-occurrence order and each holding its last column, and `min_tokens == len(header) * len(rows)` |
| WikiSqlPreprocessor.QuestionId | primeqa/tableqa/preprocessors/wikisql_preprocessor.py:16 | the id is `wikisql_` followed by the decimal text of the position |
| WikiSqlPreprocessor.MissingCoordinates | primeqa/tableqa/preprocessors/wikisql_preprocessor.py:32 | coordinates count as missing iff they are absent, an empty string or an empty list |
| WikiSqlPreprocessor.Decide | primeqa/tableqa/preprocessors/wikisql_preprocessor.py:20-37 | the keep/skip rule for one example: IndexError iff the table returned by the SQL execution has a row shorter than its header; a kept example's row is a data row with the id of its position |
| WikiSqlPreprocessor.Preprocessed | primeqa/tableqa/preprocessors/wikisql_preprocessor.py:11-37 | the whole run as a fold: a failure is an IndexError; on success the TSV is `<split>.tsv` under the data directory, starts with the header row, has at most one data row per example, and writes at least one table file per data row and at most one per example |
| WikiSqlPreprocessor.AnswerText | primeqa/tableqa/preprocessors/wikisql_preprocessor.py:21 | one string per answer, the i-th being `str()` of the i-th answer |
| WikiSqlPreprocessor.EmitsExactly | primeqa/tableqa/preprocessors/wikisql_preprocessor.py:20-37 | an example produces a row iff its table transposes, its answer is not `['']`, it has at most 150 cells and answer coordinates are found; the row then carries id `wikisql_<position>`, the question, the table file and the stringified answer |
| WikiSqlPreprocessor.EmittedPositionsSpec | primeqa/tableqa/preprocessors/wikisql_preprocessor.py:14-37 | the emitted positions are strictly increasing and are exactly the examples that produce a row |
| WikiSqlPreprocessor.PreprocessedRows | primeqa/tableqa/preprocessors/wikisql_preprocessor.py:13-37 | a successful run writes the header row once, first, then one data row per emitted position in dataset order, with id `wikisql_<position>` |
| WikiSqlPreprocessor.DistinctQuestionIds | primeqa/tableqa/preprocessors/wikisql_preprocessor.py:14-37 | no two data rows share an id |
| WikiSqlPreprocessor.PreprocessedFailsFrom | primeqa/tableqa/preprocessors/wikisql_preprocessor.py:20-22 | once an example raises, the whole run raises that error |
| WikiSqlPreprocessor.PreprocessWikiSql | primeqa/tableqa/preprocessors/wikisql_preprocessor.py:10-39 | the loop with its `continue`s produces exactly the TSV path, rows and table files of the example-by-example fold, or its first exception |

## Left out

- Logging: the `logger` argument, `self._logger`, `self.log`, every `print`
  and the TPU/XLA metrics report are not modelled.
- The no-op `ColBERTRetriever.load` is not modelled.
- `ColBERTConfig`, `SearcherFactory.get` and `search_all` are foreign code.
  The configuration is the map of keyword values it was built from, plus
  `index_path`. The searcher is an uninterpreted function. Nothing is assumed
  about how many results it returns or in what order.
- DenseRetrieverPipeline.ColBERTRetriever.Retrieve: `SearcherFactory.get` and
  `search_all` are total functions in the model. Their own exceptions are not
  modelled, so the only errors `Retrieve` returns are the missing
  `index_path` and an empty result tuple.
- Floats (`centroid_score_threshold`, `min_score_threshold`, scores) are
  opaque literals. `DefaultsInDomain` checks ranges for integer values only.
- DenseRetrieverPipeline.ColBERTRetriever.GetParameters: the dict view
  `parameters.values()` becomes a set of records. Its iteration order and its
  aliasing of the stored dicts are not modelled.
- DenseRetrieverPipeline.ColBERTRetriever.SetParameter: a record whose own
  `parameter_id` is missing would raise KeyError in the source. Records always
  carry an id in the model.
- DenseRetrieverPipeline.ColBERTRetriever.SetParameter: records are values.
  The source stores the caller's dict itself, so a caller that later mutates
  that dict changes the registry. If the mutation changes `"parameter_id"`,
  the registry key and the record's id disagree. The model's invariant that
  every key is its record's id therefore holds in the source only while
  callers leave stored records alone. Records with missing or extra fields,
  which make `serialize`, `get_parameter_type` or `retrieve` raise KeyError,
  are not modelled.
- DenseRetrieverPipeline.ColBERTRetriever.GetParameter: the source returns
  the live stored dict, so changes a caller makes to it reach the registry.
  The model returns a copy of the record.
- DenseRetrieverPipeline.ColBERTRetriever.SetParameterValue: the source
  mutates the stored dict in place, and the change is seen through every
  reference to that dict. The model replaces the record in the map. Aliasing
  between records is not modelled.
- QaPipeline.QAPipeline.Create: opening the collection file and `tqdm` are not
  modelled. The file is given as its lines. The trailing newline stays in the
  ignored title field.
- QaPipeline.ResolveContext: `int(p[0])` is not modelled. Document ids are
  already integers, so a non-numeric id's ValueError is not covered.
- The retriever and the reader of `QAPipeline` are total functions. Their own
  exceptions are not modelled.
- Seq2SeqMrcTrainer.MRCSeq2SeqTrainer.Evaluate: dataloader construction, the
  `json.dump` files of predictions and references, `on_evaluate` callbacks
  and `self.control` are not modelled.
- Post-processing and `compute_metrics` are total functions in the model.
  Their exceptions are not modelled.
- Seq2SeqMrcTrainer.MRCSeq2SeqTrainer.Predict: the unused `metric_key_prefix`
  argument is omitted.
- The inheritance from `Seq2SeqTrainer` is not modelled. The evaluation and
  prediction loops are a function parameter that returns a loop output or an
  exception.
- WikiSqlPreprocessor.PreprocessWikiSql: pandas, the `csv` writer and the
  file handles are not modelled. The TSV is its list of rows. Each table CSV
  is only its path, and its contents are not modelled. The DataFrame handed to
  `parse_question` is the column map: its keys in insertion order with their
  columns. The DataFrame's index and cell dtypes are not modelled.
- WikiSqlPreprocessor.Preprocessed: `_execute_sql` and `parse_question` are
  total functions in the model. Their own exceptions are not modelled, so the
  only error a run can end with is the IndexError of `preprocess_table`.
- When an example raises, the model returns the exception. The rows the
  source had already written to the open file are not returned.
- `get_answer` is a direct call of `_execute_sql`. The `__main__` block,
  `load_dataset` and `TableQADataset` are not part of this model.

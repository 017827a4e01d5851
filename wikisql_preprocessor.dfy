/** WikiSQL preprocessing for table QA: a table is turned from header plus
    rows into one column per header name, and the dataset is filtered into TSV
    rows with position-based question ids. Executing the SQL and locating the
    answer cells are collaborators outside the model, passed in as functions. */
module WikiSqlPreprocessor {
  import opened Wrappers
  import opened Python

  /** A WikiSQL table: its id, column names and row-major cells. */
  datatype Table = Table(id: string, header: seq<string>, rows: seq<seq<string>>)

  /** The dict `table_data`: its keys in insertion order, and the column under
      each key. The order becomes the column order of the DataFrame built from it. */
  datatype ColumnMap = ColumnMap(order: seq<string>, columns: map<string, seq<string>>)

  /** What `preprocess_table` returns: the table id, the column map and the
      size measure `min_tokens`. */
  datatype ProcessedTable = ProcessedTable(tableId: string, tableData: ColumnMap, minTokens: nat)

  /** Every row has a cell under every header position. */
  predicate RowsCoverHeader(header: seq<string>, rows: seq<seq<string>>)
  {
    forall r :: r in rows ==> |header| <= |r|
  }

  /** `[r[i] for r in rows]`. */
  function Column(rows: seq<seq<string>>, i: nat): seq<string>
    requires forall r :: r in rows ==> i < |r|
  {
    seq(|rows|, j requires 0 <= j < |rows| => rows[j][i])
  }

  /** The position of the last column named `h`. */
  function LastIndexOf(header: seq<string>, h: string): (i: nat)
    requires h in header
    ensures i < |header| && header[i] == h
    ensures forall j :: i < j < |header| ==> header[j] != h
  {
    if header[|header| - 1] == h then |header| - 1 else LastIndexOf(header[..|header| - 1], h)
  }

  /** The column map, stated without the loop: one entry per header name,
      holding the column of the last position that carries that name. */
  function TableData(header: seq<string>, rows: seq<seq<string>>): (data: map<string, seq<string>>)
    requires RowsCoverHeader(header, rows)
    ensures forall h :: h in data <==> h in header
    ensures forall h :: h in data ==> |data[h]| == |rows|
  {
    map h | h in header :: Column(rows, LastIndexOf(header, h))
  }

  /** The header names in the order of their first occurrence: the order in
      which assignments `table_data[h] = ...` insert keys into the dict. */
  function FirstOccurrences(names: seq<string>): seq<string>
  {
    if names == [] then []
    else
      var n := |names| - 1;
      var before := FirstOccurrences(names[..n]);
      if names[n] in names[..n] then before else before + [names[n]]
  }

  /** Every name appears once in the key order, nothing else does, and the key
      order of any prefix of the header is a prefix of the key order of the
      whole header: a name never moves once inserted. */
  lemma {:induction false} FirstOccurrencesSpec(names: seq<string>)
    ensures var order := FirstOccurrences(names);
            && (forall i, j :: 0 <= i < j < |order| ==> order[i] != order[j])
            && (forall h :: h in order <==> h in names)
            && (forall k :: 0 <= k <= |names| ==> FirstOccurrences(names[..k]) <= order)
  {
    if names != [] {
      var n := |names| - 1;
      FirstOccurrencesSpec(names[..n]);
      forall k | 0 <= k <= |names| ensures FirstOccurrences(names[..k]) <= FirstOccurrences(names) {
        if k < |names| {
          assert names[..n][..k] == names[..k];
        } else {
          assert names[..k] == names;
        }
      }
      forall h ensures h in names <==> h in names[..n] || h == names[n] {
        assert names == names[..n] + [names[n]];
      }
    }
  }

  /** A header name that does not occur again later maps to its own column. */
  lemma TableDataSpec(header: seq<string>, rows: seq<seq<string>>)
    requires RowsCoverHeader(header, rows)
    ensures forall i :: 0 <= i < |header| && (forall j :: i < j < |header| ==> header[j] != header[i]) ==>
              TableData(header, rows)[header[i]] == Column(rows, i)
  {
    forall i | 0 <= i < |header| && (forall j :: i < j < |header| ==> header[j] != header[i])
      ensures TableData(header, rows)[header[i]] == Column(rows, i)
    {
      var last := LastIndexOf(header, header[i]);
      assert !(i < last);
    }
  }

  /** One more loop iteration: the entry for the newest name is its column,
      replacing any earlier column of the same name. */
  lemma {:induction false} TableDataSnoc(header: seq<string>, rows: seq<seq<string>>, i: nat)
    requires i < |header| && RowsCoverHeader(header, rows)
    ensures RowsCoverHeader(header[..i], rows) && RowsCoverHeader(header[..i + 1], rows)
    ensures TableData(header[..i + 1], rows) == TableData(header[..i], rows)[header[i] := Column(rows, i)]
  {
    var before, after := header[..i], header[..i + 1];
    assert after[..i] == before;
    assert LastIndexOf(after, header[i]) == i;
    forall h | h in before && h != header[i]
      ensures LastIndexOf(after, h) == LastIndexOf(before, h)
    {
    }
    forall h | h in after ensures h in before || h == header[i] {
      var k :| 0 <= k < |after| && after[k] == h;
      if k < i { assert before[k] == h; }
    }
  }

  /** The dict `table_data` stated without the loop: keys in first-occurrence
      order, each holding the column of its last occurrence. */
  function ColumnMapOf(header: seq<string>, rows: seq<seq<string>>): (cm: ColumnMap)
    requires RowsCoverHeader(header, rows)
    ensures forall h :: h in cm.order <==> h in cm.columns
    ensures forall i, j :: 0 <= i < j < |cm.order| ==> cm.order[i] != cm.order[j]
  {
    FirstOccurrencesSpec(header);
    ColumnMap(FirstOccurrences(header), TableData(header, rows))
  }

  /** One more loop iteration on the dict: a new name is appended to the key
      order, and the name's entry becomes the newest column. */
  lemma ColumnMapSnoc(header: seq<string>, rows: seq<seq<string>>, i: nat)
    requires i < |header| && forall r :: r in rows ==> i < |r|
    ensures RowsCoverHeader(header[..i], rows) && RowsCoverHeader(header[..i + 1], rows)
    ensures var before := ColumnMapOf(header[..i], rows);
            ColumnMapOf(header[..i + 1], rows)
            == ColumnMap(before.order + if header[i] in before.columns then [] else [header[i]],
                         before.columns[header[i] := Column(rows, i)])
  {
    TableDataSnocUpTo(header, rows, i);
    KeyOrderSnoc(header, rows, i);
  }

  /** `preprocess_table`: fills the column map one header position at a
      time; a row shorter than the header raises IndexError. */
  method PreprocessTable(table: Table) returns (r: Result<ProcessedTable, PyError>)
    ensures r.Success? <==> RowsCoverHeader(table.header, table.rows)
    ensures r.Failure? ==> r.error == IndexError
    ensures r.Success? ==>
              r.value == ProcessedTable(table.id, ColumnMapOf(table.header, table.rows),
                                        |table.header| * |table.rows|)
  {
    var header, id, rows := table.header, table.id, table.rows;
    var minTokens := |header| * |rows|;
    var order: seq<string> := [];
    var tableData: map<string, seq<string>> := map[];
    for i := 0 to |header|
      invariant forall r :: r in rows ==> i <= |r|
      invariant RowsCoverHeader(header[..i], rows)
      invariant ColumnMap(order, tableData) == ColumnMapOf(header[..i], rows)
    {
      if exists r :: r in rows && |r| <= i {
        return Failure(IndexError);
      }
      ColumnMapSnoc(header, rows, i);
      // a new key goes to the end of the dict; an existing one keeps its place
      order := order + if header[i] in tableData then [] else [header[i]];
      tableData := tableData[header[i] := Column(rows, i)];
    }
    assert header[..|header|] == header;
    return Success(ProcessedTable(id, ColumnMap(order, tableData), minTokens));
  }

  /** TableDataSnoc for a header whose rows are only known to reach position i. */
  lemma TableDataSnocUpTo(header: seq<string>, rows: seq<seq<string>>, i: nat)
    requires i < |header| && forall r :: r in rows ==> i < |r|
    ensures RowsCoverHeader(header[..i], rows) && RowsCoverHeader(header[..i + 1], rows)
    ensures TableData(header[..i + 1], rows) == TableData(header[..i], rows)[header[i] := Column(rows, i)]
  {
    var prefix := header[..i + 1];
    assert prefix[..i] == header[..i];
    TableDataSnoc(prefix, rows, i);
  }

  /** One more loop iteration: the newest name joins the key order exactly
      when the dict does not hold it yet. */
  lemma KeyOrderSnoc(header: seq<string>, rows: seq<seq<string>>, i: nat)
    requires i < |header| && RowsCoverHeader(header[..i], rows)
    ensures FirstOccurrences(header[..i + 1])
            == FirstOccurrences(header[..i]) + if header[i] in TableData(header[..i], rows) then [] else [header[i]]
  {
    assert header[..i + 1][..i] == header[..i];
  }

  /** A WikiSQL example: the question, its table and its (opaque) SQL. */
  datatype Example<S> = Example(question: string, table: Table, sql: S)

  /** The answer cells `parse_question` finds: absent, a string, or a list. */
  datatype Coordinates = NoCoordinates | CoordinateText(text: string) | CoordinateList(cells: seq<(int, int)>)

  /** `parse_question(...)[2:5]`. */
  datatype ParsedQuestion = ParsedQuestion(answerCoordinates: Coordinates, floatAnswer: Value, aggregationLabel: Value)

  /** `answer_coordinates == "" or answer_coordinates == None or answer_coordinates == []`. */
  predicate MissingCoordinates(c: Coordinates)
    ensures MissingCoordinates(c) <==>
              c.NoCoordinates? || (c.CoordinateText? && |c.text| == 0) || (c.CoordinateList? && |c.cells| == 0)
  {
    c == NoCoordinates || c == CoordinateText("") || c == CoordinateList([])
  }

  /** A line of the output TSV. */
  datatype TsvRow =
    | HeaderRow(columns: seq<string>)
    | DataRow(id: string, question: string, tableFile: string, answerCoordinates: Coordinates,
              answerText: seq<string>, floatAnswer: Value, aggregationLabel: Value)

  /** The column names of the header row. */
  const HeaderColumns: seq<string> :=
    ["id", "question", "table_file", "answer_coordinates", "answer_text", "float_answer", "aggregation_label"]

  const DataDir := "primeqa/tableqa/preprocessors/data/wikisql/"
  const TableLimit := 150

  /** What a run writes: the TSV file with its rows, and the table CSV files
      written along the way, in order. */
  datatype Output = Output(tsvPath: string, rows: seq<TsvRow>, tableFiles: seq<string>)

  type ExecuteSql<!S> = (S, Table) -> (seq<Value>, Table)
  type ParseQuestion = (ColumnMap, string, seq<string>) -> ParsedQuestion

  /** `"wikisql_" + str(position)`. */
  function QuestionId(position: nat): (id: string)
    ensures "wikisql_" <= id && id[8..] == NatToString(position)
  {
    "wikisql_" + NatToString(position)
  }

  /** `[str(i) for i in answer_text]`. */
  function AnswerText(answers: seq<Value>): (texts: seq<string>)
    ensures |texts| == |answers|
    ensures forall i :: 0 <= i < |answers| ==> texts[i] == ToStr(answers[i])
  {
    seq(|answers|, i requires 0 <= i < |answers| => ToStr(answers[i]))
  }

  /** What the loop does with one example. */
  datatype Decision =
    | Skip
    | SkipAfterTableWrite(tableFile: string)  // the table CSV is written, no row is
    | Emit(tableFile: string, row: TsvRow)

  /** The keep/skip rule for the example at `position`: skipped when the
      answer is `['']`, when the table has more than 150 cells, or when no
      answer coordinates are found (after the table file is written). */
  function Decide<S>(position: nat, ex: Example<S>, executeSql: ExecuteSql<S>, parseQuestion: ParseQuestion)
    : (d: Result<Decision, PyError>)
    ensures var table := executeSql(ex.sql, ex.table).1;
            d.Failure? <==> !RowsCoverHeader(table.header, table.rows)
    ensures d.Failure? ==> d.error == IndexError
    ensures d.Success? && d.value.Emit? ==> d.value.row.DataRow? && d.value.row.id == QuestionId(position)
  {
    var (answers, table) := executeSql(ex.sql, ex.table);
    var answerText := AnswerText(answers);
    if !RowsCoverHeader(table.header, table.rows) then Failure(IndexError)
    else
      var tableData := ColumnMapOf(table.header, table.rows);
      if answerText == [""] || |table.header| * |table.rows| > TableLimit then Success(Skip)
      else
        var parsed := parseQuestion(tableData, ex.question, answerText);
        var csvPath := DataDir + "tables/" + table.id + ".csv";
        if MissingCoordinates(parsed.answerCoordinates) then Success(SkipAfterTableWrite(csvPath))
        else
          Success(Emit(csvPath, DataRow(QuestionId(position), ex.question, "tables/" + table.id + ".csv",
                                        parsed.answerCoordinates, answerText,
                                        parsed.floatAnswer, parsed.aggregationLabel)))
  }

  /** Whether the example at `position` produces a TSV row. */
  predicate Emits<S>(position: nat, ex: Example<S>, executeSql: ExecuteSql<S>, parseQuestion: ParseQuestion)
  {
    var d := Decide(position, ex, executeSql, parseQuestion);
    d.Success? && d.value.Emit?
  }

  /** An example produces a row exactly when its table has a cell under every
      header position, its stringified answer is not `['']`, the table has at
      most 150 cells and answer coordinates are found; the row carries the id
      of its position and points at the table's CSV file. */
  lemma EmitsExactly<S>(position: nat, ex: Example<S>, executeSql: ExecuteSql<S>, parseQuestion: ParseQuestion)
    ensures var (answers, table) := executeSql(ex.sql, ex.table);
            Emits(position, ex, executeSql, parseQuestion) <==>
              && RowsCoverHeader(table.header, table.rows)
              && AnswerText(answers) != [""]
              && |table.header| * |table.rows| <= TableLimit
              && !MissingCoordinates(parseQuestion(ColumnMapOf(table.header, table.rows), ex.question,
                                                   AnswerText(answers)).answerCoordinates)
    ensures var (answers, table) := executeSql(ex.sql, ex.table);
            var d := Decide(position, ex, executeSql, parseQuestion);
            Emits(position, ex, executeSql, parseQuestion) ==>
              && d.value.tableFile == DataDir + "tables/" + table.id + ".csv"
              && d.value.row.id == QuestionId(position)
              && d.value.row.question == ex.question
              && d.value.row.tableFile == "tables/" + table.id + ".csv"
              && d.value.row.answerText == AnswerText(answers)
  {
  }

  /** What one decision adds to the output written so far. */
  function Apply(out: Output, d: Result<Decision, PyError>): Result<Output, PyError>
  {
    match d
    case Failure(e) => Failure(e)
    case Success(Skip) => Success(out)
    case Success(SkipAfterTableWrite(file)) => Success(out.(tableFiles := out.tableFiles + [file]))
    case Success(Emit(file, row)) => Success(out.(rows := out.rows + [row], tableFiles := out.tableFiles + [file]))
  }

  /** The whole run, example by example: a header row first, then what each
      decision adds; the first exception ends the run. */
  function Preprocessed<S>(dataset: seq<Example<S>>, split: string,
                           executeSql: ExecuteSql<S>, parseQuestion: ParseQuestion): (r: Result<Output, PyError>)
    ensures r.Failure? ==> r.error == IndexError
    ensures r.Success? ==> r.value.tsvPath == DataDir + split + ".tsv"
    ensures r.Success? ==> 1 <= |r.value.rows| <= |dataset| + 1 && r.value.rows[0] == HeaderRow(HeaderColumns)
    ensures r.Success? ==> |r.value.rows| - 1 <= |r.value.tableFiles| <= |dataset|
  {
    if dataset == [] then Success(Output(DataDir + split + ".tsv", [HeaderRow(HeaderColumns)], []))
    else
      var n := |dataset| - 1;
      match Preprocessed(dataset[..n], split, executeSql, parseQuestion)
      case Failure(e) => Failure(e)
      case Success(out) => Apply(out, Decide(n, dataset[n], executeSql, parseQuestion))
  }

  /** The indices at which `flags` holds, in increasing order. */
  function TruePositions(flags: seq<bool>): seq<nat>
  {
    if flags == [] then []
    else
      var n := |flags| - 1;
      TruePositions(flags[..n]) + if flags[n] then [n] else []
  }

  /** The true positions lie inside the flags, strictly increase, and are
      exactly the indices whose flag holds. */
  lemma {:induction false} TruePositionsSpec(flags: seq<bool>)
    ensures var ps := TruePositions(flags);
            && (forall i :: 0 <= i < |ps| ==> ps[i] < |flags|)
            && (forall i, j :: 0 <= i < j < |ps| ==> ps[i] < ps[j])
            && (forall p :: 0 <= p < |flags| ==> (p in ps <==> flags[p]))
  {
    if flags != [] {
      var n := |flags| - 1;
      TruePositionsSpec(flags[..n]);
      var before := TruePositions(flags[..n]);
      assert n !in before;
    }
  }

  /** For each example, whether it produces a row. */
  function EmitFlags<S>(dataset: seq<Example<S>>, executeSql: ExecuteSql<S>, parseQuestion: ParseQuestion)
    : (flags: seq<bool>)
    ensures |flags| == |dataset|
  {
    seq(|dataset|, p requires 0 <= p < |dataset| => Emits(p, dataset[p], executeSql, parseQuestion))
  }

  /** The positions of the examples that produce a row, in dataset order. */
  function EmittedPositions<S>(dataset: seq<Example<S>>, executeSql: ExecuteSql<S>, parseQuestion: ParseQuestion)
    : seq<nat>
  {
    TruePositions(EmitFlags(dataset, executeSql, parseQuestion))
  }

  /** The emitted positions lie inside the dataset, strictly increase, and are
      exactly the examples the keep/skip rule keeps. */
  lemma EmittedPositionsSpec<S>(dataset: seq<Example<S>>, executeSql: ExecuteSql<S>, parseQuestion: ParseQuestion)
    ensures var ps := EmittedPositions(dataset, executeSql, parseQuestion);
            && (forall i :: 0 <= i < |ps| ==> ps[i] < |dataset|)
            && (forall i, j :: 0 <= i < j < |ps| ==> ps[i] < ps[j])
            && (forall p :: 0 <= p < |dataset| ==> (p in ps <==> Emits(p, dataset[p], executeSql, parseQuestion)))
  {
    TruePositionsSpec(EmitFlags(dataset, executeSql, parseQuestion));
  }

  lemma EmitFlagsPrefix<S>(dataset: seq<Example<S>>, executeSql: ExecuteSql<S>, parseQuestion: ParseQuestion, n: nat)
    requires n < |dataset|
    ensures EmitFlags(dataset, executeSql, parseQuestion)[..n] == EmitFlags(dataset[..n], executeSql, parseQuestion)
    ensures EmitFlags(dataset, executeSql, parseQuestion)[n] == Emits(n, dataset[n], executeSql, parseQuestion)
  {
  }

  /** `rows` is the header row followed by the data row of each position in
      `ps`, in order, each position one the keep/skip rule keeps. */
  ghost predicate RowsFollow<S>(rows: seq<TsvRow>, ps: seq<nat>, dataset: seq<Example<S>>,
                                executeSql: ExecuteSql<S>, parseQuestion: ParseQuestion)
  {
    && |rows| == |ps| + 1
    && rows[0] == HeaderRow(HeaderColumns)
    && (forall i :: 1 <= i < |rows| ==> rows[i].DataRow?)
    && (forall i :: 0 <= i < |ps| ==>
          && ps[i] < |dataset|
          && Emits(ps[i], dataset[ps[i]], executeSql, parseQuestion)
          && rows[i + 1] == Decide(ps[i], dataset[ps[i]], executeSql, parseQuestion).value.row
          && rows[i + 1].id == QuestionId(ps[i]))
  }

  /** Appending one example extends the rows by its data row exactly when it
      is kept. */
  lemma RowsFollowSnoc<S>(rows: seq<TsvRow>, ps: seq<nat>, dataset: seq<Example<S>>,
                          executeSql: ExecuteSql<S>, parseQuestion: ParseQuestion)
    requires dataset != []
    requires RowsFollow(rows, ps, dataset[..|dataset| - 1], executeSql, parseQuestion)
    ensures var n := |dataset| - 1;
            var d := Decide(n, dataset[n], executeSql, parseQuestion);
            var emits := Emits(n, dataset[n], executeSql, parseQuestion);
            RowsFollow(rows + (if emits then [d.value.row] else []), ps + (if emits then [n] else []),
                       dataset, executeSql, parseQuestion)
  {
    var n := |dataset| - 1;
    forall i | 0 <= i < |ps| ensures dataset[..n][ps[i]] == dataset[ps[i]] {
    }
  }

  /** A successful run writes the header row first and once, then one data
      row per emitted position, in order, carrying that position's id. */
  lemma {:induction false} PreprocessedRows<S>(dataset: seq<Example<S>>, split: string,
                                               executeSql: ExecuteSql<S>, parseQuestion: ParseQuestion)
    requires Preprocessed(dataset, split, executeSql, parseQuestion).Success?
    ensures RowsFollow(Preprocessed(dataset, split, executeSql, parseQuestion).value.rows,
                       EmittedPositions(dataset, executeSql, parseQuestion), dataset, executeSql, parseQuestion)
  {
    if dataset != [] {
      var n := |dataset| - 1;
      var prefix := dataset[..n];
      PreprocessedRows(prefix, split, executeSql, parseQuestion);
      EmitFlagsPrefix(dataset, executeSql, parseQuestion, n);
      var flags := EmitFlags(dataset, executeSql, parseQuestion);
      var ps := EmittedPositions(prefix, executeSql, parseQuestion);
      assert EmittedPositions(dataset, executeSql, parseQuestion) == ps + if flags[n] then [n] else [];
      RowsFollowSnoc(Preprocessed(prefix, split, executeSql, parseQuestion).value.rows, ps,
                     dataset, executeSql, parseQuestion);
    }
  }

  /** No two emitted rows share an id, and a row's id names the position of
      its example: ids follow dataset order with gaps where examples were
      skipped. */
  lemma DistinctQuestionIds<S>(dataset: seq<Example<S>>, split: string,
                               executeSql: ExecuteSql<S>, parseQuestion: ParseQuestion)
    requires Preprocessed(dataset, split, executeSql, parseQuestion).Success?
    ensures var rows := Preprocessed(dataset, split, executeSql, parseQuestion).value.rows;
            forall i, j :: 1 <= i < j < |rows| ==> rows[i].DataRow? && rows[j].DataRow? && rows[i].id != rows[j].id
  {
    PreprocessedRows(dataset, split, executeSql, parseQuestion);
    EmittedPositionsSpec(dataset, executeSql, parseQuestion);
    var rows := Preprocessed(dataset, split, executeSql, parseQuestion).value.rows;
    var ps := EmittedPositions(dataset, executeSql, parseQuestion);
    forall i, j | 1 <= i < j < |rows| ensures rows[i].id != rows[j].id {
      NatToStringInjective(ps[i - 1], ps[j - 1]);
      assert QuestionId(ps[i - 1])[8..] == NatToString(ps[i - 1]);
      assert QuestionId(ps[j - 1])[8..] == NatToString(ps[j - 1]);
    }
  }

  /** `preprocess_wikisql`: writes the header row, then walks the dataset,
      skipping (`continue`) the examples the keep/skip rule rejects. */
  method PreprocessWikiSql<S>(dataset: seq<Example<S>>, split: string,
                              executeSql: ExecuteSql<S>, parseQuestion: ParseQuestion)
    returns (r: Result<Output, PyError>)
    ensures r == Preprocessed(dataset, split, executeSql, parseQuestion)
  {
    var tsvPath := DataDir + split + ".tsv";
    var rows := [HeaderRow(HeaderColumns)];
    var tableFiles := [];
    for id := 0 to |dataset|
      invariant Preprocessed(dataset[..id], split, executeSql, parseQuestion) == Success(Output(tsvPath, rows, tableFiles))
    {
      assert dataset[..id + 1][..id] == dataset[..id];
      var d := dataset[id];
      var qid := "wikisql_" + NatToString(id);
      var (answers, table) := executeSql(d.sql, d.table);
      var answerText := AnswerText(answers);
      var processed := PreprocessTable(table);
      if processed.Failure? {
        PreprocessedFailsFrom(dataset, split, executeSql, parseQuestion, id);
        return Failure(processed.error);
      }
      var tableId, tableData, minTokens := processed.value.tableId, processed.value.tableData, processed.value.minTokens;
      if answerText == [""] {
        continue;
      }
      if minTokens > TableLimit {
        continue;
      }
      var parsed := parseQuestion(tableData, d.question, answerText);
      tableFiles := tableFiles + [DataDir + "tables/" + tableId + ".csv"];
      var answerCoordinates := parsed.answerCoordinates;
      if MissingCoordinates(answerCoordinates) {
        continue;
      }
      rows := rows + [DataRow(qid, d.question, "tables/" + tableId + ".csv", answerCoordinates, answerText,
                              parsed.floatAnswer, parsed.aggregationLabel)];
    }
    assert dataset[..|dataset|] == dataset;
    return Success(Output(tsvPath, rows, tableFiles));
  }

  /** A run whose prefix raised raises the same error. */
  lemma PreprocessedKeepsFailure<S>(dataset: seq<Example<S>>, split: string,
                                   executeSql: ExecuteSql<S>, parseQuestion: ParseQuestion)
    requires dataset != []
    requires Preprocessed(dataset[..|dataset| - 1], split, executeSql, parseQuestion).Failure?
    ensures Preprocessed(dataset, split, executeSql, parseQuestion)
            == Preprocessed(dataset[..|dataset| - 1], split, executeSql, parseQuestion)
  {
  }

  /** A run whose last example raises, after a clean prefix, raises that error. */
  lemma PreprocessedLastFails<S>(dataset: seq<Example<S>>, split: string,
                                 executeSql: ExecuteSql<S>, parseQuestion: ParseQuestion)
    requires dataset != []
    requires Preprocessed(dataset[..|dataset| - 1], split, executeSql, parseQuestion).Success?
    requires Decide(|dataset| - 1, dataset[|dataset| - 1], executeSql, parseQuestion).Failure?
    ensures Preprocessed(dataset, split, executeSql, parseQuestion)
            == Failure(Decide(|dataset| - 1, dataset[|dataset| - 1], executeSql, parseQuestion).error)
  {
  }

  /** Once an example raises, the run as a whole raises the same error. */
  lemma {:induction false} PreprocessedFailsFrom<S>(dataset: seq<Example<S>>, split: string,
                                                   executeSql: ExecuteSql<S>, parseQuestion: ParseQuestion, k: nat)
    requires k < |dataset|
    requires Preprocessed(dataset[..k], split, executeSql, parseQuestion).Success?
    requires Decide(k, dataset[k], executeSql, parseQuestion).Failure?
    ensures Preprocessed(dataset, split, executeSql, parseQuestion)
            == Failure(Decide(k, dataset[k], executeSql, parseQuestion).error)
    decreases |dataset|
  {
    var n := |dataset| - 1;
    var prefix := dataset[..n];
    assert prefix[..k] == dataset[..k] && (k < n ==> prefix[k] == dataset[k]);
    if k == n {
      assert dataset[..k] == dataset[..n];
      PreprocessedLastFails(dataset, split, executeSql, parseQuestion);
    } else {
      PreprocessedFailsFrom(prefix, split, executeSql, parseQuestion, k);
      PreprocessedKeepsFailure(dataset, split, executeSql, parseQuestion);
    }
  }
}

/** The ColBERT retriever pipeline: a registry of tunable parameters, the
    configuration snapshot handed to the searcher, the positional query batch,
    and the reduction of the searcher's ranked tuples to (document, score) pairs. */
module DenseRetrieverPipeline {
  import opened Wrappers
  import opened Python

  datatype ParameterType = StringType | NumericType | BooleanType

  /** The `range` entry of a record: [min, max, step]. */
  datatype Range = Range(min: Value, max: Value, step: Value)

  /** One registry record: `parameter_id`, `name`, `type`, `value` and the
      optional `options` or `range`. */
  datatype Parameter = Parameter(
    parameterId: string,
    name: string,
    kind: ParameterType,
    value: Value,
    options: Option<seq<Value>>,
    range: Option<Range>)

  /** `self.parameters`: parameter id to record. */
  type Registry = map<string, Parameter>

  /** The flat snapshot `serialize` returns. */
  datatype Serialized = Serialized(pipelineId: string, parameters: map<string, Value>)

  /** The searcher's `.data`: one entry per query key, in iteration order, each
      a list of raw result tuples. */
  datatype Ranking = Ranking(data: seq<(int, seq<seq<Value>>)>)

  /** `SearcherFactory.get(config).search_all(queries, k)`, outside the model. */
  type Searcher = (map<string, Value>, map<int, string>, Value) -> Ranking

  const ClassName := "ColBERTRetriever"
  const MaxNumDocuments := "max_num_documents"
  const MinScoreThreshold := "min_score_threshold"
  const IndexPath := "index_path"

  /** Every key of the registry is the id its own record carries. */
  ghost predicate WellKeyed(reg: Registry)
  {
    forall id :: id in reg ==> reg[id].parameterId == id
  }

  /** The value has the declared type. */
  predicate HasType(p: Parameter)
  {
    match p.kind
    case StringType => p.value.Str?
    case NumericType => p.value.Int? || p.value.Float?
    case BooleanType => p.value.Bool?
  }

  /** The value is one of the `options` and, for an integer `range`, lies in
      [min, max] on the step grid that starts at min. Float ranges are not
      compared: floats are opaque in this model. */
  predicate InDomain(p: Parameter)
  {
    && (p.options.Some? ==> p.value in p.options.value)
    && (p.range.Some? && p.value.Int? && p.range.value.min.Int? && p.range.value.max.Int?
        && p.range.value.step.Int? && p.range.value.step.i > 0 ==>
          var lo, hi, step := p.range.value.min.i, p.range.value.max.i, p.range.value.step.i;
          lo <= p.value.i <= hi && (p.value.i - lo) % step == 0)
  }

  /** The registry the constructor builds, record by record. */
  function DefaultRegistry(): (reg: Registry)
    ensures WellKeyed(reg)
    ensures MaxNumDocuments in reg && MinScoreThreshold in reg
  {
    map[
      "similarity" := Parameter("similarity", "Similarity metric", StringType, Str("cosine"),
                                Some([Str("cosine"), Str("l2")]), None),
      "dim" := Parameter("dim", "Dimension", NumericType, Int(128),
                         None, Some(Range(Int(32), Int(512), Int(32)))),
      "query_maxlen" := Parameter("query_maxlen", "Maximum query length", NumericType, Int(32),
                                  None, Some(Range(Int(32), Int(128), Int(8)))),
      "doc_maxlen" := Parameter("doc_maxlen", "Maximum document length", NumericType, Int(180),
                                None, Some(Range(Int(32), Int(256), Int(4)))),
      "mask_punctuation" := Parameter("mask_punctuation", "Should mask punctuation", BooleanType, Bool(true),
                                      Some([Bool(true), Bool(false)]), None),
      "bsize" := Parameter("bsize", "Batch size", NumericType, Int(32),
                           None, Some(Range(Int(8), Int(128), Int(8)))),
      "amp" := Parameter("amp", "Use amp", BooleanType, Bool(false),
                         Some([Bool(true), Bool(false)]), None),
      "nbits" := Parameter("nbits", "nbits", NumericType, Int(1),
                           Some([Int(1), Int(2), Int(4)]), None),
      "kmeans_niters" := Parameter("kmeans_niters", "Number of iterations (kmeans)", NumericType, Int(4),
                                   None, Some(Range(Int(1), Int(8), Int(1)))),
      "num_partitions_max" := Parameter("num_partitions_max", "Maximum number of partitions", NumericType,
                                        Int(10000000), None, None),
      "nway" := Parameter("nway", "N way", NumericType, Int(2), None, None),
      "max_num_documents" := Parameter("max_num_documents", "Maximum number of answers", NumericType, Int(100),
                                       None, Some(Range(Int(1), Int(200), Int(1)))),
      "ncells" := Parameter("ncells", "Number of cells", NumericType, Int(1),
                            None, Some(Range(Int(1), Int(4), Int(1)))),
      "centroid_score_threshold" := Parameter("centroid_score_threshold", "Centroid Score Threshold", NumericType,
                                              Float("0.5"), None, Some(Range(Float("0.0"), Float("1.0"), Float("0.01")))),
      "min_score_threshold" := Parameter("min_score_threshold", "Minimum score threshold", NumericType,
                                         Float("0.0"), None, Some(Range(Float("-10.0"), Float("10.0"), Float("0.01"))))
    ]
  }

  /** Every default value has its declared type, is one of its options, and
      an integer default with a range lies on that range's grid. */
  lemma DefaultsInDomain()
    ensures forall id :: id in DefaultRegistry() ==> HasType(DefaultRegistry()[id]) && InDomain(DefaultRegistry()[id])
  {
  }

  /** The keyword arguments handed to the ColBERT configuration: every
      registered value except the result cap and the score floor, which only
      the pipeline itself uses. */
  function ConfigSnapshot(reg: Registry): (config: map<string, Value>)
    ensures MaxNumDocuments !in config && MinScoreThreshold !in config
    ensures forall id :: id in reg && id != MaxNumDocuments && id != MinScoreThreshold ==>
              id in config && config[id] == reg[id].value
    ensures forall id :: id in config ==> id in reg
  {
    map id | id in reg && id !in [MaxNumDocuments, MinScoreThreshold] :: reg[id].value
  }

  /** `{idx: str(t) for idx, t in enumerate(input_texts)}`. */
  function QueryBatch(inputTexts: seq<string>): (queries: map<int, string>)
    ensures forall i :: i in queries <==> 0 <= i < |inputTexts|
    ensures forall i :: 0 <= i < |inputTexts| ==> queries[i] == inputTexts[i]
  {
    map i | 0 <= i < |inputTexts| :: inputTexts[i]
  }

  /** `[(entry[0], entry[-1]) for entry in results_per_query]`: indexing an empty
      tuple raises IndexError. */
  function ReshapeQuery(entries: seq<seq<Value>>): (r: Result<seq<(Value, Value)>, PyError>)
    ensures r.Success? <==> forall j :: 0 <= j < |entries| ==> entries[j] != []
    ensures r.Failure? ==> r.error == IndexError
    ensures r.Success? ==> |r.value| == |entries|
    ensures r.Success? ==> forall j :: 0 <= j < |entries| ==>
              r.value[j] == (entries[j][0], entries[j][|entries[j]| - 1])
  {
    if entries == [] then Success([])
    else if entries[0] == [] then Failure(IndexError)
    else
      match ReshapeQuery(entries[1..])
      case Failure(e) => Failure(e)
      case Success(rest) => Success([(entries[0][0], entries[0][|entries[0]| - 1])] + rest)
  }

  /** One reshaped list per entry of `.data`, in its iteration order. */
  function Reshape(data: seq<(int, seq<seq<Value>>)>): (r: Result<seq<seq<(Value, Value)>>, PyError>)
    ensures r.Success? <==> forall i :: 0 <= i < |data| ==> ReshapeQuery(data[i].1).Success?
    ensures r.Failure? ==> r.error == IndexError
    ensures r.Success? ==> |r.value| == |data|
    ensures r.Success? ==> forall i :: 0 <= i < |data| ==> ReshapeQuery(data[i].1) == Success(r.value[i])
  {
    if data == [] then Success([])
    else
      match ReshapeQuery(data[0].1)
      case Failure(e) => Failure(e)
      case Success(first) =>
        match Reshape(data[1..])
        case Failure(e) => Failure(e)
        case Success(rest) => Success([first] + rest)
  }

  /** Each registered id with its record's current value. */
  function Values(reg: Registry): (values: map<string, Value>)
    ensures values.Keys == reg.Keys
  {
    map id | id in reg :: reg[id].value
  }

  /** Storing a record changes the projection at its id only. */
  lemma ValuesUpdate(reg: Registry, id: string, p: Parameter)
    ensures Values(reg[id := p]) == Values(reg)[id := p.value]
  {
  }

  /** In a well-keyed registry distinct keys hold distinct records, so there
      are as many records as keys. */
  lemma {:induction false} WellKeyedRecordCount(reg: Registry)
    requires WellKeyed(reg)
    ensures |reg.Values| == |reg.Keys|
    decreases |reg.Keys|
  {
    if reg != map[] {
      var id :| id in reg;
      var rest := reg - {id};
      assert WellKeyed(rest);
      assert rest.Keys == reg.Keys - {id};
      assert rest.Values == reg.Values - {reg[id]} by {
        forall p | p in reg.Values ensures p != reg[id] ==> p in rest.Values {
          var k :| k in reg && reg[k] == p;
          if p != reg[id] {
            assert k != id;
            assert rest[k] == p;
          }
        }
        forall p | p in rest.Values ensures p in reg.Values && p != reg[id] {
          var k :| k in rest && rest[k] == p;
          assert reg[k] == p && p.parameterId == k && k != id;
        }
      }
      WellKeyedRecordCount(rest);
    }
  }

  class ColBERTRetriever {
    const pipelineId: string
    const pipelineName: string
    const pipelineDescription: string
    const pipelineType: string
    var parameters: Registry
    /** The ColBERT configuration, as the keyword values it holds. */
    var config: map<string, Value>

    /** The registry stays well keyed and never loses a default id, and the
        configuration differs from the construction snapshot only in the
        index path that `Retrieve` adds. */
    ghost predicate Valid()
      reads this
    {
      && pipelineId == ClassName
      && WellKeyed(parameters)
      && DefaultRegistry().Keys <= parameters.Keys
      && config - {IndexPath} == ConfigSnapshot(DefaultRegistry())
    }

    constructor ()
      ensures Valid()
      ensures pipelineId == "ColBERTRetriever" && pipelineName == "Dense Retriever (ColBERT)"
      ensures pipelineDescription == "" && pipelineType == "RetrieverPipeline"
      ensures parameters == DefaultRegistry()
      ensures config == ConfigSnapshot(DefaultRegistry())
    {
      pipelineId := ClassName;
      pipelineName := "Dense Retriever (ColBERT)";
      pipelineDescription := "";
      pipelineType := "RetrieverPipeline";
      parameters := DefaultRegistry();
      config := ConfigSnapshot(DefaultRegistry());
    }

    /** `[self.parameters.values()]`: a one-element list holding every record. */
    function GetParameters(): (r: seq<set<Parameter>>)
      reads this
      requires Valid()
      ensures |r| == 1
      ensures forall id :: id in parameters ==> parameters[id] in r[0]
      ensures forall p :: p in r[0] ==> p.parameterId in parameters && parameters[p.parameterId] == p
      ensures |r[0]| == |parameters|
    {
      WellKeyedRecordCount(parameters);
      [parameters.Values]
    }

    function GetParameter(id: string): (r: Result<Parameter, PyError>)
      reads this
      requires Valid()
      ensures r.Success? <==> id in parameters
      ensures r.Failure? ==> r.error == KeyError(id)
      ensures r.Success? ==> r.value.parameterId == id
    {
      if id in parameters then Success(parameters[id]) else Failure(KeyError(id))
    }

    function GetParameterType(id: string): (r: Result<ParameterType, PyError>)
      reads this
      requires Valid()
      ensures r.Success? <==> GetParameter(id).Success?
      ensures r.Success? ==> r.value == GetParameter(id).value.kind
      ensures r.Failure? ==> r.error == KeyError(id)
    {
      if id in parameters then Success(parameters[id].kind) else Failure(KeyError(id))
    }

    function GetParameterValue(id: string): (r: Result<Value, PyError>)
      reads this
      requires Valid()
      ensures r.Success? <==> GetParameter(id).Success?
      ensures r.Success? ==> r.value == GetParameter(id).value.value
      ensures r.Failure? ==> r.error == KeyError(id)
    {
      if id in parameters then Success(parameters[id].value) else Failure(KeyError(id))
    }

    /** `self.parameters[p["parameter_id"]] = p`: replaces or inserts. */
    method SetParameter(p: Parameter)
      requires Valid()
      modifies this`parameters
      ensures Valid() && config == old(config)
      ensures parameters == old(parameters)[p.parameterId := p]
      ensures GetParameter(p.parameterId) == Success(p)
      ensures parameters.Keys == old(parameters.Keys) + {p.parameterId}
      ensures forall id :: id != p.parameterId ==> GetParameter(id) == old(GetParameter(id))
      ensures Serialize().parameters == old(Serialize().parameters)[p.parameterId := p.value]
    {
      ValuesUpdate(parameters, p.parameterId, p);
      parameters := parameters[p.parameterId := p];
    }

    /** `self.parameters[id]["value"] = v`: KeyError for an unknown id. */
    method SetParameterValue(id: string, v: Value) returns (raised: Option<PyError>)
      requires Valid()
      modifies this`parameters
      ensures Valid() && config == old(config)
      ensures id !in old(parameters) ==> raised == Some(KeyError(id)) && parameters == old(parameters)
      ensures id in old(parameters) ==>
                && raised == None
                && parameters == old(parameters)[id := old(parameters)[id].(value := v)]
      ensures id in old(parameters) ==>
                && GetParameterValue(id) == Success(v)
                && var before, after := old(parameters)[id], parameters[id];
                   after.name == before.name && after.kind == before.kind
                   && after.options == before.options && after.range == before.range
      ensures forall k :: k != id ==> GetParameter(k) == old(GetParameter(k))
      ensures Serialize().parameters == if id in old(parameters) then old(Serialize().parameters)[id := v]
                                        else old(Serialize().parameters)
    {
      if id !in parameters {
        return Some(KeyError(id));
      }
      ValuesUpdate(parameters, id, parameters[id].(value := v));
      parameters := parameters[id := parameters[id].(value := v)];
      raised := None;
    }

    /** `{"pipeline_id": ..., "parameters": {p["parameter_id"]: p["value"] ...}}`:
        the source walks the records and keys each by the id it carries, which in
        a well-keyed registry is the id it is stored under. */
    function Serialize(): (s: Serialized)
      reads this
      requires Valid()
      ensures s.pipelineId == "ColBERTRetriever"
      ensures s.parameters.Keys == parameters.Keys
      ensures forall p :: p in parameters.Values ==> s.parameters[p.parameterId] == p.value
      ensures forall id :: id in parameters ==> GetParameterValue(id) == Success(s.parameters[id])
    {
      Serialized(pipelineId, Values(parameters))
    }

    /** Configures the index path, queries the searcher with the positional
        batch capped at the live `max_num_documents`, and reshapes the result.
        A missing `index_path` keyword raises KeyError before anything changes. */
    method Retrieve(inputTexts: seq<string>, indexPath: Option<string>, searchAll: Searcher)
      returns (r: Result<seq<seq<(Value, Value)>>, PyError>)
      requires Valid()
      modifies this`config
      ensures Valid()
      ensures indexPath.None? ==> r == Failure(KeyError(IndexPath)) && config == old(config)
      ensures indexPath.Some? ==> config == old(config)[IndexPath := Str(indexPath.value)]
      ensures indexPath.Some? ==>
                r == Reshape(searchAll(config, QueryBatch(inputTexts), parameters[MaxNumDocuments].value).data)
    {
      if indexPath.None? {
        return Failure(KeyError(IndexPath));
      }
      config := config[IndexPath := Str(indexPath.value)];
      assert config - {IndexPath} == old(config) - {IndexPath};
      var ranking := searchAll(config, QueryBatch(inputTexts), parameters[MaxNumDocuments].value);
      r := Reshape(ranking.data);
    }
  }
}

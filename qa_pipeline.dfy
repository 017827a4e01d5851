/** The QA orchestration pipeline: a passage collection read from
    tab-separated lines, and `run`, which resolves every retrieved document id
    to its passage and hands the questions with their contexts to the reader. */
module QaPipeline {
  import opened Wrappers
  import opened Python

  const Tab: char := '\t'

  /** `s.split(sep)`: the pieces between occurrences of `sep`. */
  function Split(s: string, sep: char): (fields: seq<string>)
    ensures |fields| >= 1
    ensures forall i :: 0 <= i < |fields| ==> sep !in fields[i]
  {
    if s == [] then [""]
    else
      var rest := Split(s[1..], sep);
      if s[0] == sep then [""] + rest
      else [[s[0]] + rest[0]] + rest[1..]
  }

  /** `sep.join(fields)`. */
  function Join(fields: seq<string>, sep: char): string
    requires |fields| >= 1
  {
    if |fields| == 1 then fields[0] else fields[0] + [sep] + Join(fields[1..], sep)
  }

  /** Joining the pieces back gives the line. */
  lemma {:induction false} JoinSplit(s: string, sep: char)
    ensures Join(Split(s, sep), sep) == s
  {
    if s != [] {
      var rest := Split(s[1..], sep);
      JoinSplit(s[1..], sep);
      if s[0] == sep {
        assert Split(s, sep)[1..] == rest;
      } else if |rest| == 1 {
        assert Split(s, sep) == [[s[0]] + rest[0]];
      } else {
        var fields := Split(s, sep);
        assert fields[1..] == rest[1..];
        assert Join(rest, sep) == rest[0] + [sep] + Join(rest[1..], sep);
      }
    }
  }

  /** A line has one more field than it has separators, so the collection
      format (exactly three fields) means exactly two tabs per line. */
  lemma {:induction false} SplitCount(s: string, sep: char)
    ensures |Split(s, sep)| == multiset(s)[sep] + 1
  {
    if s != [] {
      SplitCount(s[1..], sep);
      assert s == [s[0]] + s[1..];
      assert multiset(s) == multiset([s[0]]) + multiset(s[1..]);
    }
  }

  lemma {:induction false} SplitFree(s: string, sep: char)
    requires sep !in s
    ensures Split(s, sep) == [s]
  {
    if s != [] {
      SplitFree(s[1..], sep);
      assert [s[0]] + s[1..] == s;
    }
  }

  lemma {:induction false} SplitAfterField(a: string, sep: char, t: string)
    requires sep !in a
    ensures Split(a + [sep] + t, sep) == [a] + Split(t, sep)
  {
    if a == [] {
      assert a + [sep] + t == [sep] + t;
      assert ([sep] + t)[1..] == t;
    } else {
      var s := a + [sep] + t;
      assert s[1..] == a[1..] + [sep] + t;
      SplitAfterField(a[1..], sep, t);
      assert [a[0]] + a[1..] == a;
    }
  }

  /** Splitting a join of separator-free fields gives the fields back. */
  lemma {:induction false} SplitJoin(fields: seq<string>, sep: char)
    requires |fields| >= 1
    requires forall i :: 0 <= i < |fields| ==> sep !in fields[i]
    ensures Split(Join(fields, sep), sep) == fields
  {
    if |fields| == 1 {
      SplitFree(fields[0], sep);
    } else {
      SplitJoin(fields[1..], sep);
      SplitAfterField(fields[0], sep, Join(fields[1..], sep));
      assert [fields[0]] + fields[1..] == fields;
    }
  }

  /** Python list indexing `passages[id]`: a negative id counts from the end,
      anything outside [-len, len) raises IndexError. */
  function PassageAt(passages: seq<string>, id: int): (r: Result<string, PyError>)
    ensures r.Success? <==> -|passages| <= id < |passages|
    ensures r.Failure? ==> r.error == IndexError
    ensures r.Success? ==> r.value == passages[id % |passages|]
  {
    if 0 <= id < |passages| then Success(passages[id])
    else if -|passages| <= id < 0 then Success(passages[|passages| + id])
    else Failure(IndexError)
  }

  /** `[corpus_passages[int(p[0])] for p in result]`. */
  function ResolveContext(passages: seq<string>, result: seq<(int, Value)>): (r: Result<seq<string>, PyError>)
    ensures r.Success? <==> forall j :: 0 <= j < |result| ==> -|passages| <= result[j].0 < |passages|
    ensures r.Failure? ==> r.error == IndexError
    ensures r.Success? ==> |r.value| == |result|
    ensures r.Success? ==> forall j :: 0 <= j < |result| ==> PassageAt(passages, result[j].0) == Success(r.value[j])
    ensures r.Success? ==> forall j :: 0 <= j < |result| && 0 <= result[j].0 ==> r.value[j] == passages[result[j].0]
  {
    if result == [] then Success([])
    else
      match PassageAt(passages, result[0].0)
      case Failure(e) => Failure(e)
      case Success(text) =>
        match ResolveContext(passages, result[1..])
        case Failure(e) => Failure(e)
        case Success(rest) => Success([text] + rest)
  }

  /** The contexts `run` builds: one list per retrieved list, in order. */
  function ResolveContexts(passages: seq<string>, results: seq<seq<(int, Value)>>)
    : (r: Result<seq<seq<string>>, PyError>)
    ensures r.Success? <==> forall i :: 0 <= i < |results| ==> ResolveContext(passages, results[i]).Success?
    ensures r.Failure? ==> r.error == IndexError
    ensures r.Success? ==> |r.value| == |results|
    ensures r.Success? ==> forall i :: 0 <= i < |results| ==> ResolveContext(passages, results[i]) == Success(r.value[i])
  {
    if results == [] then Success([])
    else
      var n := |results| - 1;
      match ResolveContexts(passages, results[..n])
      case Failure(e) => Failure(e)
      case Success(before) =>
        match ResolveContext(passages, results[n])
        case Failure(e) => Failure(e)
        case Success(last) => Success(before + [last])
  }

  /** The loop of the constructor: every line must split into exactly three
      fields (id, text, title); the text field of each is kept, in line order. */
  method ReadCollection(lines: seq<string>) returns (r: Result<seq<string>, PyError>)
    ensures r.Success? <==> forall i :: 0 <= i < |lines| ==> |Split(lines[i], Tab)| == 3
    ensures r.Failure? ==> r.error.ValueError?
    ensures r.Success? ==> |r.value| == |lines|
    ensures r.Success? ==> forall i :: 0 <= i < |lines| ==> r.value[i] == Split(lines[i], Tab)[1]
  {
    var passages := [];
    for i := 0 to |lines|
      invariant forall k :: 0 <= k < i ==> |Split(lines[k], Tab)| == 3
      invariant |passages| == i
      invariant forall k :: 0 <= k < i ==> passages[k] == Split(lines[k], Tab)[1]
    {
      var fields := Split(lines[i], Tab);
      if |fields| < 3 {
        return Failure(ValueError("not enough values to unpack (expected 3, got " + NatToString(|fields|) + ")"));
      }
      if |fields| > 3 {
        return Failure(ValueError("too many values to unpack (expected 3)"));
      }
      passages := passages + [fields[1]];
    }
    return Success(passages);
  }

  class QAPipeline<Answer> {
    /** `retriever.retrieve(input_texts=...)`: per question, (doc id, score) pairs. */
    const retriever: seq<string> -> seq<seq<(int, Value)>>
    /** `reader.apply(input_texts, contexts)`. */
    const reader: (seq<string>, seq<seq<string>>) -> Answer
    var corpusPassages: seq<string>

    constructor FromPassages(retriever: seq<string> -> seq<seq<(int, Value)>>,
                             reader: (seq<string>, seq<seq<string>>) -> Answer,
                             passages: seq<string>)
      ensures this.retriever == retriever && this.reader == reader
      ensures corpusPassages == passages
    {
      this.retriever := retriever;
      this.reader := reader;
      corpusPassages := passages;
    }

    /** `QAPipeline(retriever, reader)`, with the collection file given as its lines:
        raises ValueError on a line without exactly three tab-separated fields. */
    static method Create(retriever: seq<string> -> seq<seq<(int, Value)>>,
                         reader: (seq<string>, seq<seq<string>>) -> Answer,
                         collection: seq<string>)
      returns (r: Result<QAPipeline<Answer>, PyError>)
      ensures r.Success? <==> forall i :: 0 <= i < |collection| ==> |Split(collection[i], Tab)| == 3
      ensures r.Failure? ==> r.error.ValueError?
      ensures r.Success? ==> fresh(r.value) && r.value.retriever == retriever && r.value.reader == reader
      ensures r.Success? ==> |r.value.corpusPassages| == |collection|
      ensures r.Success? ==> forall i :: 0 <= i < |collection| ==>
                r.value.corpusPassages[i] == Split(collection[i], Tab)[1]
    {
      var passages := ReadCollection(collection);
      if passages.Failure? {
        return Failure(passages.error);
      }
      var pipeline := new QAPipeline.FromPassages(retriever, reader, passages.value);
      return Success(pipeline);
    }

    /** Retrieves once, resolves every doc id to its passage (IndexError when
        one is out of range) and returns the reader's answer unmodified. */
    method Run(inputTexts: seq<string>) returns (r: Result<Answer, PyError>)
      ensures match ResolveContexts(corpusPassages, retriever(inputTexts))
              case Failure(e) => r == Failure(e)
              case Success(contexts) => r == Success(reader(inputTexts, contexts))
    {
      var searchResults := retriever(inputTexts);
      var contexts := [];
      for i := 0 to |searchResults|
        invariant ResolveContexts(corpusPassages, searchResults[..i]) == Success(contexts)
      {
        assert searchResults[..i + 1][..i] == searchResults[..i];
        var context := ResolveContext(corpusPassages, searchResults[i]);
        if context.Failure? {
          assert !ResolveContexts(corpusPassages, searchResults).Success?;
          return Failure(context.error);
        }
        contexts := contexts + [context.value];
      }
      assert searchResults[..|searchResults|] == searchResults;
      return Success(reader(inputTexts, contexts));
    }
  }

  /** The contexts line up with the retriever's lists: as many lists, each as
      long as its list of results, each passage the one its id points at. */
  lemma RunContextsShape(passages: seq<string>, results: seq<seq<(int, Value)>>)
    requires forall i, j :: 0 <= i < |results| && 0 <= j < |results[i]| ==> 0 <= results[i][j].0 < |passages|
    ensures ResolveContexts(passages, results).Success?
    ensures var contexts := ResolveContexts(passages, results).value;
            && |contexts| == |results|
            && forall i :: 0 <= i < |results| ==>
                 && |contexts[i]| == |results[i]|
                 && forall j :: 0 <= j < |results[i]| ==> contexts[i][j] == passages[results[i][j].0]
  {
    forall i | 0 <= i < |results| ensures ResolveContext(passages, results[i]).Success? {
      assert forall j :: 0 <= j < |results[i]| ==> 0 <= results[i][j].0 < |passages|;
    }
  }
}

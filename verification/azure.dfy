/**
 * The Azure Cognitive Search benchmark run: each question is searched,
 * the documents' `content` fields become a context bounded by length and
 * by a number of sources, and the row records the question, its answer and
 * the prompt built from them.
 * The search client is a function from the datapoint index and the query to
 * the ranked documents: the live index may answer the same question
 * differently on different rows.
 */
module AzureBenchmark {
  import opened Common
  import opened ContextAssembly
  import opened ResultsStore

  const MaxContextLength := 12000
  const MaxSources := 10
  const MaxDatapoints := 5000
  const Header := Row("question", "true_answer", "context")
  const Instruction: string :=
    "Please use ONLY the sources at the bottom of this prompt to give a short, concise answer the following question.\n\nQuestion: \""

  /** The configuration a search client is built from. */
  datatype SearchConfig = SearchConfig(indexName: string, endpointName: string, key: string)

  datatype ConfigError = ValueError

  /** initialize_azure_search_client: every one of the three settings must be non-empty. */
  function InitializeAzureSearchClient(indexName: string, endpointName: string, key: string)
    : (r: Result<SearchConfig, ConfigError>)
    ensures r.Failure? <==> indexName == "" || endpointName == "" || key == ""
    ensures r.Success? ==> r.value == SearchConfig(indexName, endpointName, key)
  {
    if indexName == "" || endpointName == "" || key == "" then Failure(ValueError)
    else Success(SearchConfig(indexName, endpointName, key))
  }

  /** A search result; only its `content` field is used. */
  datatype Doc = Doc(content: string)

  function Contents(docs: seq<Doc>): seq<string>
  {
    seq(|docs|, i requires 0 <= i < |docs| => docs[i].content)
  }

  /** build_context_string: the documents' `content` fields, bounded by length and by source count. */
  method BuildContextString(docs: seq<Doc>, maxContextLength: int, maxSources: int) returns (context: string)
    ensures context == Context(Contents(docs), maxContextLength, Some(maxSources))
  {
    context := BuildContext(Contents(docs), maxContextLength, Some(maxSources));
  }

  /** The context with the default bounds. */
  function AzureContext(docs: seq<Doc>): string
  {
    Context(Contents(docs), MaxContextLength, Some(MaxSources))
  }

  /** With the defaults, at most ten sources; and ten exactly when there are ten documents and the length bound does not trip before the tenth. */
  lemma DefaultSourceCap(docs: seq<Doc>)
    ensures Included(Contents(docs), MaxContextLength, Some(MaxSources)) <= MaxSources
    ensures MaxSources <= |docs| &&
            (forall j :: 0 <= j < MaxSources ==> |Render(Contents(docs)[..j])| <= MaxContextLength) ==>
            AzureContext(docs) == Concat(Blocks(Contents(docs)[..MaxSources]))
  {
    ContextBounds(Contents(docs), MaxContextLength, Some(MaxSources));
    if MaxSources <= |docs| &&
       (forall j :: 0 <= j < MaxSources ==> |Render(Contents(docs)[..j])| <= MaxContextLength) {
      FullCapacity(Contents(docs), MaxContextLength, MaxSources);
    }
  }

  /** The prompt recorded in the third column. */
  function QueryString(question: string, context: string): string
  {
    Instruction + question + "\"" + context
  }

  /** The prompt is the instruction, then the question and its closing quote, then the context: each can be read back at its place. */
  lemma QueryStringParts(question: string, context: string)
    ensures var q := QueryString(question, context);
      && |q| == |Instruction| + |question| + 1 + |context|
      && q[..|Instruction|] == Instruction
      && q[|Instruction|..|Instruction| + |question|] == question
      && q[|Instruction| + |question|] == '"'
      && q[|q| - |context|..] == context
  {
  }

  /** A question searched, with the documents the search returned. */
  datatype Hit = Hit(qa: QA, docs: seq<Doc>)

  /** The row written for a hit: the question, its answer and the prompt built from the documents. */
  function HitRow(hit: Hit): Row
  {
    Row(hit.qa.question, hit.qa.answer, QueryString(hit.qa.question, AzureContext(hit.docs)))
  }

  /** The rows written for a sequence of hits, in order. */
  function HitRows(hits: seq<Hit>): seq<Row>
  {
    if hits == [] then [] else HitRows(hits[..|hits| - 1]) + [HitRow(hits[|hits| - 1])]
  }

  lemma HitRowsSnoc(hits: seq<Hit>, hit: Hit)
    ensures HitRows(hits + [hit]) == HitRows(hits) + [HitRow(hit)]
  {
    assert (hits + [hit])[..|hits|] == hits;
  }

  /** The body of the loop of process_questions: search, build the context, then the prompt. */
  method AnswerQuestion(datapoint: QA, index: int, search: (int, string) -> seq<Doc>) returns (row: Row)
    ensures row == HitRow(Hit(datapoint, search(index, datapoint.question)))
  {
    var docs := search(index, datapoint.question);
    var context := BuildContextString(docs, MaxContextLength, MaxSources);
    var openaiQueryString := QueryString(datapoint.question, context);
    row := Row(datapoint.question, datapoint.answer, openaiQueryString);
  }

  /** The loop of process_questions from datapoint index `index` over the remaining `rows`. */
  function Process(rows: seq<QA>, index: int, maxDatapoints: int, search: (int, string) -> seq<Doc>): seq<Hit>
    decreases |rows|
  {
    if rows == [] || index >= maxDatapoints then []
    else [Hit(rows[0], search(index, rows[0].question))] + Process(rows[1..], index + 1, maxDatapoints, search)
  }

  /**
   * From index `index`, exactly min(|rows|, max(0, maxDatapoints - index)) rows are
   * written, row i from input row i searched at datapoint index index + i.
   */
  lemma {:induction false} ProcessRows(rows: seq<QA>, index: int, maxDatapoints: int, search: (int, string) -> seq<Doc>)
    ensures var hits := Process(rows, index, maxDatapoints, search);
      && |hits| == Min(|rows|, Max(0, maxDatapoints - index))
      && forall i :: 0 <= i < |hits| ==> hits[i] == Hit(rows[i], search(index + i, rows[i].question))
    decreases |rows|
  {
    if rows != [] && index < maxDatapoints {
      var tail := rows[1..];
      ProcessRows(tail, index + 1, maxDatapoints, search);
      var hits := Process(rows, index, maxDatapoints, search);
      var rest := Process(tail, index + 1, maxDatapoints, search);
      forall i | 1 <= i < |hits|
        ensures hits[i] == Hit(rows[i], search(index + i, rows[i].question))
      {
        assert hits[i] == rest[i - 1] && tail[i - 1] == rows[i] && index + 1 + (i - 1) == index + i;
      }
    }
  }

  /** The same question on two rows is searched afresh on each, and the two rows may record different prompts. */
  lemma RepeatedQuestionSearchedAgain()
    ensures var rows := [QA("q", "a"), QA("q", "a")];
      var search := (index: int, q: string) => if index == 0 then [] else [Doc("d")];
      var hits := Process(rows, 0, MaxDatapoints, search);
      |hits| == 2 && HitRow(hits[0]) != HitRow(hits[1])
  {
    var rows := [QA("q", "a"), QA("q", "a")];
    var search := (index: int, q: string) => if index == 0 then [] else [Doc("d")];
    ProcessRows(rows, 0, MaxDatapoints, search);
    var hits := Process(rows, 0, MaxDatapoints, search);
    assert hits[0].docs == [] && hits[1].docs == [Doc("d")];
    var none := Contents(hits[0].docs);
    var one := Contents(hits[1].docs);
    assert none == [] && one == ["d"];
    assert Admits(one, 0, MaxContextLength, Some(MaxSources));
    assert Included(one, MaxContextLength, Some(MaxSources)) == 1;
    ContextBounds(none, MaxContextLength, Some(MaxSources));
    ContextBounds(one, MaxContextLength, Some(MaxSources));
    QueryStringParts("q", AzureContext(hits[0].docs));
    QueryStringParts("q", AzureContext(hits[1].docs));
  }

  /** One turn of the loop of process_questions: the row for the next question is appended. */
  method WriteQuestion(f: ResultsFile, datapoint: QA, index: int, search: (int, string) -> seq<Doc>,
                       ghost before: seq<Row>, ghost written: seq<Hit>)
    modifies f
    requires f.state == Present(before + HitRows(written))
    ensures f.state == Present(before + HitRows(written + [Hit(datapoint, search(index, datapoint.question))]))
  {
    var row := AnswerQuestion(datapoint, index, search);
    f.Append(row);
    HitRowsSnoc(written, Hit(datapoint, search(index, datapoint.question)));
    assert (before + HitRows(written)) + [row] == before + (HitRows(written) + [row]);
  }

  /** process_questions: the index starts at 0 and every question up to the cap is searched and written. */
  method ProcessQuestions(f: ResultsFile, rows: seq<QA>, maxDatapoints: int, search: (int, string) -> seq<Doc>)
    modifies f
    ensures f.state == Present(RowsOf(old(f.state)) + HitRows(Process(rows, 0, maxDatapoints, search)))
  {
    ghost var expected := Process(rows, 0, maxDatapoints, search);
    ProcessRows(rows, 0, maxDatapoints, search);
    var datapointIndex := 0;
    f.OpenForAppend();
    ghost var before := RowsOf(f.state);
    var pos := 0;
    while pos < |rows|
      invariant 0 <= pos <= |expected|
      invariant datapointIndex == pos
      invariant f.state == Present(before + HitRows(expected[..pos]))
    {
      var datapoint := rows[pos];
      if datapointIndex >= maxDatapoints {
        break;
      }
      WriteQuestion(f, datapoint, datapointIndex, search, before, expected[..pos]);
      PrefixSnoc(expected, pos);
      datapointIndex := datapointIndex + 1;
      pos := pos + 1;
    }
    assert expected[..pos] == expected;
  }

  /** create_results_file_if_not_exists: true and a fresh header when the file was absent, false and no change otherwise. */
  method CreateResultsFileIfNotExists(f: ResultsFile) returns (created: bool)
    modifies f
    ensures created <==> old(f.state).Absent?
    ensures f.state == WithHeader(old(f.state), Header)
  {
    var fileExists := f.Exists();
    if fileExists {
      return false;
    }
    f.Create(Header);
    return true;
  }

  /** The script's main block: build the client (or fail on a missing setting), create the file, process. */
  method RunAzureBenchmark(f: ResultsFile, indexName: string, endpointName: string, key: string,
                           rows: seq<QA>, search: (int, string) -> seq<Doc>) returns (r: Result<SearchConfig, ConfigError>)
    modifies f
    ensures r == InitializeAzureSearchClient(indexName, endpointName, key)
    ensures r.Failure? ==> f.state == old(f.state)
    ensures r.Success? ==>
      f.state == Present(RowsOf(WithHeader(old(f.state), Header)) + HitRows(Process(rows, 0, MaxDatapoints, search)))
  {
    r := InitializeAzureSearchClient(indexName, endpointName, key);
    if r.Failure? {
      return;
    }
    var _ := CreateResultsFileIfNotExists(f);
    ProcessQuestions(f, rows, MaxDatapoints, search);
  }
}

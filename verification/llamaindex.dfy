/**
 * The LlamaIndex benchmark run over a Pinecone vector store: each question
 * is given to the retriever, the retrieved nodes' text becomes a context
 * bounded by length, and `[question, answer, context]` is appended.
 * The retriever is a function from the datapoint index and the query to the
 * ranked nodes: the live store may answer the same question differently on
 * different rows.
 */
module LlamaIndexBenchmark {
  import opened Common
  import opened ContextAssembly
  import opened ResultsStore

  const MaxContextLength := 10000
  const MaxDatapoints := 5000
  /** Fixed inside process_questions, so no row is ever skipped. */
  const StartingIndex := 0
  const Header := Row("question", "answer", "context")

  /** A retrieved node; only its `text` attribute is used. */
  datatype Node = Node(text: string)

  function Texts(docs: seq<Node>): seq<string>
  {
    seq(|docs|, i requires 0 <= i < |docs| => docs[i].text)
  }

  /** build_context_string: the nodes' text, bounded by length only. */
  method BuildContextString(docs: seq<Node>, maxContextLength: int) returns (context: string)
    ensures context == Context(Texts(docs), maxContextLength, None)
  {
    context := BuildContext(Texts(docs), maxContextLength, None);
  }

  /** A question given to the retriever, with the nodes it returned. */
  datatype Hit = Hit(qa: QA, nodes: seq<Node>)

  /** The row written for a hit: the question, its answer and the context of its nodes. */
  function HitRow(hit: Hit): Row
  {
    Row(hit.qa.question, hit.qa.answer, Context(Texts(hit.nodes), MaxContextLength, None))
  }

  /** The rows written for a sequence of hits, in order. */
  function HitRows(hits: seq<Hit>): seq<Row>
  {
    if hits == [] then [] else HitRows(hits[..|hits| - 1]) + [HitRow(hits[|hits| - 1])]
  }

  lemma HitRowsSnoc(hits: seq<Hit>, hit: Hit)
    ensures HitRows(hits + [hit]) == HitRows(hits) + [HitRow(hit)]
  {
    assert (hits + [hit])[..|hits|] == hits;
  }

  /** The body of the loop of process_questions: retrieve, then build the context. */
  method AnswerQuestion(datapoint: QA, index: int, retrieve: (int, string) -> seq<Node>) returns (row: Row)
    ensures row == HitRow(Hit(datapoint, retrieve(index, datapoint.question)))
  {
    var docs := retrieve(index, datapoint.question);
    var context := BuildContextString(docs, MaxContextLength);
    row := Row(datapoint.question, datapoint.answer, context);
  }

  /** The loop of process_questions from datapoint index `index` over the remaining `rows`. */
  function Process(rows: seq<QA>, index: int, maxDatapoints: int, retrieve: (int, string) -> seq<Node>): seq<Hit>
    decreases |rows|
  {
    if rows == [] || index >= maxDatapoints then []
    else if index < StartingIndex then Process(rows[1..], index + 1, maxDatapoints, retrieve)
    else [Hit(rows[0], retrieve(index, rows[0].question))] + Process(rows[1..], index + 1, maxDatapoints, retrieve)
  }

  /**
   * From an index at or past the starting index, exactly min(|rows|, max(0, maxDatapoints - index))
   * rows are written, row i from input row i given to the retriever at datapoint index index + i.
   */
  lemma {:induction false} ProcessRows(rows: seq<QA>, index: int, maxDatapoints: int, retrieve: (int, string) -> seq<Node>)
    requires index >= StartingIndex
    ensures var hits := Process(rows, index, maxDatapoints, retrieve);
      && |hits| == Min(|rows|, Max(0, maxDatapoints - index))
      && forall i :: 0 <= i < |hits| ==> hits[i] == Hit(rows[i], retrieve(index + i, rows[i].question))
    decreases |rows|
  {
    if rows != [] && index < maxDatapoints {
      var tail := rows[1..];
      ProcessRows(tail, index + 1, maxDatapoints, retrieve);
      var hits := Process(rows, index, maxDatapoints, retrieve);
      var rest := Process(tail, index + 1, maxDatapoints, retrieve);
      forall i | 1 <= i < |hits|
        ensures hits[i] == Hit(rows[i], retrieve(index + i, rows[i].question))
      {
        assert hits[i] == rest[i - 1] && tail[i - 1] == rows[i] && index + 1 + (i - 1) == index + i;
      }
    }
  }

  /** One turn of the loop of process_questions past the starting index: the row for the next question is appended. */
  method WriteQuestion(f: ResultsFile, datapoint: QA, index: int, retrieve: (int, string) -> seq<Node>,
                       ghost before: seq<Row>, ghost written: seq<Hit>)
    modifies f
    requires f.state == Present(before + HitRows(written))
    ensures f.state == Present(before + HitRows(written + [Hit(datapoint, retrieve(index, datapoint.question))]))
  {
    var row := AnswerQuestion(datapoint, index, retrieve);
    f.Append(row);
    HitRowsSnoc(written, Hit(datapoint, retrieve(index, datapoint.question)));
    assert (before + HitRows(written)) + [row] == before + (HitRows(written) + [row]);
  }

  /** process_questions: the index starts at the fixed starting index and rows are written up to the cap. */
  method ProcessQuestions(f: ResultsFile, rows: seq<QA>, maxDatapoints: int, retrieve: (int, string) -> seq<Node>)
    modifies f
    ensures f.state == Present(RowsOf(old(f.state)) + HitRows(Process(rows, StartingIndex, maxDatapoints, retrieve)))
  {
    ghost var expected := Process(rows, StartingIndex, maxDatapoints, retrieve);
    ProcessRows(rows, StartingIndex, maxDatapoints, retrieve);
    var datapointIndex := StartingIndex;
    f.OpenForAppend();
    ghost var before := RowsOf(f.state);
    var pos := 0;
    while pos < |rows|
      invariant 0 <= pos <= |expected|
      invariant datapointIndex == StartingIndex + pos
      invariant f.state == Present(before + HitRows(expected[..pos]))
    {
      var datapoint := rows[pos];
      if datapointIndex >= maxDatapoints {
        break;
      }
      if datapointIndex < StartingIndex {
        // The skip branch: the index starts at the starting index and only grows.
        assert false;
      }
      WriteQuestion(f, datapoint, datapointIndex, retrieve, before, expected[..pos]);
      PrefixSnoc(expected, pos);
      datapointIndex := datapointIndex + 1;
      pos := pos + 1;
    }
    assert expected[..pos] == expected;
  }

  /** check_results_file_exists: whether the results file can be opened for reading. */
  method CheckResultsFileExists(f: ResultsFile) returns (fileExists: bool)
    ensures fileExists <==> f.state.Present?
  {
    fileExists := f.Exists();
  }

  /** create_results_file: opens with 'w', so any previous rows are replaced by the header. */
  method CreateResultsFile(f: ResultsFile)
    modifies f
    ensures f.state == Present([Header])
  {
    f.Create(Header);
  }

  /** The guard of the main block: the file is created only when it does not exist. */
  method PrepareResultsFile(f: ResultsFile)
    modifies f
    ensures f.state == WithHeader(old(f.state), Header)
  {
    var fileExists := CheckResultsFileExists(f);
    if !fileExists {
      CreateResultsFile(f);
    }
  }

  /** The script's main block: prepare the file, then process with the default cap. */
  method RunLlamaIndexBenchmark(f: ResultsFile, rows: seq<QA>, retrieve: (int, string) -> seq<Node>)
    modifies f
    ensures f.state == Present(RowsOf(WithHeader(old(f.state), Header)) + HitRows(Process(rows, StartingIndex, MaxDatapoints, retrieve)))
  {
    PrepareResultsFile(f);
    ProcessQuestions(f, rows, MaxDatapoints, retrieve);
  }
}

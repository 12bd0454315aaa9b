/**
 * The Pongo benchmark run: each question is sent to the search service
 * with one retry, the returned documents become a context string, and
 * `[question, answer, context]` is appended to the results table.
 * The service is a function from the datapoint index, the query and the
 * attempt number (0 for the first call, 1 for the retry) to its reply: the
 * live service may answer the same question differently on different rows.
 */
module PongoBenchmark {
  import opened Common
  import opened ContextAssembly
  import opened ResultsStore

  const MaxLength := 10000
  const MaxDatapoints := 5000
  const Header := Row("question", "answer", "context")

  /** A document of a search reply; only its `text` field is used. */
  datatype Doc = Doc(text: string)

  /** A reply of the search service: its `ok` flag and its documents. */
  datatype Response = Response(ok: bool, docs: seq<Doc>)

  /** The RuntimeError raised when the retry fails too. */
  datatype SearchError = RetryExhausted

  function Texts(docs: seq<Doc>): seq<string>
  {
    seq(|docs|, i requires 0 <= i < |docs| => docs[i].text)
  }

  /** The context the run records for a list of documents. */
  function PongoContext(docs: seq<Doc>): string
  {
    Context(Texts(docs), MaxLength, None)
  }

  /** build_context_string: the documents' `text` fields, bounded by length only. */
  method BuildContextString(docs: seq<Doc>, maxLength: int) returns (context: string)
    ensures context == Context(Texts(docs), maxLength, None)
  {
    context := BuildContext(Texts(docs), maxLength, None);
  }

  /** What a search with one retry yields, given the first reply and the reply to the retry. */
  function Retried(first: Response, retry: Response): Result<seq<Doc>, SearchError>
  {
    if first.ok then Success(first.docs)
    else if retry.ok then Success(retry.docs)
    else Failure(RetryExhausted)
  }

  /** What a search with one retry yields from `service`: the context of the documents of the first reply that succeeds. */
  function SearchOutcome(query: string, service: (string, nat) -> Response): Result<string, SearchError>
  {
    match Retried(service(query, 0), service(query, 1))
    case Success(docs) => Success(PongoContext(docs))
    case Failure(e) => Failure(e)
  }

  /** The documents the search for `query` finds on the row with datapoint index `index`, or its error. */
  function SearchAt(service: (int, string, nat) -> Response, index: int, query: string): Result<seq<Doc>, SearchError>
  {
    Retried(service(index, query, 0), service(index, query, 1))
  }

  /** perform_pongo_search: call the service, retry once on failure, fail after the second failure. */
  method PerformPongoSearch(query: string, service: (string, nat) -> Response)
      returns (result: Result<string, SearchError>, calls: nat)
    ensures calls == if service(query, 0).ok then 1 else 2
    ensures result.Failure? <==> !service(query, 0).ok && !service(query, 1).ok
    ensures result.Success? ==> service(query, calls - 1).ok && result.value == PongoContext(service(query, calls - 1).docs)
    ensures result == SearchOutcome(query, service)
  {
    var hasRetried := false;
    calls := 0;
    var response: Response;
    while true
      invariant calls == if hasRetried then 1 else 0
      invariant hasRetried ==> !service(query, 0).ok
      decreases if hasRetried then 0 else 1
    {
      response := service(query, calls);
      calls := calls + 1;
      if response.ok {
        break;
      } else if hasRetried {
        return Failure(RetryExhausted), calls;
      } else {
        hasRetried := true;
      }
    }
    var context := BuildContextString(response.docs, MaxLength);
    result := Success(context);
  }

  /** The row written for one question. */
  function DatapointRow(qa: QA, context: string): Row
  {
    Row(qa.question, qa.answer, context)
  }

  /** The body of the loop for a row past the start index: search, then append the row unless the search failed. */
  method SearchAndWrite(f: ResultsFile, datapoint: QA, service: (string, nat) -> Response)
      returns (failure: Option<SearchError>)
    modifies f
    requires f.state.Present?
    ensures match SearchOutcome(datapoint.question, service)
      case Failure(e) => failure == Some(e) && f.state == old(f.state)
      case Success(c) => failure == None && f.state == Present(old(f.state).rows + [DatapointRow(datapoint, c)])
  {
    var context, _ := PerformPongoSearch(datapoint.question, service);
    if context.Failure? {
      return Some(context.error);
    }
    f.Append(DatapointRow(datapoint, context.value));
    failure := None;
  }

  /** How a run ends: input exhausted, cap reached (quit), or a search failed. */
  datatype Outcome = Exhausted | CapReached | Aborted(error: SearchError)

  /** A datapoint the run writes, with the documents its search found. */
  datatype Hit = Hit(qa: QA, docs: seq<Doc>)

  /** The rows a run appends, as the hits they are rendered from, and how it ends. */
  datatype Run = Run(written: seq<Hit>, outcome: Outcome)

  /** The row written for a hit: its question and answer, and the context of its documents. */
  function HitRow(hit: Hit): Row
  {
    DatapointRow(hit.qa, PongoContext(hit.docs))
  }

  /** The rows written for a sequence of hits, in order. */
  function HitRows(hits: seq<Hit>): seq<Row>
  {
    if hits == [] then [] else HitRows(hits[..|hits| - 1]) + [HitRow(hits[|hits| - 1])]
  }

  lemma HitRowsSnoc(hits: seq<Hit>, hit: Hit)
    ensures HitRows(hits + [hit]) == HitRows(hits) + [HitRow(hit)]
  {
    assert (hits + [hit])[..|hits|] == hits;
  }

  /** The loop of process_datapoints from datapoint index `index` over the remaining `rows`. */
  function Process(rows: seq<QA>, index: int, start: int, maxDatapoints: int,
                   service: (int, string, nat) -> Response): Run
    decreases |rows|
  {
    if rows == [] then Run([], Exhausted)
    else if index >= maxDatapoints then Run([], CapReached)
    else if index < start then Process(rows[1..], index + 1, start, maxDatapoints, service)
    else match SearchAt(service, index, rows[0].question)
      case Failure(e) => Run([], Aborted(e))
      case Success(docs) =>
        var rest := Process(rows[1..], index + 1, start, maxDatapoints, service);
        Run([Hit(rows[0], docs)] + rest.written, rest.outcome)
  }

  /** `run` is the rows `written` so far followed by what the loop still does over the remaining rows `rest` from index `index`. */
  predicate Remains(run: Run, written: seq<Hit>, rest: seq<QA>, index: int, start: int,
                    maxDatapoints: int, service: (int, string, nat) -> Response)
  {
    var tail := Process(rest, index, start, maxDatapoints, service);
    run.written == written + tail.written && run.outcome == tail.outcome
  }

  /** The loop step that passes over a row before the start index. */
  lemma SkipStep(run: Run, written: seq<Hit>, rest: seq<QA>, index: int, start: int,
                 maxDatapoints: int, service: (int, string, nat) -> Response)
    requires rest != [] && index < start && index < maxDatapoints
    requires Remains(run, written, rest, index, start, maxDatapoints, service)
    ensures Remains(run, written, rest[1..], index + 1, start, maxDatapoints, service)
  {
  }

  /** The loop step that searches a row and writes it. */
  lemma WriteStep(run: Run, written: seq<Hit>, rest: seq<QA>, index: int, start: int,
                  maxDatapoints: int, service: (int, string, nat) -> Response)
    requires rest != [] && start <= index < maxDatapoints
    requires SearchAt(service, index, rest[0].question).Success?
    requires Remains(run, written, rest, index, start, maxDatapoints, service)
    ensures var hit := Hit(rest[0], SearchAt(service, index, rest[0].question).value);
      Remains(run, written + [hit], rest[1..], index + 1, start, maxDatapoints, service)
  {
    var row := Hit(rest[0], SearchAt(service, index, rest[0].question).value);
    var tail := Process(rest[1..], index + 1, start, maxDatapoints, service);
    assert written + ([row] + tail.written) == (written + [row]) + tail.written;
  }

  /** The loop steps that end the run: the input is exhausted, the cap is reached, or a search fails. */
  lemma StopStep(run: Run, written: seq<Hit>, rest: seq<QA>, index: int, start: int,
                 maxDatapoints: int, service: (int, string, nat) -> Response)
    requires Remains(run, written, rest, index, start, maxDatapoints, service)
    ensures rest == [] ==> run == Run(written, Exhausted)
    ensures rest != [] && index >= maxDatapoints ==> run == Run(written, CapReached)
    ensures rest != [] && start <= index < maxDatapoints && SearchAt(service, index, rest[0].question).Failure? ==>
      run == Run(written, Aborted(SearchAt(service, index, rest[0].question).error))
  {
    assert written + [] == written;
  }

  /** One turn of the driver loop past the start index: the row's search with the service of its index, then its append. */
  method WriteDatapoint(f: ResultsFile, datapoint: QA, index: int, service: (int, string, nat) -> Response,
                        ghost before: seq<Row>, ghost written: seq<Hit>) returns (failure: Option<SearchError>)
    modifies f
    requires f.state == Present(before + HitRows(written))
    ensures match SearchAt(service, index, datapoint.question)
      case Failure(e) => failure == Some(e) && f.state == Present(before + HitRows(written))
      case Success(docs) => failure == None && f.state == Present(before + HitRows(written + [Hit(datapoint, docs)]))
  {
    var now := (query: string, attempt: nat) => service(index, query, attempt);
    failure := SearchAndWrite(f, datapoint, now);
    assert Retried(now(datapoint.question, 0), now(datapoint.question, 1)) == SearchAt(service, index, datapoint.question);
    if failure.None? {
      var hit := Hit(datapoint, SearchAt(service, index, datapoint.question).value);
      HitRowsSnoc(written, hit);
      assert (before + HitRows(written)) + [HitRow(hit)] == before + (HitRows(written) + [HitRow(hit)]);
    }
  }

  /**
   * One turn of the driver loop over the next row at datapoint index `index`: the
   * cap check, the skip before the start index, or the search and append; `done`
   * says the run ended there, with `outcome`.
   */
  method Turn(f: ResultsFile, datapoint: QA, index: int, start: int, maxDatapoints: int,
              service: (int, string, nat) -> Response, ghost run: Run, ghost before: seq<Row>,
              ghost written: seq<Hit>, ghost rest: seq<QA>)
      returns (done: bool, outcome: Outcome, ghost written': seq<Hit>)
    modifies f
    requires rest != [] && rest[0] == datapoint
    requires f.state == Present(before + HitRows(written))
    requires Remains(run, written, rest, index, start, maxDatapoints, service)
    ensures f.state == Present(before + HitRows(written'))
    ensures done ==> run == Run(written', outcome)
    ensures !done ==> Remains(run, written', rest[1..], index + 1, start, maxDatapoints, service)
  {
    StopStep(run, written, rest, index, start, maxDatapoints, service);
    written' := written;
    if index >= maxDatapoints {
      return true, CapReached, written';
    }
    if index < start {
      SkipStep(run, written, rest, index, start, maxDatapoints, service);
      return false, Exhausted, written';
    }
    var failure := WriteDatapoint(f, datapoint, index, service, before, written);
    if failure.Some? {
      return true, Aborted(failure.value), written';
    }
    WriteStep(run, written, rest, index, start, maxDatapoints, service);
    written' := written + [Hit(datapoint, SearchAt(service, index, datapoint.question).value)];
    return false, Exhausted, written';
  }

  /** The driver loop, with the datapoint index starting at `initialIndex`. */
  method Drive(f: ResultsFile, rows: seq<QA>, initialIndex: int, start: int, maxDatapoints: int,
               service: (int, string, nat) -> Response) returns (outcome: Outcome)
    modifies f
    ensures var run := Process(rows, initialIndex, start, maxDatapoints, service);
      f.state == Present(RowsOf(old(f.state)) + HitRows(run.written)) && outcome == run.outcome
  {
    ghost var run := Process(rows, initialIndex, start, maxDatapoints, service);
    ghost var written: seq<Hit> := [];
    ghost var rest := rows;
    var datapointIndex := initialIndex;
    f.OpenForAppend();
    ghost var before := RowsOf(f.state);
    var pos := 0;
    while pos < |rows|
      invariant 0 <= pos <= |rows| && rest == rows[pos..]
      invariant datapointIndex == initialIndex + pos
      invariant f.state == Present(before + HitRows(written))
      invariant Remains(run, written, rest, datapointIndex, start, maxDatapoints, service)
    {
      var datapoint := rows[pos];
      var done;
      done, outcome, written := Turn(f, datapoint, datapointIndex, start, maxDatapoints, service,
                                     run, before, written, rest);
      if done {
        return;
      }
      rest := rest[1..];
      datapointIndex := datapointIndex + 1;
      pos := pos + 1;
    }
    StopStep(run, written, rest, datapointIndex, start, maxDatapoints, service);
    return Exhausted;
  }

  /** process_datapoints as written: the index starts at `start`, so no row is skipped. */
  method ProcessDatapoints(f: ResultsFile, rows: seq<QA>, start: int, maxDatapoints: int,
                           service: (int, string, nat) -> Response) returns (outcome: Outcome)
    modifies f
    ensures var run := Process(rows, start, start, maxDatapoints, service);
      f.state == Present(RowsOf(old(f.state)) + HitRows(run.written)) && outcome == run.outcome
  {
    outcome := Drive(f, rows, start, start, maxDatapoints, service);
  }

  /** process_datapoints with the index starting at 0, so that the first `start` rows are skipped. */
  method ResumeDatapoints(f: ResultsFile, rows: seq<QA>, start: int, maxDatapoints: int,
                          service: (int, string, nat) -> Response) returns (outcome: Outcome)
    modifies f
    ensures var run := Process(rows, 0, start, maxDatapoints, service);
      f.state == Present(RowsOf(old(f.state)) + HitRows(run.written)) && outcome == run.outcome
  {
    outcome := Drive(f, rows, 0, start, maxDatapoints, service);
  }

  /** initialize_results_file: writes the header only when the file is absent, and says whether it existed. */
  method InitializeResultsFile(f: ResultsFile) returns (fileExists: bool)
    modifies f
    ensures fileExists <==> old(f.state).Present?
    ensures f.state == WithHeader(old(f.state), Header)
  {
    fileExists := f.Exists();
    if !fileExists {
      f.Create(Header);
    }
  }

  /** The script's main block: initialise the results file, then process with the defaults. */
  method RunPongoBenchmark(f: ResultsFile, rows: seq<QA>, service: (int, string, nat) -> Response)
      returns (outcome: Outcome)
    modifies f
    ensures var run := Process(rows, 0, 0, MaxDatapoints, service);
      f.state == Present(RowsOf(WithHeader(old(f.state), Header)) + HitRows(run.written)) && outcome == run.outcome
  {
    var _ := InitializeResultsFile(f);
    outcome := ProcessDatapoints(f, rows, 0, MaxDatapoints, service);
  }

  /** From an index at or past `start`, row i written is input row i, searched successfully at datapoint index index + i. */
  lemma {:induction false} WrittenInOrder(rows: seq<QA>, index: int, start: int, maxDatapoints: int,
                                          service: (int, string, nat) -> Response)
    requires index >= start
    ensures var run := Process(rows, index, start, maxDatapoints, service);
      forall i :: 0 <= i < |run.written| ==>
        i < |rows| &&
        SearchAt(service, index + i, rows[i].question).Success? &&
        run.written[i] == Hit(rows[i], SearchAt(service, index + i, rows[i].question).value)
    decreases |rows|
  {
    if rows != [] && index < maxDatapoints && SearchAt(service, index, rows[0].question).Success? {
      var tail := rows[1..];
      WrittenInOrder(tail, index + 1, start, maxDatapoints, service);
      var run := Process(rows, index, start, maxDatapoints, service);
      var rest := Process(tail, index + 1, start, maxDatapoints, service);
      assert run.written == [Hit(rows[0], SearchAt(service, index, rows[0].question).value)] + rest.written;
      forall i | 0 <= i < |run.written|
        ensures i < |rows| && SearchAt(service, index + i, rows[i].question).Success? &&
          run.written[i] == Hit(rows[i], SearchAt(service, index + i, rows[i].question).value)
      {
        if i > 0 {
          var j := i - 1;
          assert run.written[i] == rest.written[j];
          assert tail[j] == rows[i] && index + 1 + j == index + i;
        }
      }
    }
  }

  /**
   * From an index at or past `start`, at most min(|rows|, max(0, maxDatapoints - index))
   * rows are written; the run aborts exactly when fewer were written, at a search
   * that failed, and otherwise ends by the cap or by exhausting the input.
   */
  lemma {:induction false} RunEnds(rows: seq<QA>, index: int, start: int, maxDatapoints: int,
                                   service: (int, string, nat) -> Response)
    requires index >= start
    ensures var run := Process(rows, index, start, maxDatapoints, service);
      var budget := Min(|rows|, Max(0, maxDatapoints - index));
      && |run.written| <= budget
      && (run.outcome.Aborted? <==> |run.written| < budget)
      && (run.outcome.Aborted? ==>
            SearchAt(service, index + |run.written|, rows[|run.written|].question).Failure?)
      && (|run.written| == budget ==> run.outcome == if |rows| > budget then CapReached else Exhausted)
    decreases |rows|
  {
    var run := Process(rows, index, start, maxDatapoints, service);
    var budget := Min(|rows|, Max(0, maxDatapoints - index));
    if rows == [] || index >= maxDatapoints {
      assert budget == 0 && run.written == [];
    } else if SearchAt(service, index, rows[0].question).Failure? {
      assert run == Run([], Aborted(SearchAt(service, index, rows[0].question).error));
    } else {
      var tail := rows[1..];
      RunEnds(tail, index + 1, start, maxDatapoints, service);
      var rest := Process(tail, index + 1, start, maxDatapoints, service);
      assert run.written == [Hit(rows[0], SearchAt(service, index, rows[0].question).value)] + rest.written;
      assert run.outcome == rest.outcome;
      assert Min(|tail|, Max(0, maxDatapoints - (index + 1))) == budget - 1;
      if rest.outcome.Aborted? {
        var w := |rest.written|;
        assert tail[w] == rows[w + 1] && index + 1 + w == index + (w + 1);
      }
    }
  }

  /**
   * From an index at or past `start`, a run handles rows 0, 1, ... in order, row i
   * at datapoint index index + i, up to min(|rows|, max(0, maxDatapoints - index))
   * of them; it stops early only at a search that fails, and otherwise ends by the
   * cap or by exhausting the input.
   */
  lemma ProcessFromIndex(rows: seq<QA>, index: int, start: int, maxDatapoints: int,
                         service: (int, string, nat) -> Response)
    requires index >= start
    ensures var run := Process(rows, index, start, maxDatapoints, service);
      var budget := Min(|rows|, Max(0, maxDatapoints - index));
      && |run.written| <= budget
      && (forall i :: 0 <= i < |run.written| ==>
            SearchAt(service, index + i, rows[i].question).Success? &&
            run.written[i] == Hit(rows[i], SearchAt(service, index + i, rows[i].question).value))
      && (run.outcome.Aborted? <==> |run.written| < budget)
      && (run.outcome.Aborted? ==>
            SearchAt(service, index + |run.written|, rows[|run.written|].question).Failure?)
      && (|run.written| == budget ==> run.outcome == if |rows| > budget then CapReached else Exhausted)
  {
    WrittenInOrder(rows, index, start, maxDatapoints, service);
    RunEnds(rows, index, start, maxDatapoints, service);
  }

  /** When every search succeeds, exactly min(|rows|, max(0, maxDatapoints - start)) rows are written. */
  lemma RowsWritten(rows: seq<QA>, start: int, maxDatapoints: int, service: (int, string, nat) -> Response)
    requires forall i :: 0 <= i < |rows| ==> SearchAt(service, start + i, rows[i].question).Success?
    ensures |Process(rows, start, start, maxDatapoints, service).written| == Min(|rows|, Max(0, maxDatapoints - start))
    ensures !Process(rows, start, start, maxDatapoints, service).outcome.Aborted?
  {
    ProcessFromIndex(rows, start, start, maxDatapoints, service);
  }

  /** As written, a start index of 1 does not skip row 0: the first row written is the first input row. */
  lemma StartIndexDoesNotSkip()
    ensures var rows := [QA("q0", "a0"), QA("q1", "a1")];
      var service := (index: int, q: string, attempt: nat) => Response(true, []);
      Process(rows, 1, 1, MaxDatapoints, service).written[0].qa.question == "q0"
  {
    var rows := [QA("q0", "a0"), QA("q1", "a1")];
    var service := (index: int, q: string, attempt: nat) => Response(true, []);
    ProcessFromIndex(rows, 1, 1, MaxDatapoints, service);
  }

  /**
   * The same question on two rows is searched afresh on each: a service that
   * answers only on the first row lets the run write that row and then abort
   * on the second.
   */
  lemma RepeatedQuestionSearchedAgain()
    ensures var rows := [QA("q", "a1"), QA("q", "a2")];
      var service := (index: int, q: string, attempt: nat) => Response(index == 0, []);
      var run := Process(rows, 0, 0, MaxDatapoints, service);
      |run.written| == 1 && run.written[0].qa.answer == "a1" && run.outcome == Aborted(RetryExhausted)
  {
    var rows := [QA("q", "a1"), QA("q", "a2")];
    var service := (index: int, q: string, attempt: nat) => Response(index == 0, []);
    assert SearchAt(service, 0, "q").Success?;
    assert SearchAt(service, 1, "q") == Failure(RetryExhausted);
    assert rows[1..][1..] == [];
  }

  /** Starting at index 0, the first `start - index` rows are passed over before anything is searched. */
  lemma {:induction false} SkipPrefix(rows: seq<QA>, index: int, start: int, maxDatapoints: int,
                                      service: (int, string, nat) -> Response)
    requires index <= start <= maxDatapoints
    requires start - index <= |rows|
    ensures Process(rows, index, start, maxDatapoints, service)
         == Process(rows[start - index..], start, start, maxDatapoints, service)
    decreases start - index
  {
    if index < start {
      SkipPrefix(rows[1..], index + 1, start, maxDatapoints, service);
      assert rows[1..][start - index - 1..] == rows[start - index..];
    }
  }

  /**
   * For a run from datapoint index `index` up to `start`: hit i of `written` is input
   * row (start - index) + i, searched successfully at datapoint index start + i.
   */
  predicate ResumedRow(written: seq<Hit>, rows: seq<QA>, index: int, start: int,
                       service: (int, string, nat) -> Response, i: int)
  {
    && 0 <= i < |written|
    && 0 <= start - index + i < |rows|
    && SearchAt(service, start + i, rows[start - index + i].question).Success?
    && written[i] == Hit(rows[start - index + i], SearchAt(service, start + i, rows[start - index + i].question).value)
  }

  /** From an index at or below `start`, nothing is written when the cap or the end of the input comes before the start. */
  lemma {:induction false} SkipsAll(rows: seq<QA>, index: int, start: int, maxDatapoints: int,
                                    service: (int, string, nat) -> Response)
    requires index <= start
    requires maxDatapoints < start || |rows| < start - index
    ensures Process(rows, index, start, maxDatapoints, service).written == []
    decreases |rows|
  {
    if rows != [] && index < maxDatapoints {
      SkipsAll(rows[1..], index + 1, start, maxDatapoints, service);
    }
  }

  /**
   * From an index at or below `start`, the rows before the start are passed over:
   * hit i is input row (start - index) + i, searched at datapoint index start + i.
   */
  lemma {:induction false} ResumeOrder(rows: seq<QA>, index: int, start: int, maxDatapoints: int,
                                       service: (int, string, nat) -> Response)
    requires index <= start
    ensures var run := Process(rows, index, start, maxDatapoints, service);
      forall i :: 0 <= i < |run.written| ==> ResumedRow(run.written, rows, index, start, service, i)
  {
    var run := Process(rows, index, start, maxDatapoints, service);
    if start <= maxDatapoints && start - index <= |rows| {
      var skipped := start - index;
      var suffix := rows[skipped..];
      SkipPrefix(rows, index, start, maxDatapoints, service);
      WrittenInOrder(suffix, start, start, maxDatapoints, service);
      var later := Process(suffix, start, start, maxDatapoints, service);
      assert run == later;
      forall i | 0 <= i < |run.written|
        ensures ResumedRow(run.written, rows, index, start, service, i)
      {
        assert run.written[i] == later.written[i] && i < |suffix|;
        assert suffix[i] == rows[skipped + i];
      }
    } else {
      SkipsAll(rows, index, start, maxDatapoints, service);
    }
  }

  /**
   * From an index at or below `start`, when every search succeeds,
   * max(0, min(|rows|, max(0, maxDatapoints - index)) - (start - index)) rows are written.
   */
  lemma {:induction false} ResumeCount(rows: seq<QA>, index: int, start: int, maxDatapoints: int,
                                       service: (int, string, nat) -> Response)
    requires index <= start
    requires forall i :: 0 <= i < |rows| ==> SearchAt(service, index + i, rows[i].question).Success?
    ensures |Process(rows, index, start, maxDatapoints, service).written| ==
      Max(0, Min(|rows|, Max(0, maxDatapoints - index)) - (start - index))
    decreases |rows|
  {
    if index == start {
      RowsWritten(rows, start, maxDatapoints, service);
    } else if rows != [] && index < maxDatapoints {
      var tail := rows[1..];
      forall j | 0 <= j < |tail|
        ensures SearchAt(service, index + 1 + j, tail[j].question).Success?
      {
        assert tail[j] == rows[j + 1] && index + 1 + j == index + (j + 1);
      }
      ResumeCount(tail, index + 1, start, maxDatapoints, service);
      assert Min(|tail|, Max(0, maxDatapoints - (index + 1))) == Min(|rows|, Max(0, maxDatapoints - index)) - 1;
    } else {
      assert Min(|rows|, Max(0, maxDatapoints - index)) - (start - index) <= 0;
    }
  }

  /**
   * With the index starting at 0, any start s >= 0 writes rows s, s + 1, ..., row
   * s + i searched at datapoint index s + i; when every search succeeds there are
   * max(0, min(|rows|, max(0, maxDatapoints)) - s) of them, none when s is past the
   * input or the cap.
   */
  lemma {:induction false} ResumeSkipsStart(rows: seq<QA>, start: int, maxDatapoints: int, service: (int, string, nat) -> Response)
    requires 0 <= start
    ensures var run := Process(rows, 0, start, maxDatapoints, service);
      forall i :: 0 <= i < |run.written| ==> ResumedRow(run.written, rows, 0, start, service, i)
    ensures (forall i :: 0 <= i < |rows| ==> SearchAt(service, i, rows[i].question).Success?) ==>
      |Process(rows, 0, start, maxDatapoints, service).written| == Max(0, Min(|rows|, Max(0, maxDatapoints)) - start)
  {
    ResumeOrder(rows, 0, start, maxDatapoints, service);
    if forall i :: 0 <= i < |rows| ==> SearchAt(service, i, rows[i].question).Success? {
      ResumeCount(rows, 0, start, maxDatapoints, service);
    }
  }

  /** A first reply that fails followed by one that succeeds gives the second reply's context after exactly two calls. */
  lemma RetryThenSuccess(query: string, service: (string, nat) -> Response)
    requires !service(query, 0).ok && service(query, 1).ok
    ensures SearchOutcome(query, service) == Success(PongoContext(service(query, 1).docs))
  {
  }
}

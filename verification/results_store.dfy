/**
 * The results table as an abstract file: absent, or present with its rows.
 * Opening for reading tests existence, opening for writing truncates,
 * opening for appending creates the file when it is absent.
 */
module ResultsStore {
  import opened Common

  datatype FileState = Absent | Present(rows: seq<Row>)

  /** The rows of the file; an absent file has none. */
  function RowsOf(s: FileState): seq<Row>
  {
    if s.Present? then s.rows else []
  }

  /** The file after the header-once initialisation: a header row only if it was absent. */
  function WithHeader(s: FileState, header: Row): FileState
  {
    if s.Absent? then Present([header]) else s
  }

  /** Initialising twice is initialising once: an absent file ends with exactly one header row, and an existing one is never rewritten. */
  lemma HeaderOnce(s: FileState, header: Row)
    ensures WithHeader(WithHeader(s, header), header) == WithHeader(s, header)
    ensures s.Absent? ==> RowsOf(WithHeader(WithHeader(s, header), header)) == [header]
    ensures s.Present? ==> WithHeader(s, header) == s
  {
  }

  class ResultsFile {
    var state: FileState

    constructor (initial: FileState)
      ensures state == initial
    {
      state := initial;
    }

    /** Opening the file for reading succeeds exactly when it exists. */
    method Exists() returns (b: bool)
      ensures b <==> state.Present?
    {
      b := state.Present?;
    }

    /** Opening with 'w' and writing one row: whatever was there is replaced. */
    method Create(header: Row)
      modifies this
      ensures state == Present([header])
    {
      state := Present([header]);
    }

    /** Opening with 'a': an absent file is created empty, an existing one is kept. */
    method OpenForAppend()
      modifies this
      ensures state == Present(RowsOf(old(state)))
    {
      state := Present(RowsOf(state));
    }

    /** Writing one row at the end of an open file. */
    method Append(row: Row)
      requires state.Present?
      modifies this
      ensures state == Present(old(state).rows + [row])
    {
      state := Present(state.rows + [row]);
    }
  }
}

/** Values shared by every part of the benchmark model. */
module Common {

  datatype Option<T> = None | Some(value: T)

  datatype Result<T, E> = Success(value: T) | Failure(error: E)

  /** One row of the question table: its `question` and `answer` columns. */
  datatype QA = QA(question: string, answer: string)

  /** One row of a results table: its three columns, in order. */
  datatype Row = Row(question: string, answer: string, context: string)

  function Min(a: int, b: int): int { if a <= b then a else b }

  function Max(a: int, b: int): int { if a >= b then a else b }

  /** Sum of the lengths of the strings, in characters. */
  function TotalLength(ss: seq<string>): nat
  {
    if ss == [] then 0 else TotalLength(ss[..|ss| - 1]) + |ss[|ss| - 1]|
  }

  /** The strings joined with no separator (Python's `''.join`). */
  function Concat(ss: seq<string>): (r: string)
    ensures |r| == TotalLength(ss)
  {
    if ss == [] then [] else Concat(ss[..|ss| - 1]) + ss[|ss| - 1]
  }

  /** A prefix one longer is the prefix followed by the next element. */
  lemma PrefixSnoc<T>(s: seq<T>, i: nat)
    requires i < |s|
    ensures s[..i + 1] == s[..i] + [s[i]]
  {
  }
}

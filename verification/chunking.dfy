/**
 * The transcript splitter that prepares podcast transcripts for blob
 * storage: a transcript's lines are cut, without splitting any line, into
 * chunks of roughly `approx_chunk_size` characters, each chunk written with
 * a `Title:`/`Body:` header naming the transcript.
 * Reading the directory and the files becomes parameters; the chunk files
 * are returned as values rather than written.
 */
module TranscriptChunker {
  import opened Common

  const ApproxChunkSize := 900
  const TranscriptDirectory := "../../acquired_transcripts"

  /** One chunk: its position in the transcript, the title in its header and its body lines. */
  datatype Chunk = Chunk(index: nat, title: string, body: seq<string>)

  /** The header every chunk begins with. */
  function Header(title: string): string
  {
    "Title: " + title + "\nBody:\n"
  }

  /** The text written for a chunk: the header, then the body lines joined. */
  function ChunkText(c: Chunk): string
  {
    Header(c.title) + Concat(c.body)
  }

  /** Joining the list that starts with the header gives the header followed by the joined body. */
  lemma {:induction false} JoinAfterHeader(header: string, body: seq<string>)
    ensures Concat([header] + body) == header + Concat(body)
  {
    if body != [] {
      var init := body[..|body| - 1];
      JoinAfterHeader(header, init);
      assert ([header] + body)[..|body|] == [header] + init;
    }
  }

  // ---------------------------------------------------------------------
  // Titles: os.path.basename followed by os.path.splitext

  /** Index of the last occurrence of `c` in `s`, or -1. */
  function LastIndexOf(s: string, c: char): (r: int)
    ensures -1 <= r < |s|
    ensures r >= 0 ==> s[r] == c
    ensures forall i :: r < i < |s| ==> s[i] != c
  {
    if s == [] then -1
    else if s[|s| - 1] == c then |s| - 1
    else LastIndexOf(s[..|s| - 1], c)
  }

  /** The part of a path after its last '/'. */
  function BaseName(path: string): (r: string)
    ensures '/' !in r
    ensures |r| <= |path| && path[|path| - |r|..] == r
    ensures |r| < |path| ==> path[|path| - |r| - 1] == '/'
  {
    path[LastIndexOf(path, '/') + 1..]
  }

  /** Whether `s[..n]` holds a character other than '.'. */
  predicate HasNonDot(s: string, n: int)
    requires 0 <= n <= |s|
  {
    exists i :: 0 <= i < n && s[i] != '.'
  }

  /**
   * The root of os.path.splitext on a name with no '/': the part before the
   * last '.', unless every character before that dot is a dot, in which case
   * the name is its own root.
   */
  function StripExtension(name: string): (r: string)
    ensures |r| <= |name| && name[..|r|] == r
    ensures r == name || (name[|r|] == '.' && '.' !in name[|r| + 1..] && HasNonDot(name, |r|))
    ensures (exists i, d :: 0 <= i < d < |name| && name[d] == '.' && name[i] != '.') ==> r != name
  {
    var dot := LastIndexOf(name, '.');
    if dot >= 0 && HasNonDot(name, dot) then name[..dot]
    else
      assert forall i, d :: 0 <= i < d < |name| && name[d] == '.' && name[i] != '.' ==> d <= dot && HasNonDot(name, dot);
      name
  }

  /** The title written in each chunk header of the transcript at `path`. */
  function ChunkTitle(path: string): string
  {
    StripExtension(BaseName(path))
  }

  function EndsWith(s: string, suffix: string): bool
  {
    |suffix| <= |s| && s[|s| - |suffix|..] == suffix
  }

  /** os.path.join of a directory and a relative name. */
  function JoinPath(directory: string, name: string): string
  {
    if |name| > 0 && name[0] == '/' then name
    else if directory == [] || EndsWith(directory, "/") then directory + name
    else directory + "/" + name
  }

  /**
   * The title of a `.txt` directory entry: the entry without `.txt` when that
   * leaves a character other than '.', and the whole entry otherwise.
   */
  lemma ChunkTitleOfTranscript(name: string)
    requires EndsWith(name, ".txt") && '/' !in name
    ensures var stem := name[..|name| - 4];
      ChunkTitle(JoinPath(TranscriptDirectory, name)) == if HasNonDot(name, |stem|) then stem else name
  {
    var path := JoinPath(TranscriptDirectory, name);
    assert path == TranscriptDirectory + "/" + name;
    BaseNameAfterSlash(TranscriptDirectory, name);
    StripTxt(name);
  }

  /** The base name of `directory/name` is `name` when `name` has no '/'. */
  lemma BaseNameAfterSlash(directory: string, name: string)
    requires '/' !in name
    ensures BaseName(directory + "/" + name) == name
  {
    var path := directory + "/" + name;
    var slash := LastIndexOf(path, '/');
    assert path[|directory|] == '/';
    assert forall i :: |directory| < i < |path| ==> path[i] == name[i - |directory| - 1];
    assert slash == |directory|;
  }

  /** Stripping the extension of a `.txt` name removes `.txt`, unless only dots precede it. */
  lemma StripTxt(name: string)
    requires EndsWith(name, ".txt")
    ensures var stem := name[..|name| - 4];
      StripExtension(name) == if HasNonDot(name, |stem|) then stem else name
  {
    var dot := LastIndexOf(name, '.');
    assert name[|name| - 4] == '.';
    assert dot == |name| - 4;
  }

  // ---------------------------------------------------------------------
  // The chunking of one transcript

  /** The lines of the bodies, in order. */
  function Lines(bodies: seq<seq<string>>): seq<string>
  {
    if bodies == [] then [] else Lines(bodies[..|bodies| - 1]) + bodies[|bodies| - 1]
  }

  /** The state of the splitting loop: bodies already flushed, the open body and its count. */
  datatype Scan = Scan(flushed: seq<seq<string>>, open: seq<string>, count: int)

  /**
   * One turn of the splitting loop: the line is counted first; when the count
   * reaches the threshold the open body is flushed without the line, and the
   * line opens the next body with the count restarted at its length.
   */
  function Step(s: Scan, line: string, approx: int): Scan
  {
    if s.count + |line| >= approx then Scan(s.flushed + [s.open], [line], |line|)
    else Scan(s.flushed, s.open + [line], s.count + |line|)
  }

  /** The splitting loop after the lines `lines`, one line at a time. */
  function ScanLines(lines: seq<string>, approx: int): Scan
  {
    if lines == [] then Scan([], [], 0)
    else Step(ScanLines(lines[..|lines| - 1], approx), lines[|lines| - 1], approx)
  }

  /** The bodies written: the flushed ones, then the open one if it holds a line. */
  function Bodies(lines: seq<string>, approx: int): seq<seq<string>>
  {
    var s := ScanLines(lines, approx);
    if |s.open| > 0 then s.flushed + [s.open] else s.flushed
  }

  /** Bodies numbered from 0 under one title. */
  function Numbered(title: string, bodies: seq<seq<string>>): seq<Chunk>
  {
    seq(|bodies|, i requires 0 <= i < |bodies| => Chunk(i, title, bodies[i]))
  }

  /** The chunks of a transcript with title `title`. */
  function Chunks(title: string, lines: seq<string>, approx: int): seq<Chunk>
  {
    Numbered(title, Bodies(lines, approx))
  }

  /** The count after the first `n` lines of a body. */
  function RunningCount(body: seq<string>, n: int): nat
    requires 0 <= n <= |body|
  {
    TotalLength(body[..n])
  }

  /** Every prefix of `body` longer than `from` lines stays under the threshold. */
  predicate BelowThreshold(body: seq<string>, from: nat, approx: int)
  {
    forall n :: from < n <= |body| ==> RunningCount(body, n) < approx
  }

  /**
   * How many leading lines of chunk `j` are exempt from the threshold: none
   * for chunk 0, whose count starts at 0, and the first for every later one,
   * which is the line that triggered the flush before it.
   */
  function Exempt(j: nat): nat
  {
    if j == 0 then 0 else 1
  }

  /** Every body after the first holds a line. */
  predicate LaterNonEmpty(all: seq<seq<string>>)
  {
    forall j :: 0 < j < |all| ==> |all[j]| >= 1
  }

  /** Each body was flushed because the next body's first line brought the count to the threshold. */
  predicate Triggered(all: seq<seq<string>>, approx: int)
    requires LaterNonEmpty(all)
  {
    forall j :: 0 <= j < |all| - 1 ==> TotalLength(all[j]) + |all[j + 1][0]| >= approx
  }

  /** No body was flushed earlier than it had to be. */
  predicate NoEarlyFlush(all: seq<seq<string>>, approx: int)
  {
    forall j :: 0 <= j < |all| ==> BelowThreshold(all[j], Exempt(j), approx)
  }

  /** The flushed bodies followed by the open one, after the lines `lines`. */
  function All(lines: seq<string>, approx: int): (r: seq<seq<string>>)
    ensures |r| >= 1
  {
    var s := ScanLines(lines, approx);
    s.flushed + [s.open]
  }

  /** Whether reading `line` after `lines` flushes the open body. */
  predicate Flushes(lines: seq<string>, line: string, approx: int)
  {
    ScanLines(lines, approx).count + |line| >= approx
  }

  /** One more line, as the loop reads it. */
  lemma ScanSnoc(lines: seq<string>, line: string, approx: int)
    ensures ScanLines(lines + [line], approx) == Step(ScanLines(lines, approx), line, approx)
  {
    assert (lines + [line])[..|lines|] == lines;
  }

  /** One more line either closes the open body and opens `[line]`, or extends the open body. */
  lemma AllSnoc(lines: seq<string>, line: string, approx: int)
    ensures var all := All(lines, approx);
      var k := |all| - 1;
      All(lines + [line], approx) == if Flushes(lines, line, approx) then all + [[line]] else all[..k] + [all[k] + [line]]
  {
    var s := ScanLines(lines, approx);
    ScanSnoc(lines, line, approx);
    assert (s.flushed + [s.open])[..|s.flushed|] == s.flushed;
  }

  lemma TotalLengthSnoc(b: seq<string>, line: string)
    ensures TotalLength(b + [line]) == TotalLength(b) + |line|
  {
    assert (b + [line])[..|b|] == b;
  }

  /** The loop's count is the length of the open body. */
  lemma {:induction false} CountOfOpen(lines: seq<string>, approx: int)
    ensures ScanLines(lines, approx).count == TotalLength(All(lines, approx)[|All(lines, approx)| - 1])
  {
    if lines != [] {
      var init := lines[..|lines| - 1];
      var line := lines[|lines| - 1];
      CountOfOpen(init, approx);
      assert lines == init + [line];
      var p := ScanLines(init, approx);
      if Flushes(init, line, approx) {
        TotalLengthSnoc([], line);
      } else {
        TotalLengthSnoc(p.open, line);
      }
    }
  }

  lemma LinesSnoc(bodies: seq<seq<string>>, body: seq<string>)
    ensures Lines(bodies + [body]) == Lines(bodies) + body
  {
    assert (bodies + [body])[..|bodies|] == bodies;
  }

  /** Extending the last body by a line extends the joined lines by that line. */
  lemma LinesExtendLast(bodies: seq<seq<string>>, line: string)
    requires |bodies| >= 1
    ensures var k := |bodies| - 1;
      Lines(bodies[..k] + [bodies[k] + [line]]) == Lines(bodies) + [line]
  {
    var k := |bodies| - 1;
    LinesSnoc(bodies[..k], bodies[k] + [line]);
    assert Lines(bodies) == Lines(bodies[..k]) + bodies[k];
    assert Lines(bodies[..k]) + (bodies[k] + [line]) == (Lines(bodies[..k]) + bodies[k]) + [line];
  }

  /** The bodies of the loop, open one included, hold exactly the lines read. */
  lemma {:induction false} AllJoin(lines: seq<string>, approx: int)
    ensures Lines(All(lines, approx)) == lines
  {
    if lines == [] {
      var all := All(lines, approx);
      assert all == [[]];
      assert all[..0] == [];
    } else {
      var init := lines[..|lines| - 1];
      var line := lines[|lines| - 1];
      AllJoin(init, approx);
      AllSnoc(init, line, approx);
      var all := All(init, approx);
      if Flushes(init, line, approx) {
        LinesSnoc(all, [line]);
      } else {
        LinesExtendLast(all, line);
      }
      assert init + [line] == lines;
    }
  }

  /** Every body after the first, open one included, holds a line. */
  lemma {:induction false} AllLaterNonEmpty(lines: seq<string>, approx: int)
    ensures LaterNonEmpty(All(lines, approx))
  {
    if lines != [] {
      var init := lines[..|lines| - 1];
      var line := lines[|lines| - 1];
      AllLaterNonEmpty(init, approx);
      AllSnoc(init, line, approx);
      assert lines == init + [line];
      var all := All(init, approx);
      var all' := All(lines, approx);
      forall j | 0 < j < |all'|
        ensures |all'[j]| >= 1
      {
        if j < |all| - 1 {
          assert all'[j] == all[j];
        }
      }
    }
  }

  /** Every flush was caused by the first line of the body after it. */
  lemma {:induction false} AllTriggered(lines: seq<string>, approx: int)
    ensures LaterNonEmpty(All(lines, approx)) && Triggered(All(lines, approx), approx)
  {
    AllLaterNonEmpty(lines, approx);
    if lines != [] {
      var init := lines[..|lines| - 1];
      var line := lines[|lines| - 1];
      AllTriggered(init, approx);
      CountOfOpen(init, approx);
      AllSnoc(init, line, approx);
      assert lines == init + [line];
      var all := All(init, approx);
      var all' := All(lines, approx);
      forall j | 0 <= j < |all'| - 1
        ensures TotalLength(all'[j]) + |all'[j + 1][0]| >= approx
      {
        assert all'[j] == all[j];
        if j + 1 < |all| {
          assert all'[j + 1][0] == all[j + 1][0];
        }
      }
    }
  }

  /** No body was flushed before the line that triggered it. */
  lemma {:induction false} AllNoEarlyFlush(lines: seq<string>, approx: int)
    ensures NoEarlyFlush(All(lines, approx), approx)
  {
    if lines == [] {
      assert All(lines, approx) == [[]];
      assert BelowThreshold([], Exempt(0), approx);
    } else {
      var init := lines[..|lines| - 1];
      var line := lines[|lines| - 1];
      AllNoEarlyFlush(init, approx);
      CountOfOpen(init, approx);
      AllSnoc(init, line, approx);
      assert lines == init + [line];
      var all := All(init, approx);
      var all' := All(lines, approx);
      var k := |all| - 1;
      if Flushes(init, line, approx) {
        NoEarlyAfterFlush(all, line, approx);
      } else {
        NoEarlyAfterAppend(all, line, approx);
      }
    }
  }

  lemma NoEarlyAfterFlush(all: seq<seq<string>>, line: string, approx: int)
    requires |all| >= 1 && NoEarlyFlush(all, approx)
    ensures NoEarlyFlush(all + [[line]], approx)
  {
    var all' := all + [[line]];
    forall j | 0 <= j < |all'|
      ensures BelowThreshold(all'[j], Exempt(j), approx)
    {
      if j < |all| {
        assert all'[j] == all[j];
      } else {
        assert all'[j] == [line];
        assert j > 0;
      }
    }
  }

  lemma NoEarlyAfterAppend(all: seq<seq<string>>, line: string, approx: int)
    requires |all| >= 1 && NoEarlyFlush(all, approx)
    requires TotalLength(all[|all| - 1]) + |line| < approx
    ensures var k := |all| - 1;
      NoEarlyFlush(all[..k] + [all[k] + [line]], approx)
  {
    var k := |all| - 1;
    var all' := all[..k] + [all[k] + [line]];
    forall j | 0 <= j < |all'|
      ensures BelowThreshold(all'[j], Exempt(j), approx)
    {
      if j < k {
        assert all'[j] == all[j];
      } else {
        assert BelowThreshold(all[k], Exempt(k), approx);
        GrowKeepsBelow(all[k], line, Exempt(k), approx);
      }
    }
  }

  /** A line that keeps the count under the threshold keeps every prefix under it. */
  lemma GrowKeepsBelow(b: seq<string>, line: string, from: nat, approx: int)
    requires BelowThreshold(b, from, approx)
    requires TotalLength(b) + |line| < approx
    ensures BelowThreshold(b + [line], from, approx)
  {
    TotalLengthSnoc(b, line);
    forall n | from < n <= |b| + 1
      ensures RunningCount(b + [line], n) < approx
    {
      if n <= |b| {
        assert (b + [line])[..n] == b[..n];
        assert RunningCount(b, n) < approx;
      } else {
        assert (b + [line])[..n] == b + [line];
      }
    }
  }

  /** The first body is empty exactly when the first line alone reached the threshold. */
  lemma {:induction false} AllFirst(lines: seq<string>, approx: int)
    requires lines != []
    ensures All(lines, approx)[0] == [] <==> |lines[0]| >= approx
  {
    var init := lines[..|lines| - 1];
    var line := lines[|lines| - 1];
    AllSnoc(init, line, approx);
    assert lines == init + [line];
    var all := All(init, approx);
    if init == [] {
      assert all == [[]];
      assert lines[0] == line;
    } else {
      AllFirst(init, approx);
      assert lines[0] == init[0];
      if |all| == 1 {
        AllJoin(init, approx);
        assert Lines(all) == Lines(all[..0]) + all[0];
        assert all[0] == init;
      }
    }
  }

  /** The open body is empty exactly when no line has been read. */
  lemma OpenEmptyIffNoLines(lines: seq<string>, approx: int)
    ensures ScanLines(lines, approx).open == [] <==> lines == []
  {
  }

  /**
   * What split_into_chunks writes, as properties of its bodies: together they
   * are exactly the input lines; there are none exactly when there are no
   * lines; every body but the first holds a line, and so does the last; a
   * flush happens exactly when the line that starts the next body brings the
   * count to the threshold, and no earlier line did; and the first body is
   * empty exactly when the first line alone reaches the threshold.
   */
  lemma BodiesPartition(lines: seq<string>, approx: int)
    ensures var bodies := Bodies(lines, approx);
      && Lines(bodies) == lines
      && (bodies == [] <==> lines == [])
      && LaterNonEmpty(bodies)
      && (|bodies| > 0 ==> |bodies[|bodies| - 1]| >= 1)
      && Triggered(bodies, approx)
      && NoEarlyFlush(bodies, approx)
      && (lines != [] ==> (bodies[0] == [] <==> |lines[0]| >= approx))
  {
    OpenEmptyIffNoLines(lines, approx);
    if lines == [] {
      assert Bodies(lines, approx) == [];
    } else {
      assert Bodies(lines, approx) == All(lines, approx);
      AllJoin(lines, approx);
      AllTriggered(lines, approx);
      AllNoEarlyFlush(lines, approx);
      AllFirst(lines, approx);
    }
  }

  /** Every chunk is under the threshold or is a single line. */
  lemma ChunkSizeBound(lines: seq<string>, approx: int, j: int)
    requires 0 <= j < |Bodies(lines, approx)|
    ensures var b := Bodies(lines, approx)[j];
      |b| <= 1 || TotalLength(b) < approx
  {
    BodiesPartition(lines, approx);
    var b := Bodies(lines, approx)[j];
    if |b| > 1 {
      assert BelowThreshold(b, Exempt(j), approx);
      assert RunningCount(b, |b|) < approx;
      assert b[..|b|] == b;
    }
  }

  lemma NumberedSnoc(title: string, bodies: seq<seq<string>>, body: seq<string>)
    ensures Numbered(title, bodies + [body]) == Numbered(title, bodies) + [Chunk(|bodies|, title, body)]
  {
  }

  /** The texts written for the chunks, in order. */
  function ChunkTexts(chunks: seq<Chunk>): seq<string>
  {
    seq(|chunks|, i requires 0 <= i < |chunks| => ChunkText(chunks[i]))
  }

  lemma ChunkTextsSnoc(chunks: seq<Chunk>, c: Chunk)
    ensures ChunkTexts(chunks + [c]) == ChunkTexts(chunks) + [ChunkText(c)]
  {
    assert forall i :: 0 <= i < |chunks| ==> (chunks + [c])[i] == chunks[i];
  }

  /** One more line of a transcript is one more turn of the loop. */
  lemma ScanPrefixStep(lines: seq<string>, k: nat, approx: int)
    requires k < |lines|
    ensures ScanLines(lines[..k + 1], approx) == Step(ScanLines(lines[..k], approx), lines[k], approx)
  {
    assert lines[..k + 1] == lines[..k] + [lines[k]];
    ScanSnoc(lines[..k], lines[k], approx);
  }

  /** Writing out the current chunk: the chunk numbered `index` with the lines after the header, and its text. */
  method Flush(title: string, index: nat, currentChunk: seq<string>) returns (chunk: Chunk, text: string)
    requires |currentChunk| >= 1 && currentChunk[0] == Header(title)
    ensures chunk == Chunk(index, title, currentChunk[1..])
    ensures text == Header(title) + Concat(currentChunk[1..])
  {
    chunk := Chunk(index, title, currentChunk[1..]);
    text := Concat(currentChunk);
    assert currentChunk == [Header(title)] + currentChunk[1..];
    JoinAfterHeader(Header(title), currentChunk[1..]);
  }

  /** How the loop's variables stand for the scan: the open body after the header, its count, and the chunks written so far. */
  predicate Tracks(title: string, scan: Scan, currentChunk: seq<string>, currentCount: int, chunkIndex: int,
                   chunks: seq<Chunk>, written: seq<string>)
  {
    && currentChunk == [Header(title)] + scan.open
    && currentCount == scan.count
    && chunks == Numbered(title, scan.flushed)
    && chunkIndex == |scan.flushed|
    && written == ChunkTexts(chunks)
  }

  /** One turn of the loop of split_into_chunks: count the line, flush the chunk if the count reached the threshold, then append the line. */
  method ReadLine(title: string, approxChunkSize: int, line: string, ghost scan: Scan,
                  currentChunk: seq<string>, currentCount: int, chunkIndex: int, chunks: seq<Chunk>, written: seq<string>)
      returns (currentChunk': seq<string>, currentCount': int, chunkIndex': int, chunks': seq<Chunk>, written': seq<string>)
    requires Tracks(title, scan, currentChunk, currentCount, chunkIndex, chunks, written)
    ensures Tracks(title, Step(scan, line, approxChunkSize), currentChunk', currentCount', chunkIndex', chunks', written')
  {
    currentChunk', currentCount', chunkIndex', chunks', written' := currentChunk, currentCount, chunkIndex, chunks, written;
    currentCount' := currentCount' + |line|;
    if currentCount' >= approxChunkSize {
      var chunk, text := Flush(title, chunkIndex', currentChunk');
      NumberedSnoc(title, scan.flushed, scan.open);
      ChunkTextsSnoc(chunks', chunk);
      chunks', written' := chunks' + [chunk], written' + [text];
      currentChunk' := [Header(title)];
      currentCount' := |line|;
      chunkIndex' := chunkIndex' + 1;
    }
    currentChunk' := currentChunk' + [line];
  }

  /**
   * split_into_chunks, returning the chunks and the texts written for them
   * instead of writing files.
   */
  method SplitIntoChunks(filePath: string, fileContent: seq<string>, approxChunkSize: int)
      returns (chunks: seq<Chunk>, written: seq<string>)
    ensures chunks == Chunks(ChunkTitle(filePath), fileContent, approxChunkSize)
    ensures written == ChunkTexts(chunks)
  {
    var baseFilename := StripExtension(BaseName(filePath));
    var currentChunk := [Header(baseFilename)];
    var currentCount := 0;
    var chunkIndex := 0;
    chunks, written := [], [];
    ghost var scan := Scan([], [], 0);
    for k := 0 to |fileContent|
      invariant scan == ScanLines(fileContent[..k], approxChunkSize)
      invariant Tracks(baseFilename, scan, currentChunk, currentCount, chunkIndex, chunks, written)
    {
      ScanPrefixStep(fileContent, k, approxChunkSize);
      currentChunk, currentCount, chunkIndex, chunks, written :=
        ReadLine(baseFilename, approxChunkSize, fileContent[k], scan, currentChunk, currentCount, chunkIndex, chunks, written);
      scan := Step(scan, fileContent[k], approxChunkSize);
    }
    assert fileContent[..|fileContent|] == fileContent;
    if |currentChunk| > 1 {
      var chunk, text := Flush(baseFilename, chunkIndex, currentChunk);
      NumberedSnoc(baseFilename, scan.flushed, scan.open);
      ChunkTextsSnoc(chunks, chunk);
      chunks, written := chunks + [chunk], written + [text];
    }
  }

  // ---------------------------------------------------------------------
  // The whole transcript directory

  /** The directory entries whose names end in `.txt`, in listing order. */
  function TxtFiles(entries: seq<string>): (r: seq<string>)
    ensures |r| <= |entries|
  {
    if entries == [] then []
    else
      var last := entries[|entries| - 1];
      TxtFiles(entries[..|entries| - 1]) + if EndsWith(last, ".txt") then [last] else []
  }

  /** An entry is kept exactly when it is in the listing and its name ends in `.txt`. */
  lemma {:induction false} TxtFilesMembers(entries: seq<string>)
    ensures forall x :: x in TxtFiles(entries) <==> x in entries && EndsWith(x, ".txt")
  {
    if entries != [] {
      var init := entries[..|entries| - 1];
      TxtFilesMembers(init);
      assert entries == init + [entries[|entries| - 1]];
    }
  }

  /** Filtering a listing in two parts filters each part, keeping the order. */
  lemma {:induction false} TxtFilesAppend(a: seq<string>, b: seq<string>)
    ensures TxtFiles(a + b) == TxtFiles(a) + TxtFiles(b)
    decreases |b|
  {
    if b == [] {
      assert a + b == a;
    } else {
      var init := b[..|b| - 1];
      var last := b[|b| - 1];
      TxtFilesAppend(a, init);
      assert (a + b)[..|a + b| - 1] == a + init;
      assert (a + b)[|a + b| - 1] == last;
      var tail := if EndsWith(last, ".txt") then [last] else [];
      assert TxtFiles(a + b) == TxtFiles(a + init) + tail;
      assert TxtFiles(b) == TxtFiles(init) + tail;
    }
  }

  /** A transcript and the chunks made from it. */
  datatype ChunkedFile = ChunkedFile(name: string, chunks: seq<Chunk>)

  /** The chunks of the directory entry `name`, read through `read`. */
  function ChunkFile(name: string, read: string -> seq<string>): ChunkedFile
  {
    var path := JoinPath(TranscriptDirectory, name);
    ChunkedFile(name, Chunks(ChunkTitle(path), read(path), ApproxChunkSize))
  }

  /** The chunked files for the names, in order. */
  function ChunkFiles(names: seq<string>, read: string -> seq<string>): seq<ChunkedFile>
  {
    seq(|names|, i requires 0 <= i < |names| => ChunkFile(names[i], read))
  }

  /** One more entry of the listing is kept exactly when it ends in `.txt`. */
  lemma TxtFilesStep(entries: seq<string>, k: nat)
    requires k < |entries|
    ensures TxtFiles(entries[..k + 1]) == TxtFiles(entries[..k]) + if EndsWith(entries[k], ".txt") then [entries[k]] else []
  {
    assert entries[..k + 1][..k] == entries[..k];
  }

  /** Chunking one more name adds its chunked file at the end. */
  lemma ChunkFilesSnoc(names: seq<string>, name: string, read: string -> seq<string>)
    ensures ChunkFiles(names + [name], read) == ChunkFiles(names, read) + [ChunkFile(name, read)]
  {
    assert forall i :: 0 <= i < |names| ==> (names + [name])[i] == names[i];
  }

  /**
   * process_all_txt_files over a directory listing: every `.txt` entry, in
   * listing order, is chunked with the default size; nothing else is read.
   */
  method ProcessAllTxtFiles(entries: seq<string>, read: string -> seq<string>) returns (done: seq<ChunkedFile>)
    ensures |done| == |TxtFiles(entries)|
    ensures forall i :: 0 <= i < |done| ==> done[i] == ChunkFile(TxtFiles(entries)[i], read)
  {
    done := [];
    for k := 0 to |entries|
      invariant done == ChunkFiles(TxtFiles(entries[..k]), read)
    {
      var file := entries[k];
      TxtFilesStep(entries, k);
      if EndsWith(file, ".txt") {
        ChunkFilesSnoc(TxtFiles(entries[..k]), file, read);
        var filePath := JoinPath(TranscriptDirectory, file);
        var chunks, _ := SplitIntoChunks(filePath, read(filePath), ApproxChunkSize);
        done := done + [ChunkedFile(file, chunks)];
      }
    }
    assert entries[..|entries|] == entries;
  }
}

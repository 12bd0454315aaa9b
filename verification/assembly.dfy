/**
 * Bounded context assembly, shared by the three `build_context_string`
 * functions: documents are taken in rank order, each as a numbered block,
 * and the bound is checked against the string built so far, before the
 * candidate is appended, so the result may overshoot by one block.
 */
module ContextAssembly {
  import opened Common
  import opened Numerals

  const Separator: string := "\n\n----------\n\nSource #"
  const Opening: string := ": \n\""
  const Closing: string := "\""

  /** The block for the document numbered `n` (numbering starts at 1). */
  function Block(n: nat, text: string): (r: string)
    ensures |r| == 27 + |Decimal(n)| + |text|
  {
    Separator + Decimal(n) + Opening + text + Closing
  }

  /** Characters the blocks numbered 1..k add around their texts. */
  function Overhead(k: nat): nat
  {
    if k == 0 then 0 else Overhead(k - 1) + 27 + |Decimal(k)|
  }

  /** The blocks of all of `texts`, numbered 1, 2, ... in order. */
  function Render(texts: seq<string>): (r: string)
    ensures |r| == Overhead(|texts|) + TotalLength(texts)
  {
    if texts == [] then ""
    else Render(texts[..|texts| - 1]) + Block(|texts|, texts[|texts| - 1])
  }

  /** The numbered blocks one by one: the j-th carries number j + 1 and text j. */
  function Blocks(texts: seq<string>): seq<string>
  {
    seq(|texts|, j requires 0 <= j < |texts| => Block(j + 1, texts[j]))
  }

  /** Whether the loop, having appended the first `j` documents, appends the next one. */
  predicate Admits(texts: seq<string>, j: nat, maxLength: int, maxSources: Option<int>)
    requires j <= |texts|
  {
    |Render(texts[..j])| <= maxLength && (maxSources.None? || j + 1 <= maxSources.value)
  }

  /** The number of documents appended when the walk is at document `j`. */
  function IncludedFrom(texts: seq<string>, j: nat, maxLength: int, maxSources: Option<int>): (k: nat)
    requires j <= |texts|
    ensures j <= k <= |texts|
    decreases |texts| - j
  {
    if j == |texts| || !Admits(texts, j, maxLength, maxSources) then j
    else IncludedFrom(texts, j + 1, maxLength, maxSources)
  }

  /** The walk from document `j` appends every document up to where it stops, and stops only at the end or at a document it may not append. */
  lemma {:induction false} IncludedFromStops(texts: seq<string>, j: nat, maxLength: int, maxSources: Option<int>)
    requires j <= |texts|
    ensures var k := IncludedFrom(texts, j, maxLength, maxSources);
      && (forall i :: j <= i < k ==> Admits(texts, i, maxLength, maxSources))
      && (k == |texts| || !Admits(texts, k, maxLength, maxSources))
    decreases |texts| - j
  {
    if j < |texts| && Admits(texts, j, maxLength, maxSources) {
      IncludedFromStops(texts, j + 1, maxLength, maxSources);
      assert IncludedFrom(texts, j, maxLength, maxSources) == IncludedFrom(texts, j + 1, maxLength, maxSources);
    }
  }

  /** How many leading documents end up in the context. */
  function Included(texts: seq<string>, maxLength: int, maxSources: Option<int>): nat
  {
    IncludedFrom(texts, 0, maxLength, maxSources)
  }

  /** The context string: the blocks of the included prefix. */
  function Context(texts: seq<string>, maxLength: int, maxSources: Option<int>): string
  {
    Render(texts[..Included(texts, maxLength, maxSources)])
  }

  /** The walk over the ranked documents with the check-before-append bound. */
  method BuildContext(texts: seq<string>, maxLength: int, maxSources: Option<int>) returns (context: string)
    ensures context == Context(texts, maxLength, maxSources)
  {
    context := "";
    var sourceIndex := 1;
    var i := 0;
    while i < |texts|
      invariant 0 <= i <= |texts|
      invariant sourceIndex == i + 1
      invariant context == Render(texts[..i])
      invariant IncludedFrom(texts, i, maxLength, maxSources) == IncludedFrom(texts, 0, maxLength, maxSources)
    {
      if |context| <= maxLength && (maxSources.None? || sourceIndex <= maxSources.value) {
        ghost var before := context;
        context := context + Separator + Decimal(sourceIndex) + Opening;
        context := context + texts[i] + Closing;
        AppendBlock(before, sourceIndex, texts[i]);
        RenderStep(texts, i);
        sourceIndex := sourceIndex + 1;
      } else {
        break;
      }
      i := i + 1;
    }
  }

  /** The loop's two appends add exactly one block. */
  lemma AppendBlock(c: string, n: nat, text: string)
    ensures c + Separator + Decimal(n) + Opening + text + Closing == c + Block(n, text)
  {
  }

  /** Rendering one more document appends its block. */
  lemma RenderStep(texts: seq<string>, i: nat)
    requires i < |texts|
    ensures Render(texts[..i + 1]) == Render(texts[..i]) + Block(i + 1, texts[i])
  {
    assert texts[..i + 1][..i] == texts[..i];
  }

  /** The rendering is the concatenation of the numbered blocks, in order. */
  lemma {:induction false} RenderIsNumberedBlocks(texts: seq<string>)
    ensures Render(texts) == Concat(Blocks(texts))
  {
    if texts != [] {
      var n := |texts|;
      RenderIsNumberedBlocks(texts[..n - 1]);
      assert Blocks(texts)[..n - 1] == Blocks(texts[..n - 1]);
    }
  }

  /** Rendering a longer prefix only appends blocks: the output for fewer documents is a prefix of it. */
  lemma {:induction false} RenderGrows(texts: seq<string>, k: nat, j: nat)
    requires k <= j <= |texts|
    ensures Render(texts[..k]) <= Render(texts[..j])
    decreases j - k
  {
    if k < j {
      RenderGrows(texts, k, j - 1);
      assert texts[..j][..j - 1] == texts[..j - 1];
      assert Render(texts[..j]) == Render(texts[..j - 1]) + Block(j, texts[j - 1]);
    }
  }

  /** Document j is in the context exactly when the string built from the documents before it is within the bound (and the source cap allows it). */
  lemma IncludedIff(texts: seq<string>, j: nat, maxLength: int, maxSources: Option<int>)
    requires j < |texts|
    ensures j < Included(texts, maxLength, maxSources) <==> Admits(texts, j, maxLength, maxSources)
  {
    var k := Included(texts, maxLength, maxSources);
    IncludedFromStops(texts, 0, maxLength, maxSources);
    if k <= j && Admits(texts, j, maxLength, maxSources) {
      RenderGrows(texts, k, j);
      assert Admits(texts, k, maxLength, maxSources);
    }
  }

  /** What the context is and how far it may exceed the length bound. */
  lemma ContextBounds(texts: seq<string>, maxLength: int, maxSources: Option<int>)
    ensures var k := Included(texts, maxLength, maxSources);
      && k <= |texts|
      && Context(texts, maxLength, maxSources) == Render(texts[..k])
      && (Context(texts, maxLength, maxSources) == "" <==> k == 0)
      && (k > 0 ==> |Context(texts, maxLength, maxSources)| <= maxLength + |Block(k, texts[k - 1])|)
      && (k < |texts| ==> |Context(texts, maxLength, maxSources)| > maxLength || (maxSources.Some? && k >= maxSources.value))
      && (maxSources.Some? ==> k <= Max(0, maxSources.value))
  {
    var k := Included(texts, maxLength, maxSources);
    IncludedFromStops(texts, 0, maxLength, maxSources);
    if k > 0 {
      assert Admits(texts, k - 1, maxLength, maxSources);
      assert texts[..k][..k - 1] == texts[..k - 1];
    }
  }

  /** With at least `cap` documents and the length bound never tripped before the cap, exactly `cap` blocks appear, in rank order. */
  lemma FullCapacity(texts: seq<string>, maxLength: int, cap: nat)
    requires cap <= |texts|
    requires forall j :: 0 <= j < cap ==> |Render(texts[..j])| <= maxLength
    ensures Included(texts, maxLength, Some(cap)) == cap
    ensures Context(texts, maxLength, Some(cap)) == Concat(Blocks(texts[..cap]))
  {
    ContextBounds(texts, maxLength, Some(cap));
    RenderIsNumberedBlocks(texts[..cap]);
  }
}

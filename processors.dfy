/** The text summarizer (processors.py, TextProcessor.process): pass an
    extractor's error through, reject missing text, cut the text into
    1024-character chunks, summarize each chunk in order with an opaque model
    and join the summaries with one space, giving up at the first failure. */
module Processors {
  import opened Wrappers
  import opened Strings
  import opened Models

  /** `max_chunk_length` */
  const MaxChunkLength: nat := 1024

  const NoTextMessage: string := "TextProcessor: No text for processing."
  const SummarizeErrorPrefix: string := "Error on summarizing: "

  /** The summarization model, called with the fixed generation settings
      (max_length=130, min_length=30, do_sample=False). It either yields the
      chunk's `summary_text` or fails with the message of the exception it raised. */
  type Summarizer = string -> Result<string>

  /** Contiguous slices of at most MaxChunkLength characters, front to back:
      the slices `text[i:i + 1024]` for i in range(0, len(text), 1024). */
  function Chunks(text: string): seq<string>
    decreases |text|
  {
    if |text| == 0 then []
    else if |text| <= MaxChunkLength then [text]
    else [text[..MaxChunkLength]] + Chunks(text[MaxChunkLength..])
  }

  /** The slices put back together in order are the text itself. */
  lemma {:induction false} ChunksConcat(text: string)
    ensures Join("", Chunks(text)) == text
    decreases |text|
  {
    if |text| > MaxChunkLength {
      var rest := text[MaxChunkLength..];
      ChunksConcat(rest);
      assert Chunks(rest) != [];
      assert ([text[..MaxChunkLength]] + Chunks(rest))[1..] == Chunks(rest);
      assert text[..MaxChunkLength] + rest == text;
    }
  }

  /** The first k slices put together are the first k * 1024 characters of the
      text (all of it once k reaches the number of slices): whatever the model
      was asked up to a given slice is a prefix of the text. */
  lemma {:induction false} ChunksPrefix(text: string, k: nat)
    requires k <= |Chunks(text)|
    ensures Join("", Chunks(text)[..k]) == text[..Min(k * MaxChunkLength, |text|)]
    decreases |text|
  {
    if k == 0 {
      assert Chunks(text)[..0] == [];
    } else if |text| <= MaxChunkLength {
      assert Chunks(text)[..k] == [text];
    } else {
      var head, rest := text[..MaxChunkLength], text[MaxChunkLength..];
      var cs := Chunks(text);
      assert cs == [head] + Chunks(rest);
      if k == 1 {
        assert cs[..1] == [head];
      } else {
        ChunksPrefix(rest, k - 1);
        assert cs[..k] == [head] + Chunks(rest)[..k - 1];
        assert (cs[..k])[1..] == Chunks(rest)[..k - 1];
        var m := Min((k - 1) * MaxChunkLength, |rest|);
        assert head + rest[..m] == text[..MaxChunkLength + m];
        assert MaxChunkLength + m == Min(k * MaxChunkLength, |text|);
      }
    }
  }

  /** There are ceil(len(text) / 1024) slices. */
  lemma {:induction false} ChunksCount(text: string)
    ensures |Chunks(text)| == (|text| + MaxChunkLength - 1) / MaxChunkLength
    decreases |text|
  {
    if |text| > MaxChunkLength {
      ChunksCount(text[MaxChunkLength..]);
    }
  }

  /** Every slice but the last is exactly 1024 characters long; the last one
      holds between 1 and 1024. */
  lemma {:induction false} ChunksSizes(text: string)
    ensures forall i :: 0 <= i < |Chunks(text)| - 1 ==> |Chunks(text)[i]| == MaxChunkLength
    ensures |text| > 0 ==> |Chunks(text)| > 0 && 1 <= |Chunks(text)[|Chunks(text)| - 1]| <= MaxChunkLength
    decreases |text|
  {
    if |text| > MaxChunkLength {
      var rest := text[MaxChunkLength..];
      ChunksSizes(rest);
      var cs := Chunks(text);
      assert cs == [text[..MaxChunkLength]] + Chunks(rest);
      forall i | 1 <= i < |cs| - 1 ensures |cs[i]| == MaxChunkLength {
        assert cs[i] == Chunks(rest)[i - 1];
      }
    }
  }

  /** Slice i is `text[i * 1024 : (i + 1) * 1024]`, clipped to the end of the text,
      which is the list comprehension the summarizer loops over. */
  lemma {:induction false} ChunkAt(text: string, i: nat)
    requires i < |Chunks(text)|
    ensures i * MaxChunkLength < |text|
    ensures Chunks(text)[i] == text[i * MaxChunkLength .. Min((i + 1) * MaxChunkLength, |text|)]
    decreases |text|
  {
    if |text| > MaxChunkLength && i > 0 {
      var rest := text[MaxChunkLength..];
      ChunkAt(rest, i - 1);
      assert Chunks(text)[i] == Chunks(rest)[i - 1];
      assert (i - 1) * MaxChunkLength + MaxChunkLength == i * MaxChunkLength;
    }
  }

  function Min(a: int, b: int): int {
    if a <= b then a else b
  }

  /** A text of exactly 2048 characters gives exactly two full slices. */
  lemma TwoFullChunks(text: string)
    requires |text| == 2 * MaxChunkLength
    ensures Chunks(text) == [text[..MaxChunkLength], text[MaxChunkLength..]]
  {}

  /** Result of running the model over the slices in order. */
  datatype ChunkOutcome =
    | AllOk(summaries: seq<string>)
    | FailedAt(index: nat, message: string)

  /** Summarize the slices front to back, stopping at the first failure;
      summaries made before it are dropped. */
  function SummarizeChunks(summarize: Summarizer, chunks: seq<string>): ChunkOutcome
  {
    if chunks == [] then AllOk([])
    else match summarize(chunks[0])
      case Err(m) => FailedAt(0, m)
      case Ok(s) =>
        match SummarizeChunks(summarize, chunks[1..])
        case AllOk(ss) => AllOk([s] + ss)
        case FailedAt(k, m) => FailedAt(k + 1, m)
  }

  /** When the model succeeds on every slice, the outcome holds each slice's
      summary in slice order. */
  lemma {:induction false} SummarizeChunksAllOk(summarize: Summarizer, chunks: seq<string>, summaries: seq<string>)
    requires |summaries| == |chunks|
    requires forall j :: 0 <= j < |chunks| ==> summarize(chunks[j]) == Ok(summaries[j])
    ensures SummarizeChunks(summarize, chunks) == AllOk(summaries)
  {
    if chunks != [] {
      SummarizeChunksAllOk(summarize, chunks[1..], summaries[1..]);
      assert [summaries[0]] + summaries[1..] == summaries;
    }
  }

  /** When slice k is the first the model fails on, the outcome is that
      failure, whatever the later slices would give. */
  lemma {:induction false} SummarizeChunksFailsAt(summarize: Summarizer, chunks: seq<string>, k: nat)
    requires k < |chunks|
    requires summarize(chunks[k]).Err?
    requires forall j :: 0 <= j < k ==> summarize(chunks[j]).Ok?
    ensures SummarizeChunks(summarize, chunks) == FailedAt(k, summarize(chunks[k]).error)
  {
    if k > 0 {
      assert summarize(chunks[0]).Ok?;
      SummarizeChunksFailsAt(summarize, chunks[1..], k - 1);
    }
  }

  /** Conversely, every outcome is one of those two: all slices summarized, in
      order, or a failure at a slice after which nothing else was asked. */
  lemma {:induction false} SummarizeChunksSound(summarize: Summarizer, chunks: seq<string>)
    ensures match SummarizeChunks(summarize, chunks)
      case AllOk(ss) =>
        |ss| == |chunks| && forall j :: 0 <= j < |chunks| ==> summarize(chunks[j]) == Ok(ss[j])
      case FailedAt(k, m) =>
        k < |chunks| && summarize(chunks[k]) == Err(m)
        && forall j :: 0 <= j < k ==> summarize(chunks[j]).Ok?
  {
    if chunks != [] {
      SummarizeChunksSound(summarize, chunks[1..]);
      match SummarizeChunks(summarize, chunks) {
        case AllOk(ss) =>
          forall j | 0 <= j < |chunks| ensures summarize(chunks[j]) == Ok(ss[j]) {
            if j > 0 {
              assert chunks[j] == chunks[1..][j - 1];
            }
          }
        case FailedAt(k, m) =>
          forall j | 0 <= j < k ensures summarize(chunks[j]).Ok? {
            if j > 0 {
              assert chunks[j] == chunks[1..][j - 1];
            }
          }
      }
    }
  }

  /** A text that fits one slice is summarized by exactly the model's output for it. */
  lemma SingleChunkSummary(summarize: Summarizer, text: string)
    requires 1 <= |text| <= MaxChunkLength
    requires summarize(text).Ok?
    ensures Chunks(text) == [text]
    ensures SummarizeChunks(summarize, Chunks(text)) == AllOk([summarize(text).value])
    ensures Join(" ", [summarize(text).value]) == summarize(text).value
  {}

  /** TextProcessor.process. Besides the result, `calls` lists the slices
      handed to the model, in the order it was asked. */
  method Process(content: Content, summarize: Summarizer) returns (r: SummaryResult, calls: seq<string>)
    // an extractor's error is passed through verbatim and the model is not asked
    ensures Truthy(content.errorMessage) ==>
      r == SummaryResult(errorMessage := content.errorMessage) && calls == []
    // no text (absent or empty) is rejected before the model is asked
    ensures !Truthy(content.errorMessage) && !Truthy(content.text) ==>
      r == SummaryResult(errorMessage := Some(NoTextMessage)) && calls == []
    // otherwise the model is asked slice by slice until it fails or the slices run out
    ensures !Truthy(content.errorMessage) && Truthy(content.text) ==>
      var chunks := Chunks(content.text.value);
      match SummarizeChunks(summarize, chunks)
      case AllOk(ss) =>
        r == SummaryResult(summary := Some(Join(" ", ss))) && calls == chunks
      case FailedAt(k, m) =>
        r == SummaryResult(errorMessage := Some(SummarizeErrorPrefix + m)) && k < |chunks| && calls == chunks[..k + 1]
    // exactly one of summary and error is set
    ensures r.summary.Some? != r.errorMessage.Some?
  {
    if Truthy(content.errorMessage) {
      return SummaryResult(errorMessage := content.errorMessage), [];
    }
    if !Truthy(content.text) {
      return SummaryResult(errorMessage := Some(NoTextMessage)), [];
    }
    var chunks := Chunks(content.text.value);
    var summaries: seq<string> := [];
    calls := [];
    var i := 0;
    while i < |chunks|
      invariant 0 <= i <= |chunks|
      invariant calls == chunks[..i]
      invariant |summaries| == i
      invariant forall j :: 0 <= j < i ==> summarize(chunks[j]) == Ok(summaries[j])
    {
      var chunk := chunks[i];
      calls := calls + [chunk];
      var outcome := summarize(chunk);
      if outcome.Err? {
        SummarizeChunksFailsAt(summarize, chunks, i);
        return SummaryResult(errorMessage := Some(SummarizeErrorPrefix + outcome.error)), calls;
      }
      summaries := summaries + [outcome.value];
      i := i + 1;
    }
    assert calls == chunks;
    SummarizeChunksAllOk(summarize, chunks, summaries);
    r := SummaryResult(summary := Some(Join(" ", summaries)));
  }
}

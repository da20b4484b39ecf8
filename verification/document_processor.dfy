/**
  The document pipeline's deterministic part (backend/app/services/document_processor.py):
  the content-type check and counts of `process_file`, the word-window chunker
  `chunk_text`, and the chunk ids and metadata `index_document` hands to the vector store.
*/
module DocumentProcessor {
  import opened Wrappers
  import opened Text
  import opened Schema

  // ---------------------------------------------------------------------------
  // `process_file`

  /** `supported_types`. */
  const SupportedTypes: seq<string> := ["application/pdf", "text/plain", "text/markdown"]

  /** What `process_file` returns. */
  datatype ProcessedFile = ProcessedFile(textContent: string, contentType: string, wordCount: nat, charCount: nat)

  /**
    `process_file`, given the guessed content type (`None` when the file name has no known
    type) and the text extracted for it; the error is the `ValueError` message.
  */
  function ProcessFile(contentType: Option<string>, text: string): (r: Result<ProcessedFile, string>)
    ensures r.Success? <==> contentType.Some? && contentType.value in SupportedTypes
    ensures r.Failure? ==> r.error == "Unsupported file type: " + if contentType.Some? then contentType.value else "None"
    ensures r.Success? ==> r.value.contentType == contentType.value && r.value.textContent == text
  {
    if contentType.None? || contentType.value !in SupportedTypes then
      Failure("Unsupported file type: " + if contentType.Some? then contentType.value else "None")
    else
      Success(ProcessedFile(text, contentType.value, |Words(text)|, |text|))
  }

  /** A text made of words separated by single spaces is counted word by word. */
  lemma WordCountOfJoinedWords(contentType: string, ws: seq<string>)
    requires contentType in SupportedTypes
    requires forall k :: 0 <= k < |ws| ==> IsWord(ws[k])
    ensures var r := ProcessFile(Some(contentType), JoinWith(ws, " "));
      r.Success? && r.value.wordCount == |ws| && r.value.charCount == |JoinWith(ws, " ")|
  {
    WordsOfJoin(ws);
  }

  // ---------------------------------------------------------------------------
  // `chunk_text`

  function Min(a: int, b: int): int {
    if a <= b then a else b
  }

  /** `words[start:start + size]`. */
  function Window(words: seq<string>, start: nat, size: nat): (w: seq<string>)
    requires start <= |words|
    ensures |w| <= size
  {
    words[start..Min(start + size, |words|)]
  }

  /**
    The windows the loop takes when it starts at word `i`: one window per start
    `i, i + step, ...` until a window reaches the last word.
  */
  function WindowsFrom(words: seq<string>, size: nat, step: nat, i: nat): seq<seq<string>>
    requires step > 0
    decreases |words| - i
  {
    if i >= |words| then []
    else [Window(words, i, size)] + if i + size >= |words| then [] else WindowsFrom(words, size, step, i + step)
  }

  /** `' '.join(window)` for every window. */
  function JoinAll(windows: seq<seq<string>>): (chunks: seq<string>)
    ensures |chunks| == |windows|
  {
    if windows == [] then [] else [JoinWith(windows[0], " ")] + JoinAll(windows[1..])
  }

  lemma {:induction false} JoinAllAt(windows: seq<seq<string>>, k: nat)
    requires k < |windows|
    ensures JoinAll(windows)[k] == JoinWith(windows[k], " ")
  {
    if k > 0 {
      JoinAllAt(windows[1..], k - 1);
    }
  }

  /** The chunks of `text` for a positive step `chunkSize - overlap`. */
  function Chunks(text: string, chunkSize: nat, overlap: int): seq<string>
    requires overlap < chunkSize
  {
    JoinAll(WindowsFrom(Words(text), chunkSize, chunkSize - overlap, 0))
  }

  /** The error Python's `range` raises for a zero step. */
  const ZeroStepError := "range() arg 3 must not be zero"

  /**
    `chunk_text`. A step `chunk_size - overlap` of zero makes `range` raise, and a negative
    one gives an empty range.
  */
  method ChunkText(text: string, chunkSize: nat, overlap: int) returns (r: Result<seq<string>, string>)
    requires chunkSize > 0
    ensures overlap == chunkSize ==> r == Failure(ZeroStepError)
    ensures overlap > chunkSize ==> r == Success([])
    ensures overlap < chunkSize ==> r == Success(Chunks(text, chunkSize, overlap))
  {
    if chunkSize - overlap == 0 {
      return Failure(ZeroStepError);
    } else if chunkSize - overlap < 0 {
      return Success([]);
    }
    var words := Words(text);
    var step: nat := chunkSize - overlap;
    ghost var all := JoinAll(WindowsFrom(words, chunkSize, step, 0));
    var chunks: seq<string> := [];
    var i: nat := 0;
    while i < |words|
      invariant all == chunks + JoinAll(WindowsFrom(words, chunkSize, step, i))
      decreases |words| - i
    {
      var chunk := JoinWith(words[i..Min(i + chunkSize, |words|)], " ");
      JoinAllStep(words, chunkSize, step, i);
      AppendChunk(chunks, chunk, if i + chunkSize >= |words| then [] else JoinAll(WindowsFrom(words, chunkSize, step, i + step)));
      chunks := chunks + [chunk];
      if i + chunkSize >= |words| {
        assert all == chunks;
        break;
      }
      i := i + step;
    }
    assert all == Chunks(text, chunkSize, overlap);
    assert all == chunks by {
      if i >= |words| {
        assert WindowsFrom(words, chunkSize, step, i) == [];
        assert chunks + [] == chunks;
      }
    }
    return Success(chunks);
  }

  lemma AppendChunk(done: seq<string>, chunk: string, rest: seq<string>)
    ensures done + ([chunk] + rest) == (done + [chunk]) + rest
    ensures rest == [] ==> done + ([chunk] + rest) == done + [chunk]
  {
  }

  /** One turn of the loop: the chunk at `i` followed by the chunks from `i + step`. */
  lemma JoinAllStep(words: seq<string>, size: nat, step: nat, i: nat)
    requires step > 0 && i < |words|
    ensures var first := JoinWith(Window(words, i, size), " ");
      JoinAll(WindowsFrom(words, size, step, i))
        == [first] + if i + size >= |words| then [] else JoinAll(WindowsFrom(words, size, step, i + step))
  {
    var ws := WindowsFrom(words, size, step, i);
    assert ws[1..] == if i + size >= |words| then [] else WindowsFrom(words, size, step, i + step);
  }

  /** The start of window `k` when the first one starts at `i`: `i + k * step`. */
  function Start(i: nat, k: nat, step: nat): nat {
    if k == 0 then i else Start(i, k - 1, step) + step
  }

  lemma {:induction false} StartIsProduct(i: nat, k: nat, step: nat)
    ensures Start(i, k, step) == i + k * step
  {
    if k > 0 {
      StartIsProduct(i, k - 1, step);
      assert (k - 1) * step + step == k * step;
    }
  }

  lemma {:induction false} StartShift(i: nat, k: nat, step: nat)
    ensures Start(i + step, k, step) == Start(i, k + 1, step)
  {
    if k > 0 {
      StartShift(i, k - 1, step);
    }
  }

  /** Taking the windows from `i` on: the first window, then (unless it reached the end) those from `i + step`. */
  lemma WindowsFromUnfold(words: seq<string>, size: nat, step: nat, i: nat)
    requires step > 0 && i < |words|
    ensures var ws := WindowsFrom(words, size, step, i);
      ws[0] == Window(words, i, size)
      && ws[1..] == if i + size >= |words| then [] else WindowsFrom(words, size, step, i + step)
  {
  }

  /** There is a window iff a word remains at `i`. */
  lemma WindowsNonEmpty(words: seq<string>, size: nat, step: nat, i: nat)
    requires step > 0
    ensures |WindowsFrom(words, size, step, i)| > 0 <==> i < |words|
  {
  }

  /** Window `k` is the words from `Start(i, k, step)` on, and that start is a word index. */
  lemma {:induction false} WindowsStart(words: seq<string>, size: nat, step: nat, i: nat)
    requires step > 0
    ensures var ws := WindowsFrom(words, size, step, i);
      forall k :: 0 <= k < |ws| ==> Start(i, k, step) < |words| && ws[k] == Window(words, Start(i, k, step), size)
    decreases |words| - i
  {
    var ws := WindowsFrom(words, size, step, i);
    if i < |words| {
      WindowsFromUnfold(words, size, step, i);
      if i + size < |words| {
        WindowsStart(words, size, step, i + step);
        var rest := WindowsFrom(words, size, step, i + step);
        forall k | 0 < k < |ws| ensures Start(i, k, step) < |words| && ws[k] == Window(words, Start(i, k, step), size) {
          assert ws[k] == rest[k - 1];
          StartShift(i, k - 1, step);
        }
      }
    }
  }

  /** Every window but the last holds exactly `size` words. */
  lemma {:induction false} WindowsFull(words: seq<string>, size: nat, step: nat, i: nat)
    requires step > 0
    ensures var ws := WindowsFrom(words, size, step, i);
      forall k :: 0 <= k < |ws| - 1 ==> |ws[k]| == size
    decreases |words| - i
  {
    var ws := WindowsFrom(words, size, step, i);
    if i < |words| {
      WindowsFromUnfold(words, size, step, i);
      if i + size < |words| {
        WindowsFull(words, size, step, i + step);
        var rest := WindowsFrom(words, size, step, i + step);
        forall k | 0 < k < |ws| - 1 ensures |ws[k]| == size {
          assert ws[k] == rest[k - 1];
        }
      }
    }
  }

  /** A sequence whose tail is a non-empty `rest` ends where `rest` ends. */
  lemma LastOfTail<T>(ws: seq<T>, rest: seq<T>)
    requires ws != [] && ws[1..] == rest && rest != []
    ensures |ws| == |rest| + 1 && ws[|ws| - 1] == rest[|rest| - 1]
  {
  }

  /** The last of windows `ws`, taken from word `i` on, ends at the final word. */
  predicate EndsAtLastWord(words: seq<string>, ws: seq<seq<string>>, i: nat, step: nat) {
    ws != [] ==> Start(i, |ws| - 1, step) + |ws[|ws| - 1]| == |words|
  }

  /** The last window ends at the final word. */
  lemma {:induction false} WindowsReachEnd(words: seq<string>, size: nat, step: nat, i: nat)
    requires 0 < step <= size
    ensures EndsAtLastWord(words, WindowsFrom(words, size, step, i), i, step)
    decreases |words| - i
  {
    var ws := WindowsFrom(words, size, step, i);
    if i < |words| && i + size < |words| {
      var rest := WindowsFrom(words, size, step, i + step);
      assert rest != [] by {
        WindowsNonEmpty(words, size, step, i + step);
      }
      var n := |rest|;
      assert Start(i + step, n - 1, step) + |rest[n - 1]| == |words| by {
        WindowsReachEnd(words, size, step, i + step);
      }
      assert |ws| == n + 1 && ws[n] == rest[n - 1] by {
        WindowsFromUnfold(words, size, step, i);
        LastOfTail(ws, rest);
      }
      assert Start(i, n, step) == Start(i + step, n - 1, step) by {
        StartShift(i, n - 1, step);
      }
    } else if i < |words| {
      WindowsFromUnfold(words, size, step, i);
      assert |ws| == 1 && ws[0] == Window(words, i, size);
      assert Start(i, 0, step) == i;
    }
  }

  /** Consecutive windows share exactly `size - step` words: the tail of one is the head of the next. */
  lemma WindowsOverlap(words: seq<string>, size: nat, step: nat, i: nat, k: nat)
    requires 0 < step <= size
    requires k + 1 < |WindowsFrom(words, size, step, i)|
    ensures var ws := WindowsFrom(words, size, step, i);
      step <= |ws[k]| && size - step <= |ws[k + 1]| && ws[k][step..] == ws[k + 1][..size - step]
  {
    var ws := WindowsFrom(words, size, step, i);
    WindowsStart(words, size, step, i);
    WindowsFull(words, size, step, i);
    var s := Start(i, k, step);
    assert Start(i, k + 1, step) == s + step;
    assert ws[k] == words[s..s + size];
    assert ws[k + 1] == words[s + step..Min(s + step + size, |words|)];
    assert s + size <= |words|;
  }

  /** Every word from `i` on lies in some window. */
  lemma {:induction false} WindowsCover(words: seq<string>, size: nat, step: nat, i: nat, j: nat)
    requires 0 < step <= size && i <= j < |words|
    ensures var ws := WindowsFrom(words, size, step, i);
      exists k :: 0 <= k < |ws| && Start(i, k, step) <= j < Start(i, k, step) + |ws[k]|
    decreases |words| - i
  {
    var ws := WindowsFrom(words, size, step, i);
    WindowsFromUnfold(words, size, step, i);
    if j < i + size {
      assert |ws[0]| == Min(i + size, |words|) - i;
      assert Start(i, 0, step) <= j < Start(i, 0, step) + |ws[0]|;
    } else {
      WindowsCover(words, size, step, i + step, j);
      var rest := WindowsFrom(words, size, step, i + step);
      var k :| 0 <= k < |rest| && Start(i + step, k, step) <= j < Start(i + step, k, step) + |rest[k]|;
      assert ws[k + 1] == rest[k];
      StartShift(i, k, step);
    }
  }

  /** Window `k` on its own: it starts at a word index `Start(i, k, step)`. */
  lemma WindowAt(words: seq<string>, size: nat, step: nat, i: nat, k: nat)
    requires step > 0 && k < |WindowsFrom(words, size, step, i)|
    ensures Start(i, k, step) < |words| && WindowsFrom(words, size, step, i)[k] == Window(words, Start(i, k, step), size)
  {
    WindowsStart(words, size, step, i);
  }

  /** Every window consists of words. */
  lemma WindowsAreWords(words: seq<string>, size: nat, step: nat, k: nat)
    requires step > 0 && forall m :: 0 <= m < |words| ==> IsWord(words[m])
    requires k < |WindowsFrom(words, size, step, 0)|
    ensures var w := WindowsFrom(words, size, step, 0)[k]; forall m :: 0 <= m < |w| ==> IsWord(w[m])
  {
    WindowsStart(words, size, step, 0);
  }

  /** Splitting chunk `k` gives back the words of window `k`. */
  lemma ChunkWords(text: string, chunkSize: nat, overlap: int, k: nat)
    requires overlap < chunkSize && k < |Chunks(text, chunkSize, overlap)|
    ensures Words(Chunks(text, chunkSize, overlap)[k]) == WindowsFrom(Words(text), chunkSize, chunkSize - overlap, 0)[k]
  {
    var ws := WindowsFrom(Words(text), chunkSize, chunkSize - overlap, 0);
    JoinAllAt(ws, k);
    WindowsAreWords(Words(text), chunkSize, chunkSize - overlap, k);
    WordsOfJoin(ws[k]);
  }

  /** `chunk_text` with `0 <= overlap < chunk_size` gives no chunks exactly when the text has no words. */
  lemma NoWordsNoChunks(text: string, chunkSize: nat, overlap: nat)
    requires overlap < chunkSize
    ensures |Chunks(text, chunkSize, overlap)| == 0 <==> |Words(text)| == 0
  {
    WindowsNonEmpty(Words(text), chunkSize, chunkSize - overlap, 0);
  }

  /**
    Chunk `k` is the words from `k * (chunk_size - overlap)` on, at most `chunk_size` of
    them, joined by single spaces: splitting it gives exactly those words back.
  */
  lemma ChunkIsWindow(text: string, chunkSize: nat, overlap: nat, k: nat)
    requires overlap < chunkSize && k < |Chunks(text, chunkSize, overlap)|
    ensures var words := Words(text); var s := k * (chunkSize - overlap);
      s < |words| && Words(Chunks(text, chunkSize, overlap)[k]) == words[s..Min(s + chunkSize, |words|)]
      && |Words(Chunks(text, chunkSize, overlap)[k])| <= chunkSize
  {
    var step := chunkSize - overlap;
    var words := Words(text);
    var chunk := Chunks(text, chunkSize, overlap)[k];
    var w := WindowsFrom(words, chunkSize, step, 0)[k];
    ChunkWords(text, chunkSize, overlap, k);
    assert Words(chunk) == w;
    WindowAt(words, chunkSize, step, 0, k);
    StartIsProduct(0, k, step);
    var s := k * step;
    assert w == words[s..Min(s + chunkSize, |words|)];
  }

  /** Every chunk but the last holds exactly `chunk_size` words. */
  lemma ChunkIsFull(text: string, chunkSize: nat, overlap: nat, k: nat)
    requires overlap < chunkSize && k + 1 < |Chunks(text, chunkSize, overlap)|
    ensures |Words(Chunks(text, chunkSize, overlap)[k])| == chunkSize
  {
    ChunkWords(text, chunkSize, overlap, k);
    WindowsFull(Words(text), chunkSize, chunkSize - overlap, 0);
  }

  /** The last chunk ends at the final word of the text. */
  lemma LastChunkReachesEnd(text: string, chunkSize: nat, overlap: nat)
    requires overlap < chunkSize && |Chunks(text, chunkSize, overlap)| > 0
    ensures var chunks := Chunks(text, chunkSize, overlap);
      (|chunks| - 1) * (chunkSize - overlap) + |Words(chunks[|chunks| - 1])| == |Words(text)|
  {
    var step := chunkSize - overlap;
    var last := |Chunks(text, chunkSize, overlap)| - 1;
    ChunkWords(text, chunkSize, overlap, last);
    WindowsReachEnd(Words(text), chunkSize, step, 0);
    StartIsProduct(0, last, step);
  }

  /** Consecutive chunks share exactly `overlap` words: the tail of one is the head of the next. */
  lemma ChunksOverlap(text: string, chunkSize: nat, overlap: nat, k: nat)
    requires overlap < chunkSize && k + 1 < |Chunks(text, chunkSize, overlap)|
    ensures var chunks := Chunks(text, chunkSize, overlap);
      var a := Words(chunks[k]); var b := Words(chunks[k + 1]);
      chunkSize - overlap <= |a| && overlap <= |b| && a[chunkSize - overlap..] == b[..overlap]
  {
    ChunkWords(text, chunkSize, overlap, k);
    ChunkWords(text, chunkSize, overlap, k + 1);
    WindowsOverlap(Words(text), chunkSize, chunkSize - overlap, 0, k);
  }

  /** Every word of the text lies in some chunk. */
  lemma EveryWordIsChunked(text: string, chunkSize: nat, overlap: nat, j: nat)
    requires overlap < chunkSize && j < |Words(text)|
    ensures var chunks := Chunks(text, chunkSize, overlap); var step := chunkSize - overlap;
      exists k :: 0 <= k < |chunks| && k * step <= j < k * step + |Words(chunks[k])|
  {
    var step := chunkSize - overlap;
    var ws := WindowsFrom(Words(text), chunkSize, step, 0);
    WindowsCover(Words(text), chunkSize, step, 0, j);
    var k :| 0 <= k < |ws| && Start(0, k, step) <= j < Start(0, k, step) + |ws[k]|;
    StartIsProduct(0, k, step);
    ChunkWords(text, chunkSize, overlap, k);
  }

  // ---------------------------------------------------------------------------
  // `index_document`

  /** `f"doc_{document_id}_chunk_{i}"`. */
  function ChunkId(documentId: int, i: nat): string {
    "doc_" + IntToString(documentId) + "_chunk_" + NatToString(i)
  }

  /** `{**metadata, "document_id": ..., "chunk_index": i, "chunk_count": count}`: the three keys win. */
  function ChunkMetadata(metadata: Data, documentId: int, i: nat, count: nat): (m: Data)
    ensures "document_id" in m && m["document_id"] == VInt(documentId)
    ensures "chunk_index" in m && m["chunk_index"] == VInt(i)
    ensures "chunk_count" in m && m["chunk_count"] == VInt(count)
    ensures forall key :: key in metadata && key != "document_id" && key != "chunk_index" && key != "chunk_count" ==>
      key in m && m[key] == metadata[key]
    ensures forall key :: key in m ==> key in metadata || key == "document_id" || key == "chunk_index" || key == "chunk_count"
  {
    metadata + map["document_id" := VInt(documentId), "chunk_index" := VInt(i), "chunk_count" := VInt(count)]
  }

  /** What `index_document` passes to the vector store: documents, metadatas and ids. */
  datatype IndexBatch = IndexBatch(documents: seq<string>, metadatas: seq<Data>, ids: seq<string>)

  /**
    `index_document`: chunks the text with the default sizes (500 words, 100 shared) and
    builds one id and one metadata map per chunk; it returns the batch for the store and the
    number of chunks.
  */
  method IndexDocument(documentId: int, text: string, metadata: Data) returns (batch: IndexBatch, count: nat)
    ensures batch.documents == Chunks(text, 500, 100) && count == |batch.documents|
    ensures |batch.metadatas| == count && |batch.ids| == count
    ensures forall i :: 0 <= i < count ==> batch.ids[i] == ChunkId(documentId, i)
    ensures forall i :: 0 <= i < count ==> batch.metadatas[i] == ChunkMetadata(metadata, documentId, i, count)
  {
    var result := ChunkText(text, 500, 100);
    var chunks := result.value;
    var metadatas := BuildMetadatas(metadata, documentId, |chunks|);
    var ids := BuildIds(documentId, |chunks|);
    batch := IndexBatch(chunks, metadatas, ids);
    count := |chunks|;
  }

  /** The metadata half of the loop over the chunks. */
  method BuildMetadatas(metadata: Data, documentId: int, count: nat) returns (metadatas: seq<Data>)
    ensures |metadatas| == count
    ensures forall i :: 0 <= i < count ==> metadatas[i] == ChunkMetadata(metadata, documentId, i, count)
  {
    metadatas := [];
    for i := 0 to count
      invariant |metadatas| == i
      invariant forall j :: 0 <= j < i ==> metadatas[j] == ChunkMetadata(metadata, documentId, j, count)
    {
      metadatas := metadatas + [ChunkMetadata(metadata, documentId, i, count)];
    }
  }

  /** The id half of the loop over the chunks. */
  method BuildIds(documentId: int, count: nat) returns (ids: seq<string>)
    ensures |ids| == count
    ensures forall i :: 0 <= i < count ==> ids[i] == ChunkId(documentId, i)
  {
    ids := [];
    for i := 0 to count
      invariant |ids| == i
      invariant forall j :: 0 <= j < i ==> ids[j] == ChunkId(documentId, j)
    {
      ids := ids + [ChunkId(documentId, i)];
    }
  }

  /** Chunk ids of one document never collide. */
  lemma {:induction false} ChunkIdsDistinct(documentId: int, i: nat, j: nat)
    requires ChunkId(documentId, i) == ChunkId(documentId, j)
    ensures i == j
  {
    var prefix := "doc_" + IntToString(documentId) + "_chunk_";
    assert ChunkId(documentId, i) == prefix + NatToString(i);
    assert ChunkId(documentId, j) == prefix + NatToString(j);
    assert NatToString(i) == ChunkId(documentId, i)[|prefix|..];
    assert NatToString(j) == ChunkId(documentId, j)[|prefix|..];
    NatToStringInjective(i, j);
  }
}

/** `build_chunks`: cutting documents into overlapping windows, either of
    characters ("chars" mode) or of whitespace-separated words (any other
    mode).

    Each per-document loop is specified by a ghost function of the same
    shape (`CharLoop`, `WordLoop`), generic in the function that builds a
    window from its number and its start; the lemmas then say where
    window `k` starts, what it holds, and how the last window ends. */
module Chunking {
  import opened Common
  import opened Text

  /** A document as `build_chunks` reads it; a document without a
      `source_path` attribute reads as None. */
  datatype Doc = Doc(docId: string, title: string, text: string, sourcePath: Option<string>)

  datatype Chunk = Chunk(chunkId: string, docId: string, title: string, text: string,
                         sourcePath: Option<string>, charStart: Option<int>, charEnd: Option<int>)

  /** `max(1, chunk_size - overlap)`: both loops advance by at least one. */
  function Stride(chunkSize: int, overlap: int): (step: nat)
    ensures step >= 1
    ensures step >= chunkSize - overlap
    ensures step == 1 || step == chunkSize - overlap
  {
    MaxInt(1, chunkSize - overlap)
  }

  /** With a positive window and a non-negative overlap, consecutive
      windows leave no gap. */
  lemma StrideWithinWindow(chunkSize: int, overlap: int)
    requires chunkSize >= 1 && overlap >= 0
    ensures Stride(chunkSize, overlap) <= chunkSize
  {
  }

  /** Where window `k` opens when windows open every `step` positions. */
  function WindowStart(k: nat, step: nat): nat
  {
    k * step
  }

  lemma WindowStartNext(k: nat, step: nat)
    ensures WindowStart(k + 1, step) == WindowStart(k, step) + step
  {
  }

  lemma WindowStartMono(a: nat, b: nat, step: nat)
    requires a <= b
    ensures WindowStart(a, step) <= WindowStart(b, step)
  {
    var e := b - a;
    assert b * step == a * step + e * step;
  }

  /** `p // step`: the window opening at or before `p`. */
  lemma FloorDiv(p: nat, step: nat) returns (q: nat)
    requires step >= 1
    ensures WindowStart(q, step) <= p < WindowStart(q, step) + step
  {
    q := p / step;
  }

  // ------------------------------------------------------------ chars mode

  /** The window `text[start:end]`, numbered `j` within its document. */
  function CharChunk(d: Doc, j: nat, start: int, end: int): Chunk
  {
    Chunk(d.docId + "::c" + NatToString(j), d.docId, d.title, PySlice(d.text, start, end),
          d.sourcePath, Some(start), Some(end))
  }

  /** Window number `k` opened at `start`. */
  function CharChunkAt(d: Doc, chunkSize: int): (nat, nat) -> Chunk
  {
    (k: nat, start: nat) => CharChunk(d, k, start, MinInt(|d.text|, start + chunkSize))
  }

  /** What the chars-mode loop over a text of length `n` returns when it
      is entered at `start` with `acc` already collected: a window at
      every value of `range(start, n, step)`, stopping after the first
      window whose end `min(n, start + chunk_size)` reaches `n`. */
  function CharLoop<T>(f: (nat, nat) -> T, n: nat, chunkSize: int, step: nat, start: nat, acc: seq<T>): seq<T>
    requires step >= 1
    decreases n - start
  {
    if start >= n then acc
    else
      var acc' := acc + [f(|acc|, start)];
      if start + chunkSize >= n then acc' else CharLoop(f, n, chunkSize, step, start + step, acc')
  }

  /** The chars-mode chunks of one document. */
  function CharChunksOf(d: Doc, chunkSize: int, step: nat): seq<Chunk>
    requires step >= 1
  {
    CharLoop(CharChunkAt(d, chunkSize), |d.text|, chunkSize, step, 0, [])
  }

  /** The chars-mode loop over one document. */
  method DocCharChunks(d: Doc, chunkSize: int, step: nat) returns (out: seq<Chunk>)
    requires step >= 1
    ensures out == CharChunksOf(d, chunkSize, step)
  {
    var txt := d.text;
    var n := |txt|;
    ghost var f := CharChunkAt(d, chunkSize);
    ghost var total := CharLoop(f, n, chunkSize, step, 0, []);
    out := [];
    var j: nat := 0;
    var start: nat := 0;
    while start < n
      invariant j == |out|
      invariant CharLoop(f, n, chunkSize, step, start, out) == total
      decreases n - start
    {
      var end := MinInt(n, start + chunkSize);
      CharLoopStep(f, n, chunkSize, step, start, out);
      var c := Chunk(d.docId + "::c" + NatToString(j), d.docId, d.title, PySlice(txt, start, end),
                     d.sourcePath, Some(start), Some(end));
      assert c == CharChunk(d, j, start, end);
      assert f(|out|, start) == CharChunk(d, |out|, start, MinInt(|d.text|, start + chunkSize));
      out := out + [c];
      j := j + 1;
      if end >= n {
        assert out == total;
        break;
      }
      start := start + step;
    }
    if start >= n {
      CharLoopStep(f, n, chunkSize, step, start, out);
    }
    assert out == total;
  }

  /** One turn of the chars-mode loop. */
  lemma CharLoopStep<T>(f: (nat, nat) -> T, n: nat, chunkSize: int, step: nat, start: nat, acc: seq<T>)
    requires step >= 1
    ensures start >= n ==> CharLoop(f, n, chunkSize, step, start, acc) == acc
    ensures start < n && start + chunkSize >= n ==> CharLoop(f, n, chunkSize, step, start, acc) == acc + [f(|acc|, start)]
    ensures start < n && start + chunkSize < n ==>
              CharLoop(f, n, chunkSize, step, start, acc) == CharLoop(f, n, chunkSize, step, start + step, acc + [f(|acc|, start)])
  {
  }

  /** The loop only appends, and it appends a window whenever `start` is
      still inside the text. */
  lemma {:induction false} CharLoopLength<T>(f: (nat, nat) -> T, n: nat, chunkSize: int, step: nat, start: nat, acc: seq<T>)
    requires step >= 1
    ensures |CharLoop(f, n, chunkSize, step, start, acc)| >= |acc|
    ensures start < n <==> |CharLoop(f, n, chunkSize, step, start, acc)| > |acc|
    decreases n - start
  {
    CharLoopStep(f, n, chunkSize, step, start, acc);
    if start < n && start + chunkSize < n {
      CharLoopLength(f, n, chunkSize, step, start + step, acc + [f(|acc|, start)]);
    }
  }

  /** What was collected before stays in place. */
  lemma {:induction false} CharLoopPrefix<T>(f: (nat, nat) -> T, n: nat, chunkSize: int, step: nat, start: nat, acc: seq<T>, k: nat)
    requires step >= 1 && k < |acc|
    ensures k < |CharLoop(f, n, chunkSize, step, start, acc)|
    ensures CharLoop(f, n, chunkSize, step, start, acc)[k] == acc[k]
    decreases n - start
  {
    CharLoopStep(f, n, chunkSize, step, start, acc);
    if start < n && start + chunkSize < n {
      CharLoopPrefix(f, n, chunkSize, step, start + step, acc + [f(|acc|, start)], k);
    }
  }

  /** The `k`-th window is opened at `start + (k - |acc|) * step`, inside
      the text; every window but the last ends before the end of the
      text; the last one reaches it, or the range has no further value. */
  lemma {:induction false} CharLoopAt<T>(f: (nat, nat) -> T, n: nat, chunkSize: int, step: nat, start: nat, acc: seq<T>, k: nat)
    requires step >= 1 && |acc| <= k < |CharLoop(f, n, chunkSize, step, start, acc)|
    ensures start + WindowStart(k - |acc|, step) < n
    ensures CharLoop(f, n, chunkSize, step, start, acc)[k] == f(k, start + WindowStart(k - |acc|, step))
    ensures k + 1 < |CharLoop(f, n, chunkSize, step, start, acc)| ==> start + WindowStart(k - |acc|, step) + chunkSize < n
    ensures k + 1 == |CharLoop(f, n, chunkSize, step, start, acc)| ==>
              start + WindowStart(k - |acc|, step) + chunkSize >= n || start + WindowStart(k - |acc|, step) + step >= n
    decreases n - start
  {
    CharLoopStep(f, n, chunkSize, step, start, acc);
    var acc' := acc + [f(|acc|, start)];
    if start + chunkSize < n {
      CharLoopLength(f, n, chunkSize, step, start + step, acc');
      if k == |acc| {
        CharLoopPrefix(f, n, chunkSize, step, start + step, acc', k);
      } else {
        CharLoopAt(f, n, chunkSize, step, start + step, acc', k);
        WindowStartNext(k - |acc'|, step);
      }
    }
  }

  // ------------------------------------------------------------ words mode

  /** Whether `words[j:j + chunk_size]` is empty, for `0 <= j < n`: a
      non-negative end is capped at `n`, a negative one counts from the
      end. */
  predicate EmptyWindow(n: nat, j: nat, chunkSize: int)
  {
    if j + chunkSize >= 0 then chunkSize <= 0 else chunkSize + n <= 0
  }

  lemma EmptyWindowSlice<T>(words: seq<T>, j: nat, chunkSize: int)
    requires j < |words|
    ensures EmptyWindow(|words|, j, chunkSize) <==> PySlice(words, j, j + chunkSize) == []
  {
    PySliceLen(words, j, j + chunkSize);
  }

  /** The window `words[j:j+chunk_size]` joined by single spaces, named by
      its word offset. */
  function WordChunk(d: Doc, words: seq<string>, chunkSize: int, j: nat): Chunk
  {
    Chunk(d.docId + "::w" + NatToString(j), d.docId, d.title, JoinSpace(PySlice(words, j, j + chunkSize)),
          d.sourcePath, None, None)
  }

  /** The window at word offset `j` (its number is not part of it). */
  function WordChunkAt(d: Doc, words: seq<string>, chunkSize: int): (nat, nat) -> Chunk
  {
    (k: nat, j: nat) => WordChunk(d, words, chunkSize, j)
  }

  /** What the words-mode loop over `n` words returns when it is entered
      at offset `j` with `acc` already collected: a window at every value
      of `range(j, n, step)`, stopping before an empty window and after
      the window that reaches the last word. */
  function WordLoop<T>(f: (nat, nat) -> T, n: nat, chunkSize: int, step: nat, j: nat, acc: seq<T>): seq<T>
    requires step >= 1
    decreases n - j
  {
    if j >= n || EmptyWindow(n, j, chunkSize) then acc
    else
      var acc' := acc + [f(|acc|, j)];
      if j + chunkSize >= n then acc' else WordLoop(f, n, chunkSize, step, j + step, acc')
  }

  /** The words-mode chunks of one document split into `words`. */
  function WordChunksOf(d: Doc, words: seq<string>, chunkSize: int, step: nat): seq<Chunk>
    requires step >= 1
  {
    WordLoop(WordChunkAt(d, words, chunkSize), |words|, chunkSize, step, 0, [])
  }

  /** The words-mode loop over one document. */
  method DocWordChunks(d: Doc, chunkSize: int, step: nat) returns (out: seq<Chunk>)
    requires step >= 1
    ensures out == WordChunksOf(d, Words(d.text), chunkSize, step)
  {
    var words := Words(d.text);
    ghost var total := DocWordLoop(d, words, chunkSize, step, 0, []);
    out := [];
    var j: nat := 0;
    while j < |words|
      invariant DocWordLoop(d, words, chunkSize, step, j, out) == total
      decreases |words| - j
    {
      var part := PySlice(words, j, j + chunkSize);
      EmptyWindowSlice(words, j, chunkSize);
      if part == [] {
        DocWordLoopStop(d, words, chunkSize, step, j, out);
        return;
      }
      var c := Chunk(d.docId + "::w" + NatToString(j), d.docId, d.title, JoinSpace(part), d.sourcePath, None, None);
      assert c == WordChunk(d, words, chunkSize, j);
      if j + chunkSize >= |words| {
        DocWordLoopLast(d, words, chunkSize, step, j, out);
        out := out + [c];
        return;
      }
      DocWordLoopNext(d, words, chunkSize, step, j, out);
      out := out + [c];
      j := j + step;
    }
    DocWordLoopStop(d, words, chunkSize, step, j, out);
  }

  /** The words-mode loop over the words of `d`. */
  ghost function DocWordLoop(d: Doc, words: seq<string>, chunkSize: int, step: nat, j: nat, acc: seq<Chunk>): seq<Chunk>
    requires step >= 1
  {
    WordLoop(WordChunkAt(d, words, chunkSize), |words|, chunkSize, step, j, acc)
  }

  lemma DocWordLoopStop(d: Doc, words: seq<string>, chunkSize: int, step: nat, j: nat, acc: seq<Chunk>)
    requires step >= 1 && (j >= |words| || EmptyWindow(|words|, j, chunkSize))
    ensures DocWordLoop(d, words, chunkSize, step, j, acc) == acc
  {
  }

  lemma DocWordLoopLast(d: Doc, words: seq<string>, chunkSize: int, step: nat, j: nat, acc: seq<Chunk>)
    requires step >= 1 && j < |words| && !EmptyWindow(|words|, j, chunkSize) && j + chunkSize >= |words|
    ensures DocWordLoop(d, words, chunkSize, step, j, acc) == acc + [WordChunk(d, words, chunkSize, j)]
  {
  }

  lemma DocWordLoopNext(d: Doc, words: seq<string>, chunkSize: int, step: nat, j: nat, acc: seq<Chunk>)
    requires step >= 1 && j < |words| && !EmptyWindow(|words|, j, chunkSize) && j + chunkSize < |words|
    ensures DocWordLoop(d, words, chunkSize, step, j, acc)
         == DocWordLoop(d, words, chunkSize, step, j + step, acc + [WordChunk(d, words, chunkSize, j)])
  {
  }

  /** One turn of the words-mode loop. */
  lemma WordLoopStep<T>(f: (nat, nat) -> T, n: nat, chunkSize: int, step: nat, j: nat, acc: seq<T>)
    requires step >= 1
    ensures j >= n || EmptyWindow(n, j, chunkSize) ==> WordLoop(f, n, chunkSize, step, j, acc) == acc
    ensures j < n && !EmptyWindow(n, j, chunkSize) && j + chunkSize >= n ==>
              WordLoop(f, n, chunkSize, step, j, acc) == acc + [f(|acc|, j)]
    ensures j < n && !EmptyWindow(n, j, chunkSize) && j + chunkSize < n ==>
              WordLoop(f, n, chunkSize, step, j, acc) == WordLoop(f, n, chunkSize, step, j + step, acc + [f(|acc|, j)])
  {
  }

  /** The loop only appends, and it appends a window whenever the window
      at `j` is not empty. */
  lemma {:induction false} WordLoopLength<T>(f: (nat, nat) -> T, n: nat, chunkSize: int, step: nat, j: nat, acc: seq<T>)
    requires step >= 1
    ensures |WordLoop(f, n, chunkSize, step, j, acc)| >= |acc|
    ensures j < n && !EmptyWindow(n, j, chunkSize) <==> |WordLoop(f, n, chunkSize, step, j, acc)| > |acc|
    decreases n - j
  {
    WordLoopStep(f, n, chunkSize, step, j, acc);
    if j < n && !EmptyWindow(n, j, chunkSize) && j + chunkSize < n {
      WordLoopLength(f, n, chunkSize, step, j + step, acc + [f(|acc|, j)]);
    }
  }

  /** What was collected before stays in place. */
  lemma {:induction false} WordLoopPrefix<T>(f: (nat, nat) -> T, n: nat, chunkSize: int, step: nat, j: nat, acc: seq<T>, k: nat)
    requires step >= 1 && k < |acc|
    ensures k < |WordLoop(f, n, chunkSize, step, j, acc)|
    ensures WordLoop(f, n, chunkSize, step, j, acc)[k] == acc[k]
    decreases n - j
  {
    WordLoopStep(f, n, chunkSize, step, j, acc);
    if j < n && !EmptyWindow(n, j, chunkSize) && j + chunkSize < n {
      WordLoopPrefix(f, n, chunkSize, step, j + step, acc + [f(|acc|, j)], k);
    }
  }

  /** The `k`-th window is opened at `j + (k - |acc|) * step`, on a word
      and not empty; every window but the last ends before the last word;
      the last one reaches it, or the range has no further value, or the
      next window would be empty. */
  lemma {:induction false} WordLoopAt<T>(f: (nat, nat) -> T, n: nat, chunkSize: int, step: nat, j: nat, acc: seq<T>, k: nat)
    requires step >= 1 && |acc| <= k < |WordLoop(f, n, chunkSize, step, j, acc)|
    ensures j + WindowStart(k - |acc|, step) < n && !EmptyWindow(n, j + WindowStart(k - |acc|, step), chunkSize)
    ensures WordLoop(f, n, chunkSize, step, j, acc)[k] == f(k, j + WindowStart(k - |acc|, step))
    ensures k + 1 < |WordLoop(f, n, chunkSize, step, j, acc)| ==> j + WindowStart(k - |acc|, step) + chunkSize < n
    ensures k + 1 == |WordLoop(f, n, chunkSize, step, j, acc)| ==>
              || j + WindowStart(k - |acc|, step) + chunkSize >= n
              || j + WindowStart(k - |acc|, step) + step >= n
              || EmptyWindow(n, j + WindowStart(k - |acc|, step) + step, chunkSize)
    decreases n - j
  {
    WordLoopStep(f, n, chunkSize, step, j, acc);
    var acc' := acc + [f(|acc|, j)];
    if j + chunkSize < n {
      WordLoopLength(f, n, chunkSize, step, j + step, acc');
      if k == |acc| {
        WordLoopPrefix(f, n, chunkSize, step, j + step, acc', k);
      } else {
        WordLoopAt(f, n, chunkSize, step, j + step, acc', k);
        WindowStartNext(k - |acc'|, step);
      }
    }
  }

  // ------------------------------------------------------------ both modes

  function DocChunks(d: Doc, mode: string, chunkSize: int, overlap: int): seq<Chunk>
  {
    var step := Stride(chunkSize, overlap);
    if mode == "chars" then CharChunksOf(d, chunkSize, step)
    else WordChunksOf(d, Words(d.text), chunkSize, step)
  }

  /** The chunks of all documents, document by document. */
  function AllChunks(docs: seq<Doc>, mode: string, chunkSize: int, overlap: int): seq<Chunk>
  {
    if docs == [] then []
    else AllChunks(docs[..|docs| - 1], mode, chunkSize, overlap) + DocChunks(docs[|docs| - 1], mode, chunkSize, overlap)
  }

  /** `build_chunks(docs, mode, chunk_size, overlap)`: the chars-mode loop
      when `mode == "chars"`, the words-mode loop otherwise. */
  method BuildChunks(docs: seq<Doc>, mode: string, chunkSize: int, overlap: int) returns (chunks: seq<Chunk>)
    ensures chunks == AllChunks(docs, mode, chunkSize, overlap)
  {
    chunks := [];
    if mode == "chars" {
      var step := Stride(chunkSize, overlap);
      for i := 0 to |docs|
        invariant chunks == AllChunks(docs[..i], mode, chunkSize, overlap)
      {
        var part := DocCharChunks(docs[i], chunkSize, step);
        chunks := chunks + part;
        assert docs[..i + 1][..i] == docs[..i];
      }
      assert docs[..|docs|] == docs;
      return;
    }
    var step := Stride(chunkSize, overlap);
    for i := 0 to |docs|
      invariant chunks == AllChunks(docs[..i], mode, chunkSize, overlap)
    {
      var part := DocWordChunks(docs[i], chunkSize, step);
      chunks := chunks + part;
      assert docs[..i + 1][..i] == docs[..i];
    }
    assert docs[..|docs|] == docs;
  }

  // ------------------------------------------------------------ properties

  /** Chars mode, window `k` of a document: it is
      `text[k*step : min(n, k*step + chunk_size)]`, named `doc_id::c{k}`,
      and it opens inside the text; every window but the last ends before
      the end of the text; the last one reaches it, or the range has no
      further value. */
  lemma CharChunkShape(d: Doc, chunkSize: int, overlap: int, k: nat)
    requires k < |DocChunks(d, "chars", chunkSize, overlap)|
    ensures var cs := DocChunks(d, "chars", chunkSize, overlap);
            var step := Stride(chunkSize, overlap);
            var n := |d.text|;
            && WindowStart(k, step) < n
            && cs[k] == CharChunk(d, k, WindowStart(k, step), MinInt(n, WindowStart(k, step) + chunkSize))
            && (k + 1 < |cs| ==> WindowStart(k, step) + chunkSize < n)
            && (k + 1 == |cs| ==> WindowStart(k, step) + chunkSize >= n || WindowStart(k + 1, step) >= n)
  {
    var step := Stride(chunkSize, overlap);
    CharLoopAt(CharChunkAt(d, chunkSize), |d.text|, chunkSize, step, 0, [], k);
    WindowStartNext(k, step);
  }

  /** Chars mode: a document gets a window exactly when its text is not
      empty. */
  lemma CharChunksEmpty(d: Doc, chunkSize: int, overlap: int)
    ensures |DocChunks(d, "chars", chunkSize, overlap)| == 0 <==> |d.text| == 0
  {
    CharLoopLength(CharChunkAt(d, chunkSize), |d.text|, chunkSize, Stride(chunkSize, overlap), 0, []);
  }

  /** Chars mode, with a positive window and a non-negative overlap: the
      last window of a non-empty text ends at the end of the text. */
  lemma CharChunksEnd(d: Doc, chunkSize: int, overlap: int)
    requires |d.text| > 0 && chunkSize >= 1 && overlap >= 0
    ensures var cs := DocChunks(d, "chars", chunkSize, overlap);
            |cs| > 0 && cs[|cs| - 1].charEnd == Some(|d.text|)
  {
    var cs := DocChunks(d, "chars", chunkSize, overlap);
    CharChunksEmpty(d, chunkSize, overlap);
    StrideWithinWindow(chunkSize, overlap);
    CharChunkShape(d, chunkSize, overlap, |cs| - 1);
  }

  /** Chars mode, with a positive window and a non-negative overlap: every
      position of the text lies in some window. */
  lemma CharChunksCover(d: Doc, chunkSize: int, overlap: int, p: nat) returns (k: nat)
    requires p < |d.text| && chunkSize >= 1 && overlap >= 0
    ensures var cs := DocChunks(d, "chars", chunkSize, overlap);
            && k < |cs|
            && cs[k].charStart.Some? && cs[k].charEnd.Some?
            && cs[k].charStart.value <= p < cs[k].charEnd.value
  {
    var cs := DocChunks(d, "chars", chunkSize, overlap);
    var step := Stride(chunkSize, overlap);
    var n := |d.text|;
    CharChunksEmpty(d, chunkSize, overlap);
    StrideWithinWindow(chunkSize, overlap);
    var m := |cs| - 1;
    var q := FloorDiv(p, step);
    if q <= m {
      k := q;
    } else {
      k := m;
      WindowStartMono(m + 1, q, step);
      WindowStartNext(m, step);
    }
    CharChunkShape(d, chunkSize, overlap, k);
  }

  /** Words mode, window `k` of a document split into `words`: it opens at
      word `k*step` with a non-empty window and is named `doc_id::w{k*step}`;
      every window but the last ends before the last word; the last one
      reaches it, or the range has no further value, or the next window
      would be empty. */
  lemma WordChunkShape(d: Doc, mode: string, chunkSize: int, overlap: int, k: nat)
    requires mode != "chars" && k < |DocChunks(d, mode, chunkSize, overlap)|
    ensures var cs := DocChunks(d, mode, chunkSize, overlap);
            var step := Stride(chunkSize, overlap);
            var words := Words(d.text);
            && WindowStart(k, step) < |words|
            && PySlice(words, WindowStart(k, step), WindowStart(k, step) + chunkSize) != []
            && cs[k] == WordChunk(d, words, chunkSize, WindowStart(k, step))
            && (k + 1 < |cs| ==> WindowStart(k, step) + chunkSize < |words|)
            && (k + 1 == |cs| ==>
                  || WindowStart(k, step) + chunkSize >= |words|
                  || WindowStart(k + 1, step) >= |words|
                  || PySlice(words, WindowStart(k + 1, step), WindowStart(k + 1, step) + chunkSize) == [])
  {
    var step := Stride(chunkSize, overlap);
    var words := Words(d.text);
    WordLoopAt(WordChunkAt(d, words, chunkSize), |words|, chunkSize, step, 0, [], k);
    WindowStartNext(k, step);
    EmptyWindowSlice(words, WindowStart(k, step), chunkSize);
    if WindowStart(k + 1, step) < |words| {
      EmptyWindowSlice(words, WindowStart(k + 1, step), chunkSize);
    }
  }

  /** Words mode: the text of a chunk is its window of words joined by
      single spaces, so it is not empty and splitting it again gives the
      window back; for a positive `chunk_size` that window is
      `words[k*step : min(len(words), k*step + chunk_size)]`. */
  lemma WordChunkText(d: Doc, mode: string, chunkSize: int, overlap: int, k: nat)
    requires mode != "chars" && k < |DocChunks(d, mode, chunkSize, overlap)|
    ensures var cs := DocChunks(d, mode, chunkSize, overlap);
            var step := Stride(chunkSize, overlap);
            var words := Words(d.text);
            && WindowStart(k, step) < |words|
            && |cs[k].text| > 0
            && Words(cs[k].text) == PySlice(words, WindowStart(k, step), WindowStart(k, step) + chunkSize)
            && (chunkSize >= 1 ==> cs[k].text == JoinSpace(words[WindowStart(k, step)..MinInt(|words|, WindowStart(k, step) + chunkSize)]))
  {
    var step := Stride(chunkSize, overlap);
    var words := Words(d.text);
    WordChunkShape(d, mode, chunkSize, overlap, k);
    var s := WindowStart(k, step);
    var lo, hi := PySliceRun(words, s, s + chunkSize);
    JoinSpaceRun(d.text, lo, hi);
    if chunkSize >= 1 {
      PySliceClamp(words, s, s + chunkSize);
    }
  }

  /** Words mode: a document gets a window exactly when it has a word and
      the first window `words[0:chunk_size]` is not empty. */
  lemma WordChunksEmpty(d: Doc, mode: string, chunkSize: int, overlap: int)
    requires mode != "chars"
    ensures |DocChunks(d, mode, chunkSize, overlap)| == 0
            <==> |Words(d.text)| == 0 || PySlice(Words(d.text), 0, chunkSize) == []
  {
    var words := Words(d.text);
    WordLoopLength(WordChunkAt(d, words, chunkSize), |words|, chunkSize, Stride(chunkSize, overlap), 0, []);
    if |words| > 0 {
      EmptyWindowSlice(words, 0, chunkSize);
    }
  }

  /** Words mode, with a positive window and a non-negative overlap: the
      last window of a document with words ends with its last word. */
  lemma WordChunksEnd(d: Doc, mode: string, chunkSize: int, overlap: int)
    requires mode != "chars" && |Words(d.text)| > 0 && chunkSize >= 1 && overlap >= 0
    ensures var cs := DocChunks(d, mode, chunkSize, overlap);
            var step := Stride(chunkSize, overlap);
            var words := Words(d.text);
            && |cs| > 0
            && WindowStart(|cs| - 1, step) < |words|
            && WindowStart(|cs| - 1, step) + chunkSize >= |words|
            && cs[|cs| - 1].text == JoinSpace(words[WindowStart(|cs| - 1, step)..])
  {
    var cs := DocChunks(d, mode, chunkSize, overlap);
    var words := Words(d.text);
    WordChunksEmpty(d, mode, chunkSize, overlap);
    StrideWithinWindow(chunkSize, overlap);
    var k := |cs| - 1;
    var s := WindowStart(k, Stride(chunkSize, overlap));
    WordChunkShape(d, mode, chunkSize, overlap, k);
    WordChunkText(d, mode, chunkSize, overlap, k);
    WindowStartNext(k, Stride(chunkSize, overlap));
    var next := WindowStart(k + 1, Stride(chunkSize, overlap));
    if next < |words| {
      EmptyWindowSlice(words, next, chunkSize);
    }
    assert s + chunkSize >= |words|;
    assert words[s..MinInt(|words|, s + chunkSize)] == words[s..];
  }

  /** Words mode, with a positive window and a non-negative overlap: every
      word lies in some window. */
  lemma WordChunksCover(d: Doc, mode: string, chunkSize: int, overlap: int, p: nat) returns (k: nat)
    requires mode != "chars" && p < |Words(d.text)| && chunkSize >= 1 && overlap >= 0
    ensures var step := Stride(chunkSize, overlap);
            && k < |DocChunks(d, mode, chunkSize, overlap)|
            && WindowStart(k, step) <= p < WindowStart(k, step) + chunkSize
  {
    var cs := DocChunks(d, mode, chunkSize, overlap);
    var step := Stride(chunkSize, overlap);
    WordChunksEmpty(d, mode, chunkSize, overlap);
    StrideWithinWindow(chunkSize, overlap);
    var m := |cs| - 1;
    var q := FloorDiv(p, step);
    if q <= m {
      k := q;
    } else {
      k := m;
      WordChunkShape(d, mode, chunkSize, overlap, m);
      WindowStartMono(m + 1, q, step);
      WindowStartNext(m, step);
      var next := WindowStart(m + 1, step);
      EmptyWindowSlice(Words(d.text), next, chunkSize);
    }
  }

  /** Every chunk of a document carries the document's id, title and
      source path. */
  lemma DocChunksCopyFields(d: Doc, mode: string, chunkSize: int, overlap: int)
    ensures forall c :: c in DocChunks(d, mode, chunkSize, overlap) ==>
              c.docId == d.docId && c.title == d.title && c.sourcePath == d.sourcePath
  {
    var cs := DocChunks(d, mode, chunkSize, overlap);
    forall i | 0 <= i < |cs|
      ensures cs[i].docId == d.docId && cs[i].title == d.title && cs[i].sourcePath == d.sourcePath
    {
      if mode == "chars" {
        CharChunkShape(d, chunkSize, overlap, i);
      } else {
        WordChunkShape(d, mode, chunkSize, overlap, i);
      }
    }
  }

  /** The output is grouped by document, in document order: the chunks of
      the first `i` documents come first, then those of document `i`. */
  lemma {:induction false} AllChunksGrouped(docs: seq<Doc>, mode: string, chunkSize: int, overlap: int, i: nat)
    requires i < |docs|
    ensures AllChunks(docs[..i + 1], mode, chunkSize, overlap)
         == AllChunks(docs[..i], mode, chunkSize, overlap) + DocChunks(docs[i], mode, chunkSize, overlap)
  {
    assert docs[..i + 1][..i] == docs[..i];
  }

  /** Every chunk comes from one of the documents and carries its fields. */
  lemma {:induction false} AllChunksFromDocs(docs: seq<Doc>, mode: string, chunkSize: int, overlap: int)
    ensures forall c :: c in AllChunks(docs, mode, chunkSize, overlap) ==>
              exists i :: 0 <= i < |docs| && c.docId == docs[i].docId && c.title == docs[i].title
                                          && c.sourcePath == docs[i].sourcePath
    decreases |docs|
  {
    if docs != [] {
      var n := |docs|;
      AllChunksFromDocs(docs[..n - 1], mode, chunkSize, overlap);
      DocChunksCopyFields(docs[n - 1], mode, chunkSize, overlap);
      forall c | c in AllChunks(docs, mode, chunkSize, overlap)
        ensures exists i :: 0 <= i < n && c.docId == docs[i].docId && c.title == docs[i].title
                                       && c.sourcePath == docs[i].sourcePath
      {
        if c in AllChunks(docs[..n - 1], mode, chunkSize, overlap) {
          var i :| 0 <= i < n - 1 && c.docId == docs[..n - 1][i].docId && c.title == docs[..n - 1][i].title
                                  && c.sourcePath == docs[..n - 1][i].sourcePath;
          assert docs[..n - 1][i] == docs[i];
        }
      }
    }
  }
}

/**
  The PDF processor of the posting agent: the acceptance checks that turn
  one PDF into a document record, and the overlapping word-window chunking
  of a document's text.
 */
module PdfProcessor {
  import opened Common
  import opened PyText

  // ---------------------------------------------------------------------------
  // process_single_pdf

  datatype Metadata = Metadata(pages: int, characters: nat, words: nat, processedAt: string)

  datatype Document = Document(filename: string, filepath: string, hash: string, content: string, metadata: Metadata)

  /** What the processor learns about one PDF from the file system and the
      extraction libraries: whether it exists, its MD5 hash, the record saved
      by an earlier run under `<stem>_<hash>.json` (if any), and the
      extracted, stripped text. */
  datatype PdfSource = PdfSource(name: string, path: string, onDisk: bool, hash: string,
                                 saved: Option<Document>, text: string)

  /** Texts shorter than this are rejected as "minimal text". */
  const MinTextLength := 100

  /** The number of occurrences of `c` in `s` (`s.count(c)`). */
  function CountChar(s: string, c: char): nat
  {
    if s == [] then 0 else (if s[0] == c then 1 else 0) + CountChar(s[1..], c)
  }

  /** `process_single_pdf` as written: building the metadata calls
      `Path.timestamp`, which `pathlib.Path` does not have, so the
      AttributeError is caught and every PDF without a saved record gives None. */
  function ProcessSinglePdf(pdf: PdfSource): Option<Document>
  {
    if !pdf.onDisk then None
    else if pdf.saved.Some? then pdf.saved
    else if |pdf.text| < MinTextLength then None
    else None
  }

  /** As written, only a previously saved record is ever returned. */
  lemma ProcessSinglePdfOnlySaved(pdf: PdfSource)
    ensures ProcessSinglePdf(pdf).Some? ==> pdf.onDisk && ProcessSinglePdf(pdf) == pdf.saved
    ensures pdf.onDisk && pdf.saved.None? ==> ProcessSinglePdf(pdf).None?
  {
  }

  /** A fresh PDF with plenty of text is dropped as written and kept once fixed. */
  lemma FreshPdfDropped(pdf: PdfSource, processedAt: string)
    requires pdf.onDisk && pdf.saved.None? && |pdf.text| >= MinTextLength
    ensures ProcessSinglePdf(pdf).None?
    ensures ProcessSinglePdfFixed(pdf, processedAt).Some?
  {
  }

  /** `process_single_pdf` with the timestamp supplied by the caller: a missing
      file or a text under 100 characters gives None, a saved record is reused,
      otherwise a new record describes the text. */
  function ProcessSinglePdfFixed(pdf: PdfSource, processedAt: string): (r: Option<Document>)
    ensures r.None? <==> !pdf.onDisk || (pdf.saved.None? && |pdf.text| < MinTextLength)
    ensures pdf.onDisk && pdf.saved.Some? ==> r == pdf.saved
    ensures r.Some? && pdf.saved.None? ==>
      && r.value.content == pdf.text && |r.value.content| >= MinTextLength
      && r.value.filename == pdf.name && r.value.hash == pdf.hash
      && r.value.metadata.characters == |pdf.text|
      && r.value.metadata.words == |Words(pdf.text)|
      && r.value.metadata.pages >= 1
      && r.value.metadata.pages == CountChar(pdf.text, '\n') / 50 + 1
  {
    if !pdf.onDisk then None
    else if pdf.saved.Some? then pdf.saved
    else if |pdf.text| < MinTextLength then None
    else
      var meta := Metadata(CountChar(pdf.text, '\n') / 50 + 1, |pdf.text|, |Words(pdf.text)|, processedAt);
      Some(Document(pdf.name, pdf.path, pdf.hash, pdf.text, meta))
  }

  // ---------------------------------------------------------------------------
  // chunk_text

  /** The word windows of `chunk_text`: a window of at most `size` words
      starts every `step` words, and the first window that reaches the last
      word is the final one. */
  function Windows(words: seq<string>, size: nat, step: nat): (ws: seq<seq<string>>)
    requires 0 < step <= size
    ensures |ws| >= 1
    decreases |words|
  {
    if |words| <= size then [words]
    else [words[..size]] + Windows(words[step..], size, step)
  }

  /** Each window joined with single spaces. */
  function JoinAll(ws: seq<seq<string>>): (r: seq<string>)
    ensures |r| == |ws|
  {
    if ws == [] then [] else [Join(ws[0], " ")] + JoinAll(ws[1..])
  }

  /** The result of `chunk_text`; None is the ValueError that `range` raises
      for a step of 0. A negative step makes `range` empty. */
  function Chunks(text: string, chunkSize: nat, overlap: nat): Option<seq<string>>
  {
    var words := Words(text);
    if |words| <= chunkSize then Some([Join(words, " ")])
    else if chunkSize == overlap then None
    else if chunkSize < overlap then Some([])
    else Some(JoinAll(Windows(words, chunkSize, chunkSize - overlap)))
  }

  /** `chunk_text`: walks the word list with `range(0, n, size - overlap)`,
      appending each window and stopping after the first that reaches the end. */
  method ChunkText(text: string, chunkSize: nat, overlap: nat) returns (r: Option<seq<string>>)
    ensures r == Chunks(text, chunkSize, overlap)
    ensures chunkSize > overlap ==> r.Some? && |r.value| >= 1
  {
    var words := Words(text);
    var n := |words|;
    if n <= chunkSize {
      return Some([Join(words, " ")]);
    }
    if chunkSize == overlap {
      return None;
    }
    if chunkSize < overlap {
      return Some([]);
    }
    var chunks := WindowChunks(words, chunkSize, chunkSize - overlap);
    return Some(chunks);
  }

  /** The `range` loop of `chunk_text` over a word list longer than one window. */
  method WindowChunks(words: seq<string>, size: nat, step: nat) returns (chunks: seq<string>)
    requires 0 < step <= size < |words|
    ensures chunks == JoinAll(Windows(words, size, step))
  {
    var n := |words|;
    ghost var whole := JoinAll(Windows(words, size, step));
    chunks := [];
    var i := 0;
    while true
      invariant 0 <= i < n
      invariant chunks + JoinAll(Windows(words[i..], size, step)) == whole
      decreases n - i
    {
      var end := if i + size <= n then i + size else n;
      ghost var before := chunks;
      var piece := Join(words[i..end], " ");
      chunks := chunks + [piece];
      if i + size >= n {
        assert words[i..end] == words[i..];
        LastWindow(words, size, step, i);
        break;
      }
      NextWindow(words, size, step, i);
      AppendAssociates(before, [piece], JoinAll(Windows(words[i + step..], size, step)));
      i := i + step;
    }
  }

  lemma AppendAssociates<T>(a: seq<T>, b: seq<T>, c: seq<T>)
    ensures a + (b + c) == (a + b) + c
  {
  }

  /** The window starting at word i is the last one once it reaches the end. */
  lemma LastWindow(words: seq<string>, size: nat, step: nat, i: nat)
    requires 0 < step <= size && i < |words| && i + size >= |words|
    ensures JoinAll(Windows(words[i..], size, step)) == [Join(words[i..], " ")]
  {
  }

  /** One turn of the `range` loop: the windows from word i are the window
      starting at i followed by the windows from word i + step. */
  lemma NextWindow(words: seq<string>, size: nat, step: nat, i: nat)
    requires 0 < step <= size && i + size < |words|
    ensures JoinAll(Windows(words[i..], size, step))
      == [Join(words[i..i + size], " ")] + JoinAll(Windows(words[i + step..], size, step))
  {
    assert words[i..][step..] == words[i + step..];
    assert words[i..][..size] == words[i..i + size];
    var ws := Windows(words[i..], size, step);
    assert ws[1..] == Windows(words[i + step..], size, step);
  }

  /** Text that fits in one chunk is one chunk; empty text is the single chunk "". */
  lemma ChunksShortText(text: string, chunkSize: nat, overlap: nat)
    requires |Words(text)| <= chunkSize
    ensures Chunks(text, chunkSize, overlap) == Some([Normalize(text)])
    ensures text == "" ==> Chunks(text, chunkSize, overlap) == Some([""])
  {
  }

  lemma MulStep(k: nat, step: nat)
    ensures (k + 1) * step == k * step + step
  {
  }

  /** Window k starts at word k * step and holds the next `size` words (fewer
      only at the end); every window but the last is full. */
  lemma {:induction false} WindowAt(words: seq<string>, size: nat, step: nat, k: nat)
    requires 0 < step <= size
    requires k < |Windows(words, size, step)|
    ensures k * step < |words| || (k == 0 && words == [])
    ensures Windows(words, size, step)[k] == words[k * step .. Min(k * step + size, |words|)]
    ensures k < |Windows(words, size, step)| - 1 ==> |Windows(words, size, step)[k]| == size
    ensures k == |Windows(words, size, step)| - 1 ==> k * step + size >= |words|
    decreases |words|
  {
    if |words| > size && k > 0 {
      var rest := words[step..];
      WindowAt(rest, size, step, k - 1);
      MulStep(k - 1, step);
      assert rest[(k - 1) * step .. Min((k - 1) * step + size, |rest|)]
          == words[k * step .. Min(k * step + size, |words|)];
    }
  }

  /** Gluing the windows back, each but the last cut to its first `step`
      words, gives the word list: no word is lost, duplicated or reordered. */
  function Reassemble(ws: seq<seq<string>>, step: nat): seq<string>
    requires |ws| >= 1
  {
    if |ws| == 1 then ws[0]
    else Prefix(ws[0], step) + Reassemble(ws[1..], step)
  }

  lemma {:induction false} WindowsCover(words: seq<string>, size: nat, step: nat)
    requires 0 < step <= size
    ensures Reassemble(Windows(words, size, step), step) == words
    decreases |words|
  {
    if |words| > size {
      WindowsCover(words[step..], size, step);
      assert words[..size][..step] == words[..step];
      assert words[..step] + words[step..] == words;
    }
  }

  /** Consecutive windows share exactly `size - step` (the overlap) words: the
      tail of one window is the head of the next. */
  lemma {:induction false} WindowsOverlap(words: seq<string>, size: nat, step: nat, k: nat)
    requires 0 < step <= size
    requires k + 1 < |Windows(words, size, step)|
    ensures |Windows(words, size, step)[k]| == size
    ensures |Windows(words, size, step)[k + 1]| > size - step
    ensures Windows(words, size, step)[k][step..] == Windows(words, size, step)[k + 1][..size - step]
    decreases |words|
  {
    var ws := Windows(words, size, step);
    WindowAt(words, size, step, k);
    if k == 0 {
      var next := Windows(words[step..], size, step);
      WindowAt(words[step..], size, step, 0);
      assert ws[1] == next[0];
    } else {
      WindowsOverlap(words[step..], size, step, k - 1);
    }
  }
}

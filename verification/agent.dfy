/**
  The bookkeeping state of the PDF posting agent: which PDFs have been
  processed, which posts went out, how many runs succeeded and which errors
  were met. The PDF processor, vector store, language model and poster are
  parameters: their answers are given to each operation.
 */
module AgentState {
  import opened Common
  import opened PyText
  import PdfProcessor
  import TextAnalyzer

  /** One `processed_files` entry (its `processed_at` time is not modelled). */
  datatype ProcessedFile = ProcessedFile(filename: string, hash: string)

  /** One `posted_tweets` entry. */
  datatype PostedTweet = PostedTweet(tweetId: Option<string>, topic: Option<string>, contentPreview: string)

  /** One `errors` entry; a raised exception leaves no post preview. */
  datatype ErrorEntry = ErrorEntry(error: string, postPreview: Option<string>)

  /** A PDF found in the document directory, with its MD5 hash. */
  datatype PdfFile = PdfFile(name: string, hash: string)

  /** The answer of `post_tweet`: a success with its tweet id, a failure with
      or without an "error" entry, no result at all, or an exception. */
  datatype PostOutcome = Posted(tweetId: Option<string>) | Failed(error: Option<string>) | NoResult | Raised(message: string)

  /** The numbers reported under "agent" by `get_stats`. */
  datatype Stats = Stats(totalRuns: int, lastRun: Option<string>, totalTweets: nat, totalDocuments: nat, errorCount: nat)

  /** Default cap on a generated post (MAX_POST_LENGTH). */
  const MaxPostLength := 280

  /** True when the list already records this file name with this hash. */
  predicate AlreadyProcessed(processed: seq<ProcessedFile>, f: PdfFile)
  {
    exists e :: e in processed && e.filename == f.name && e.hash == f.hash
  }

  /** What `process_new_documents` does with one PDF: skip it when already
      recorded, otherwise process it and, if that yields a document, keep the
      document and record the file. */
  function ScanStep(docs: seq<PdfProcessor.Document>, processed: seq<ProcessedFile>, f: PdfFile,
                    process: PdfFile -> Option<PdfProcessor.Document>): (seq<PdfProcessor.Document>, seq<ProcessedFile>)
  {
    if AlreadyProcessed(processed, f) then (docs, processed)
    else match process(f)
      case None => (docs, processed)
      case Some(d) => (docs + [d], processed + [ProcessedFile(f.name, f.hash)])
  }

  /** The new documents and the processed list after scanning `pdfs` in order. */
  function Scan(processed: seq<ProcessedFile>, pdfs: seq<PdfFile>,
                process: PdfFile -> Option<PdfProcessor.Document>): (seq<PdfProcessor.Document>, seq<ProcessedFile>)
  {
    if pdfs == [] then ([], processed)
    else
      var prev := Scan(processed, pdfs[..|pdfs| - 1], process);
      ScanStep(prev.0, prev.1, pdfs[|pdfs| - 1], process)
  }

  /** A PDF is skipped exactly when its name and hash are on record; a file
      whose name is recorded under another hash is processed again. */
  lemma ScanStepSkip(docs: seq<PdfProcessor.Document>, processed: seq<ProcessedFile>, f: PdfFile,
                     process: PdfFile -> Option<PdfProcessor.Document>)
    ensures var (docs', processed') := ScanStep(docs, processed, f, process);
      && (AlreadyProcessed(processed, f) ==> docs' == docs && processed' == processed)
      && (!AlreadyProcessed(processed, f) && process(f).Some? ==>
            docs' == docs + [process(f).value] && processed' == processed + [ProcessedFile(f.name, f.hash)])
      && (process(f).None? ==> docs' == docs && processed' == processed)
  {
  }

  /** The processed list grows by exactly one entry per new document, keeps
      its old entries in front, and records each file at most once. */
  lemma {:induction false} ScanGrowth(processed: seq<ProcessedFile>, pdfs: seq<PdfFile>,
                                      process: PdfFile -> Option<PdfProcessor.Document>)
    ensures var (docs, processed') := Scan(processed, pdfs, process);
      && |processed'| == |processed| + |docs|
      && processed <= processed'
      && |docs| <= |pdfs|
      && forall i :: |processed| <= i < |processed'| ==>
           exists k :: 0 <= k < |pdfs| && processed'[i] == ProcessedFile(pdfs[k].name, pdfs[k].hash)
  {
    if pdfs != [] {
      var init := pdfs[..|pdfs| - 1];
      ScanGrowth(processed, init, process);
      var prev := Scan(processed, init, process);
      var f := pdfs[|pdfs| - 1];
      var (docs, processed') := Scan(processed, pdfs, process);
      forall i | |processed| <= i < |processed'|
        ensures exists k :: 0 <= k < |pdfs| && processed'[i] == ProcessedFile(pdfs[k].name, pdfs[k].hash)
      {
        if i < |prev.1| {
          var k :| 0 <= k < |init| && prev.1[i] == ProcessedFile(init[k].name, init[k].hash);
          assert pdfs[k] == init[k];
        } else {
          assert processed'[i] == ProcessedFile(pdfs[|pdfs| - 1].name, pdfs[|pdfs| - 1].hash);
        }
      }
    }
  }

  /** No (file name, hash) pair is recorded twice. */
  predicate NoDuplicates(processed: seq<ProcessedFile>)
  {
    forall i, j :: 0 <= i < j < |processed| ==> processed[i] != processed[j]
  }

  /** The de-duplication check keeps the processed list free of repeats. */
  lemma {:induction false} ScanNoDuplicates(processed: seq<ProcessedFile>, pdfs: seq<PdfFile>,
                                            process: PdfFile -> Option<PdfProcessor.Document>)
    requires NoDuplicates(processed)
    ensures NoDuplicates(Scan(processed, pdfs, process).1)
  {
    if pdfs != [] {
      var init := pdfs[..|pdfs| - 1];
      ScanNoDuplicates(processed, init, process);
      var prev := Scan(processed, init, process).1;
      var f := pdfs[|pdfs| - 1];
      if !AlreadyProcessed(prev, f) && process(f).Some? {
        var next := prev + [ProcessedFile(f.name, f.hash)];
        forall i, j | 0 <= i < j < |next|
          ensures next[i] != next[j]
        {
          if j == |prev| {
            assert next[i] in prev;
          }
        }
      }
    }
  }

  /** `post[:100] + "..."`, the preview kept with a post or an error. */
  function Preview(post: string): (p: string)
    ensures |p| == Min(|post|, 100) + 3
    ensures p[..|p| - 3] <= post && p[|p| - 3..] == "..."
  {
    Prefix(post, 100) + "..."
  }

  /** The error text recorded for a failed post. */
  function FailureMessage(outcome: PostOutcome): (msg: string)
    requires outcome.Failed? || outcome.NoResult?
    ensures outcome.NoResult? ==> msg == "No result"
    ensures outcome.Failed? && outcome.error.Some? ==> msg == outcome.error.value
    ensures outcome.Failed? && outcome.error.None? ==> msg == "Unknown error"
  {
    if outcome.NoResult? then "No result"
    else if outcome.error.Some? then outcome.error.value
    else "Unknown error"
  }

  /** `select_document_for_posting`. With a non-empty topic and search
      results, the result picked at random (index `pick`); otherwise the first
      three chunks of the randomly picked document, joined with spaces. */
  function SelectContent(allDocs: seq<string>, topic: Option<string>, results: seq<string>, pick: nat,
                         chunks: seq<string>): (r: Option<string>)
    ensures allDocs == [] ==> r.None?
    ensures allDocs != [] && topic.Some? && topic.value != "" && results != [] ==> r.Some? && r.value in results
    ensures r.Some? && (topic.None? || topic.value == "" || results == []) ==>
      r.value == Join(Prefix(chunks, 3), " ") && chunks != []
    ensures allDocs != [] && (topic.None? || topic.value == "" || results == []) ==> (r.None? <==> chunks == [])
  {
    if allDocs == [] then None
    else if topic.Some? && topic.value != "" && results != [] then Some(results[pick % |results|])
    else if chunks != [] then Some(Join(Prefix(chunks, 3), " "))
    else None
  }

  /** At most three chunks are combined, in order. */
  lemma SelectedChunks(chunks: seq<string>)
    requires chunks != []
    ensures Join(Prefix(chunks, 3), " ") == Join(chunks[..Min(3, |chunks|)], " ")
    ensures |chunks| >= 3 ==> Join(Prefix(chunks, 3), " ") == chunks[0] + " " + chunks[1] + " " + chunks[2]
  {
    if |chunks| >= 3 {
      var p := Prefix(chunks, 3);
      assert p == [chunks[0], chunks[1], chunks[2]];
      assert p[1..] == [chunks[1], chunks[2]];
      assert p[1..][1..] == [chunks[2]];
      assert Join(p[1..], " ") == chunks[1] + " " + chunks[2];
    }
  }

  class Agent {
    var lastRun: Option<string>
    var processedFiles: seq<ProcessedFile>
    var postedTweets: seq<PostedTweet>
    var totalRuns: int
    var errors: seq<ErrorEntry>

    /** Every run counted in `total_runs` logged exactly one post. */
    predicate Valid()
      reads this
    {
      totalRuns == |postedTweets| && NoDuplicates(processedFiles)
    }

    predicate Fresh()
      reads this
    {
      lastRun.None? && processedFiles == [] && postedTweets == [] && totalRuns == 0 && errors == []
    }

    /** `load_state`: the fresh state when the state file is missing, the
        record the file holds when it exists (`saved` is that record; a file
        that does not read back is not modelled). */
    constructor LoadState(saved: Option<(Option<string>, seq<ProcessedFile>, seq<PostedTweet>, int, seq<ErrorEntry>)>)
      ensures saved.None? ==> Fresh() && Valid()
      ensures saved.Some? ==>
        (lastRun, processedFiles, postedTweets, totalRuns, errors) == saved.value
    {
      match saved {
        case None =>
          lastRun, processedFiles, postedTweets, totalRuns, errors := None, [], [], 0, [];
        case Some(s) =>
          lastRun, processedFiles, postedTweets, totalRuns, errors := s.0, s.1, s.2, s.3, s.4;
      }
    }

    /** `save_state`: records the time of the save (writing the file is not
        modelled, and its failure leaves the state as updated). */
    method SaveState(now: string)
      modifies this
      ensures lastRun == Some(now)
      ensures processedFiles == old(processedFiles) && postedTweets == old(postedTweets)
      ensures totalRuns == old(totalRuns) && errors == old(errors)
    {
      lastRun := Some(now);
    }

    /** `process_new_documents`: `process` stands for `process_single_pdf`. */
    method ProcessNewDocuments(pdfs: seq<PdfFile>, process: PdfFile -> Option<PdfProcessor.Document>)
      returns (newDocuments: seq<PdfProcessor.Document>)
      modifies this
      ensures (newDocuments, processedFiles) == Scan(old(processedFiles), pdfs, process)
      ensures |processedFiles| == |old(processedFiles)| + |newDocuments|
      ensures old(Valid()) ==> Valid()
      ensures lastRun == old(lastRun) && postedTweets == old(postedTweets)
      ensures totalRuns == old(totalRuns) && errors == old(errors)
    {
      newDocuments := [];
      if pdfs == [] {
        return;
      }
      ScanGrowth(processedFiles, pdfs, process);
      ghost var start := processedFiles;
      if NoDuplicates(start) {
        ScanNoDuplicates(start, pdfs, process);
      }
      for i := 0 to |pdfs|
        invariant (newDocuments, processedFiles) == Scan(start, pdfs[..i], process)
        invariant lastRun == old(lastRun) && postedTweets == old(postedTweets)
        invariant totalRuns == old(totalRuns) && errors == old(errors)
      {
        assert pdfs[..i + 1][..i] == pdfs[..i];
        var f := pdfs[i];
        if exists e :: e in processedFiles && e.filename == f.name && e.hash == f.hash {
          continue;
        }
        var doc := process(f);
        if doc.Some? {
          newDocuments := newDocuments + [doc.value];
          processedFiles := processedFiles + [ProcessedFile(f.name, f.hash)];
        }
      }
      assert pdfs[..|pdfs|] == pdfs;
    }

    /** `create_and_post`: `content` is what `select_document_for_posting`
        returned, `llm`/`decode` drive the analysis, `postReply` is the
        model's answer for the post and `outcome` the poster's. */
    method CreateAndPost(content: Option<string>, model: string,
                         llm: string -> Result<string, string>,
                         decode: string -> Result<TextAnalyzer.Analysis, string>,
                         postReply: Result<string, string>, outcome: PostOutcome, now: string)
      returns (success: bool)
      modifies this
      ensures content.None? || content.value == "" ==>
        !success && unchanged(this)
      ensures success <==> content.Some? && content.value != "" && outcome.Posted?
      ensures success ==>
        && postedTweets == old(postedTweets) + [PostedTweet(outcome.tweetId, AnalysisFor(content.value, model, llm, decode).mainTopic,
                                                            Preview(PostFor(content.value, model, llm, decode, postReply)))]
        && totalRuns == old(totalRuns) + 1 && errors == old(errors) && lastRun == Some(now)
      ensures !success && content.Some? && content.value != "" ==>
        && errors == old(errors) + [ErrorEntry(if outcome.Raised? then outcome.message else FailureMessage(outcome),
                                               if outcome.Raised? then None else Some(Preview(PostFor(content.value, model, llm, decode, postReply))))]
        && postedTweets == old(postedTweets) && totalRuns == old(totalRuns) && lastRun == Some(now)
      ensures processedFiles == old(processedFiles)
      ensures old(Valid()) ==> Valid()
    {
      if content.None? || content.value == "" {
        return false;
      }
      var analysis := AnalysisFor(content.value, model, llm, decode);
      var post := PostFor(content.value, model, llm, decode, postReply);
      match outcome {
        case Posted(id) =>
          postedTweets := postedTweets + [PostedTweet(id, analysis.mainTopic, Preview(post))];
          totalRuns := totalRuns + 1;
          SaveState(now);
          return true;
        case Raised(message) =>
          errors := errors + [ErrorEntry(message, None)];
          SaveState(now);
          return false;
        case _ =>
          errors := errors + [ErrorEntry(FailureMessage(outcome), Some(Preview(post)))];
          SaveState(now);
          return false;
      }
    }

    /** The "agent" part of `get_stats`. */
    function GetStats(): (s: Stats)
      reads this
      ensures Valid() ==> s.totalTweets == s.totalRuns
      ensures s.totalTweets == |postedTweets| && s.totalDocuments == |processedFiles| && s.errorCount == |errors|
    {
      Stats(totalRuns, lastRun, |postedTweets|, |processedFiles|, |errors|)
    }
  }

  /** The analysis of the selected content. */
  function AnalysisFor(content: string, model: string,
                       llm: string -> Result<string, string>,
                       decode: string -> Result<TextAnalyzer.Analysis, string>): TextAnalyzer.Analysis
  {
    TextAnalyzer.AnalyzeDocument(content, TextAnalyzer.DefaultMaxChars, model, llm, decode)
  }

  /** The post generated for the selected content. */
  function PostFor(content: string, model: string,
                   llm: string -> Result<string, string>,
                   decode: string -> Result<TextAnalyzer.Analysis, string>,
                   postReply: Result<string, string>): string
  {
    TextAnalyzer.GeneratePost(AnalysisFor(content, model, llm, decode), MaxPostLength, postReply)
  }
}

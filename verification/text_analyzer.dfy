/**
  The text analyzer of the posting agent: the string handling around the
  language-model calls. The model's replies are inputs (an `Ok` reply or the
  `Err` message of the exception raised), and the embedding call and JSON
  decoder are function parameters.
 */
module TextAnalyzer {
  import opened Common
  import opened PyText

  /** An analysis dictionary; an absent key is None. */
  datatype Analysis = Analysis(
    mainTopic: Option<string>,
    keyPoints: Option<seq<string>>,
    tone: Option<string>,
    summary: Option<string>,
    hashtags: Option<seq<string>>,
    audience: Option<string>,
    error: Option<string>,
    analysisModel: Option<string>,
    textLength: Option<nat>,
    sampleLength: Option<nat>)

  /** Characters of the document shown to the model by default. */
  const DefaultMaxChars := 3000
  /** Length of the zero vector that stands in for a failed embedding. */
  const EmbeddingDimension := 768
  /** Characters of a text sent to the embedding model. */
  const EmbeddingPromptLength := 10000

  // ---------------------------------------------------------------------------
  // get_embeddings

  /** The vector recorded for one text: the model's embedding of its first
      10000 characters, or 768 zeros when the call fails. */
  function EmbeddingOf(embed: string -> Option<seq<real>>, text: string): seq<real>
  {
    match embed(Prefix(text, EmbeddingPromptLength))
    case Some(v) => v
    case None => seq(EmbeddingDimension, _ => 0.0)
  }

  /** `get_embeddings`: one vector per text, in order. */
  method GetEmbeddings(texts: seq<string>, embed: string -> Option<seq<real>>) returns (embeddings: seq<seq<real>>)
    ensures |embeddings| == |texts|
    ensures forall i :: 0 <= i < |texts| ==> embeddings[i] == EmbeddingOf(embed, texts[i])
    ensures forall i :: 0 <= i < |texts| && embed(Prefix(texts[i], EmbeddingPromptLength)).None? ==>
      |embeddings[i]| == EmbeddingDimension && forall j :: 0 <= j < |embeddings[i]| ==> embeddings[i][j] == 0.0
  {
    embeddings := [];
    for k := 0 to |texts|
      invariant |embeddings| == k
      invariant forall i :: 0 <= i < k ==> embeddings[i] == EmbeddingOf(embed, texts[i])
    {
      var reply := embed(Prefix(texts[k], EmbeddingPromptLength));
      match reply {
        case Some(v) =>
          embeddings := embeddings + [v];
        case None =>
          embeddings := embeddings + [seq(EmbeddingDimension, _ => 0.0)];
      }
    }
  }

  // ---------------------------------------------------------------------------
  // analyze_document

  /** The index of the first occurrence of `c`. */
  function FirstIndex(s: string, c: char): (r: Option<nat>)
    ensures r.None? <==> c !in s
    ensures r.Some? ==> r.value < |s| && s[r.value] == c && c !in s[..r.value]
  {
    if s == [] then None
    else if s[0] == c then Some(0)
    else match FirstIndex(s[1..], c)
      case None => None
      case Some(i) => assert s[..i + 1] == [s[0]] + s[1..][..i]; Some(i + 1)
  }

  /** The index of the last occurrence of `c`. */
  function LastIndex(s: string, c: char): (r: Option<nat>)
    ensures r.None? <==> c !in s
    ensures r.Some? ==> r.value < |s| && s[r.value] == c && c !in s[r.value + 1..]
  {
    if s == [] then None
    else if s[|s| - 1] == c then Some(|s| - 1)
    else match LastIndex(s[..|s| - 1], c)
      case None => None
      case Some(i) => assert s[i + 1..] == s[..|s| - 1][i + 1..] + [s[|s| - 1]]; Some(i)
  }

  /** What the greedy DOTALL pattern `\{.*\}` matches: from the first '{' to
      the last '}', when that '}' lies after the '{'. */
  function JsonSpan(s: string): Option<string>
  {
    match (FirstIndex(s, '{'), LastIndex(s, '}'))
    case (Some(i), Some(j)) => if i < j then Some(s[i..j + 1]) else None
    case _ => None
  }

  /** The span is found exactly when some '{' precedes some '}', and it is the
      longest such piece: it begins at the first '{' and ends at the last '}'. */
  lemma JsonSpanSpec(s: string)
    ensures JsonSpan(s).None? <==> forall i, j :: 0 <= i < j < |s| && s[i] == '{' ==> s[j] != '}'
    ensures JsonSpan(s).Some? ==> exists i ::
      && OccursAt(s, JsonSpan(s).value, i)
      && '{' !in s[..i] && '}' !in s[i + |JsonSpan(s).value|..]
      && JsonSpan(s).value[0] == '{' && JsonSpan(s).value[|JsonSpan(s).value| - 1] == '}'
  {
    var f, l := FirstIndex(s, '{'), LastIndex(s, '}');
    if f.Some? && l.Some? && f.value < l.value {
      var i, j := f.value, l.value;
      assert OccursAt(s, s[i..j + 1], i);
    } else if f.Some? && l.Some? {
      forall i, j | 0 <= i < j < |s| && s[i] == '{'
        ensures s[j] != '}'
      {
        if j > l.value {
          assert s[l.value + 1..][j - l.value - 1] == s[j];
        }
      }
    }
  }

  /** The dictionary used when the reply holds no JSON span. */
  function FallbackAnalysis(sample: string): Analysis
  {
    Analysis(Some("Document Analysis"), Some(["Content analysis completed"]), Some("informative"),
             Some(Prefix(sample, 200) + "..."), Some(["#document", "#analysis", "#ai"]), Some("general"),
             None, None, None, None)
  }

  /** The dictionary returned when the model call or the JSON decoding raises. */
  function ErrorAnalysis(message: string): Analysis
  {
    Analysis(Some("Analysis Error"), Some(["Failed to analyze document"]), Some("neutral"),
             Some("Error in document analysis"), Some(["#error", "#document"]), Some("general"),
             Some(message), None, None, None)
  }

  /** `analyze_document`: `llm` answers the prompt built from the sample (or
      raises), `decode` is `json.loads` (or raises). On success the metadata
      records the model name, the text length and the sample length. */
  function AnalyzeDocument(text: string, maxChars: int, model: string,
                           llm: string -> Result<string, string>,
                           decode: string -> Result<Analysis, string>): (a: Analysis)
    ensures a.analysisModel.Some? ==>
      && a.analysisModel == Some(model)
      && a.textLength == Some(|text|)
      && a.sampleLength == Some(|Prefix(text, maxChars)|)
      && (0 <= maxChars ==> a.sampleLength == Some(Min(|text|, maxChars)))
    ensures a.analysisModel.None? ==> a.mainTopic == Some("Analysis Error") && a.error.Some? && a.textLength.None?
    ensures llm(Prefix(text, maxChars)).Err? ==> a == ErrorAnalysis(llm(Prefix(text, maxChars)).error)
    ensures llm(Prefix(text, maxChars)).Ok? ==>
      var sample := Prefix(text, maxChars);
      var span := JsonSpan(Strip(llm(sample).value));
      && (span.None? ==>
            a == FallbackAnalysis(sample).(analysisModel := Some(model), textLength := Some(|text|),
                                          sampleLength := Some(|sample|)))
      && (span.Some? && decode(span.value).Err? ==> a == ErrorAnalysis(decode(span.value).error))
      && (span.Some? && decode(span.value).Ok? ==>
            a == decode(span.value).value.(analysisModel := Some(model), textLength := Some(|text|),
                                           sampleLength := Some(|sample|)))
  {
    var sample := Prefix(text, maxChars);
    match llm(sample)
    case Err(e) => ErrorAnalysis(e)
    case Ok(reply) =>
      var base :=
        match JsonSpan(Strip(reply))
        case None => Ok(FallbackAnalysis(sample))
        case Some(span) => decode(span);
      match base
      case Err(e) => ErrorAnalysis(e)
      case Ok(b) =>
        b.(analysisModel := Some(model), textLength := Some(|text|), sampleLength := Some(|sample|))
  }

  /** Only the first `maxChars` characters reach the model: two texts with the
      same sample are analysed alike, up to the recorded text length. */
  lemma AnalysisSeesOnlySample(t1: string, t2: string, maxChars: int, model: string,
                               llm: string -> Result<string, string>,
                               decode: string -> Result<Analysis, string>)
    requires Prefix(t1, maxChars) == Prefix(t2, maxChars)
    ensures AnalyzeDocument(t1, maxChars, model, llm, decode).(textLength := None)
         == AnalyzeDocument(t2, maxChars, model, llm, decode).(textLength := None)
  {
  }

  /** A reply without a JSON span yields the fixed fallback analysis. */
  lemma AnalysisFallback(text: string, maxChars: int, model: string,
                         llm: string -> Result<string, string>,
                         decode: string -> Result<Analysis, string>)
    requires llm(Prefix(text, maxChars)).Ok?
    requires JsonSpan(Strip(llm(Prefix(text, maxChars)).value)).None?
    ensures var a := AnalyzeDocument(text, maxChars, model, llm, decode);
      && a.mainTopic == Some("Document Analysis")
      && a.summary == Some(Prefix(Prefix(text, maxChars), 200) + "...")
      && a.hashtags == Some(["#document", "#analysis", "#ai"])
  {
  }

  // ---------------------------------------------------------------------------
  // generate_post

  /** Quote removal and whitespace collapsing of a raw reply. */
  function CleanPost(reply: string): string
  {
    Normalize(Replace(Strip(reply), "\"", ""))
  }

  /** A cleaned post has no quote, no padding and only single spaces, and
      cleaning it again changes nothing. */
  lemma CleanPostShape(reply: string)
    ensures '"' !in CleanPost(reply)
    ensures var r := CleanPost(reply);
      && (r != [] ==> !IsSpace(r[0]) && !IsSpace(r[|r| - 1]))
      && (forall i :: 0 <= i < |r| && IsSpace(r[i]) ==> r[i] == ' ' && !IsSpace(r[i - 1]) && !IsSpace(r[i + 1]))
    ensures CleanPost(CleanPost(reply)) == CleanPost(reply)
  {
    var stripped := Strip(reply);
    DeleteCharRemovesAll(stripped, '"');
    NormalizeAvoids(Replace(stripped, "\"", ""), '"');
    NormalizeShape(Replace(stripped, "\"", ""));
    var r := CleanPost(reply);
    CleanIsFixpoint(r);
  }

  lemma CleanIsFixpoint(r: string)
    requires '"' !in r
    requires r == Normalize(r)
    ensures CleanPost(r) == r
  {
    assert Replace(Strip(r), "\"", "") == Strip(r) by {
      NoQuoteReplace(Strip(r));
    }
    NormalizeStrip(r);
  }

  /** Deleting a character that is absent changes nothing. */
  lemma {:induction false} NoQuoteReplace(s: string)
    requires forall i :: 0 <= i < |s| ==> s[i] != '"'
    ensures Replace(s, "\"", "") == s
  {
    if s != [] {
      NoQuoteReplace(s[1..]);
    }
  }

  /** Stripping before collapsing whitespace makes no difference. */
  lemma NormalizeStrip(s: string)
    requires s == Normalize(s)
    ensures Normalize(Strip(s)) == s
  {
    NormalizeShape(s);
    StripNoPadding(s);
  }

  lemma StripNoPadding(s: string)
    requires s != [] ==> !IsSpace(s[0]) && !IsSpace(s[|s| - 1])
    ensures Strip(s) == s
  {
    var l := StripLeft(s);
    if s != [] {
      assert |l| == |s|;
    }
    assert l == s;
    var r := StripRight(l);
    if l != [] {
      assert |r| == |l|;
    }
  }

  /** The length cap: a post over `maxLength` keeps its first `maxLength - 3`
      characters (Python slicing, so a negative bound counts from the end)
      followed by "...". */
  function Truncate(post: string, maxLength: int): (r: string)
    ensures |post| <= maxLength ==> r == post
    ensures |post| > maxLength ==> r == Prefix(post, maxLength - 3) + "..."
    ensures |post| > maxLength >= 3 ==> |r| == maxLength && r[..maxLength - 3] == post[..maxLength - 3]
    ensures maxLength >= 3 ==> |r| <= maxLength
  {
    if |post| > maxLength then Prefix(post, maxLength - 3) + "..." else post
  }

  /** Truncation adds no character but '.'. */
  lemma TruncateAvoids(post: string, maxLength: int, c: char)
    requires c !in post && c != '.'
    ensures c !in Truncate(post, maxLength)
  {
    if |post| > maxLength {
      var p := Prefix(post, maxLength - 3);
      assert forall i :: 0 <= i < |p| ==> p[i] == post[i];
    }
  }

  /** Below a cap of 3 the truncated post is longer than the cap. */
  lemma TruncateSmallCap()
    ensures |Truncate("abcd", 0)| == 4
  {
    assert Prefix("abcd", -3) == "a";
  }

  /** The fallback post, before it is cut to the length cap. */
  function FallbackPost(analysis: Analysis): string
  {
    var topic := if analysis.mainTopic.Some? then analysis.mainTopic.value else "interesting topics";
    var summary := if analysis.summary.Some? then analysis.summary.value else "";
    var tags := if analysis.hashtags.Some? then analysis.hashtags.value else ["#reading", "#ai"];
    "\U{1F4DA} Reading about: " + topic + "\n\nKey insight: " + Prefix(summary, 150) + "\n\n" + Join(tags, ", ")
  }

  /** `generate_post`: the cleaned and capped reply, or the fallback post cut to
      the cap when the model call raises. */
  function GeneratePost(analysis: Analysis, maxLength: int, reply: Result<string, string>): (post: string)
    ensures maxLength >= 3 ==> |post| <= maxLength
    ensures reply.Ok? && |CleanPost(reply.value)| <= maxLength ==> post == CleanPost(reply.value)
    ensures reply.Ok? ==> post == Truncate(CleanPost(reply.value), maxLength)
    ensures reply.Ok? ==> '"' !in post
    ensures reply.Err? ==> post == Prefix(FallbackPost(analysis), maxLength)
  {
    match reply
    case Ok(text) =>
      CleanPostShape(text);
      TruncateAvoids(CleanPost(text), maxLength, '"');
      Truncate(CleanPost(text), maxLength)
    case Err(_) => Prefix(FallbackPost(analysis), maxLength)
  }

  // ---------------------------------------------------------------------------
  // summarize_text

  /** `summarize_text`: the stripped reply, or the first 500 characters of the
      text followed by "..." when the model call raises. */
  function SummarizeText(text: string, reply: Result<string, string>): (summary: string)
    ensures reply.Ok? ==> summary == Strip(reply.value)
    ensures reply.Err? ==>
      && |summary| == Min(|text|, 500) + 3
      && summary[..|summary| - 3] <= text && summary[|summary| - 3..] == "..."
  {
    match reply
    case Ok(s) => Strip(s)
    case Err(_) => Prefix(text, 500) + "..."
  }
}

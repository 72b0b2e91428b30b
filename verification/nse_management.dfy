/**
  The management-signal step of the NSE Kenya screener: each recent
  announcement is searched for red-flag and positive keywords, counting at
  most one of each per announcement, and the two counts decide the signal.
  Whether an announcement is recent (its date parsed and compared with a
  cut-off 180 days back) is given with the announcement.
 */
module NseManagement {
  import opened PyText

  const RedFlagKeywords: seq<string> := [
    "pledge", "pledged", "insider sell", "promoter reduction",
    "loss", "decline", "decrease", "warning", "caution",
    "resignation", "exit", "departure"]

  const PositiveKeywords: seq<string> := [
    "buyback", "bonus", "dividend", "promoter increase",
    "growth", "increase", "expansion", "profit", "record",
    "appointment", "strategic", "partnership"]

  /** One corporate announcement. `recent` is true when its date is within the
      last 180 days, and also when no date format matches (it is then dated now). */
  datatype Announcement = Announcement(title: string, content: string, recent: bool)

  datatype Signal = Positive | Neutral | Negative | Error
  {
    function Label(): string
    {
      match this
      case Positive => "POSITIVE"
      case Neutral => "NEUTRAL"
      case Negative => "NEGATIVE"
      case Error => "ERROR"
    }

    /** The signal with the roles of red flags and positive signals swapped. */
    function Mirror(): Signal
    {
      match this
      case Positive => Negative
      case Negative => Positive
      case _ => this
    }
  }

  datatype ManagementReport = ManagementReport(signal: Signal, redFlags: nat, positiveSignals: nat, recentAnnouncements: nat)

  /** The searched text: title, a space and content, lower-cased. */
  function SearchText(a: Announcement): string
  {
    Lower(a.title + " " + a.content)
  }

  /** Some keyword of the list occurs in the text. */
  predicate Mentions(text: string, keywords: seq<string>)
  {
    exists i :: 0 <= i < |keywords| && Contains(text, keywords[i])
  }

  /** The recent announcements that mention one of the keywords. */
  function CountMentioning(announcements: seq<Announcement>, keywords: seq<string>): (n: nat)
    ensures n <= |Recent(announcements)|
  {
    if announcements == [] then 0
    else
      var last := announcements[|announcements| - 1];
      CountMentioning(announcements[..|announcements| - 1], keywords)
        + (if last.recent && Mentions(SearchText(last), keywords) then 1 else 0)
  }

  /** The announcements that are recent, in order. */
  function Recent(announcements: seq<Announcement>): seq<Announcement>
  {
    if announcements == [] then []
    else
      var last := announcements[|announcements| - 1];
      Recent(announcements[..|announcements| - 1]) + (if last.recent then [last] else [])
  }

  /** The overall signal from the two counts. */
  function SignalOf(redFlags: nat, positiveSignals: nat): Signal
  {
    if redFlags > positiveSignals && redFlags >= 2 then Negative
    else if positiveSignals > redFlags && positiveSignals >= 2 then Positive
    else Neutral
  }

  /** NEGATIVE exactly when red flags outnumber positive signals and are at
      least two, POSITIVE symmetrically, NEUTRAL otherwise; never ERROR. */
  lemma SignalOfIff(redFlags: nat, positiveSignals: nat)
    ensures SignalOf(redFlags, positiveSignals) == Negative <==> redFlags > positiveSignals && redFlags >= 2
    ensures SignalOf(redFlags, positiveSignals) == Positive <==> positiveSignals > redFlags && positiveSignals >= 2
    ensures SignalOf(redFlags, positiveSignals) == Neutral <==>
      !(redFlags > positiveSignals && redFlags >= 2) && !(positiveSignals > redFlags && positiveSignals >= 2)
    ensures SignalOf(redFlags, positiveSignals) != Error
    ensures SignalOf(redFlags, positiveSignals) == SignalOf(positiveSignals, redFlags).Mirror()
  {
  }

  /** The keyword loop: walks the list and stops at the first keyword found. */
  method MentionsAny(text: string, keywords: seq<string>) returns (found: bool)
    ensures found <==> Mentions(text, keywords)
  {
    found := false;
    for i := 0 to |keywords|
      invariant !found
      invariant forall j :: 0 <= j < i ==> !Contains(text, keywords[j])
    {
      if Contains(text, keywords[i]) {
        found := true;
        break;
      }
    }
  }

  /** `analyze_management_signals` over the fetched announcements: one red
      flag and one positive signal at most per recent announcement, and the
      signal decided by the counts. No announcements gives NEUTRAL with zero
      counts. */
  method AnalyzeManagementSignals(announcements: seq<Announcement>) returns (r: ManagementReport)
    ensures r.redFlags == CountMentioning(announcements, RedFlagKeywords)
    ensures r.positiveSignals == CountMentioning(announcements, PositiveKeywords)
    ensures r.recentAnnouncements == |Recent(announcements)|
    ensures r.redFlags <= r.recentAnnouncements && r.positiveSignals <= r.recentAnnouncements
    ensures r.signal == SignalOf(r.redFlags, r.positiveSignals)
    ensures announcements == [] ==> r == ManagementReport(Neutral, 0, 0, 0)
  {
    if announcements == [] {
      return ManagementReport(Neutral, 0, 0, 0);
    }
    var redFlags := 0;
    var positiveSignals := 0;
    var recent: seq<Announcement> := [];
    for i := 0 to |announcements|
      invariant redFlags == CountMentioning(announcements[..i], RedFlagKeywords)
      invariant positiveSignals == CountMentioning(announcements[..i], PositiveKeywords)
      invariant recent == Recent(announcements[..i])
    {
      var a := announcements[i];
      assert announcements[..i + 1][..i] == announcements[..i];
      if a.recent {
        var text := SearchText(a);
        var red := MentionsAny(text, RedFlagKeywords);
        if red {
          redFlags := redFlags + 1;
        }
        var positive := MentionsAny(text, PositiveKeywords);
        if positive {
          positiveSignals := positiveSignals + 1;
        }
        recent := recent + [a];
      }
    }
    assert announcements[..|announcements|] == announcements;
    return ManagementReport(SignalOf(redFlags, positiveSignals), redFlags, positiveSignals, |recent|);
  }
}

/**
  The data-side helpers of the NSE Kenya screener: reading a number written
  with a currency prefix, thousands separators and a K/M/B suffix, and the
  peers of a stock within its sector. Python's `float()` is the partial
  function `toFloat`.
 */
module NseData {
  import opened Common
  import opened PyText

  // ---------------------------------------------------------------------------
  // _parse_number

  /** Texts that stand for "no value". */
  predicate Placeholder(text: string)
  {
    text == "" || text == "-" || text == "N/A"
  }

  /** The text once "KES", "Ksh" and "," are deleted (in that order) and
      surrounding whitespace stripped. */
  function Cleaned(text: string): string
  {
    Strip(Replace(Replace(Replace(text, "KES", ""), "Ksh", ""), ",", ""))
  }

  /** The scale picked by the first of B, M, K found in the upper-cased text. */
  function Multiplier(t: string): real
  {
    var u := Upper(t);
    if 'B' in u then 1000000000.0
    else if 'M' in u then 1000000.0
    else if 'K' in u then 1000.0
    else 1.0
  }

  /** The text handed to `float()`: with a suffix, the upper-cased text with
      every occurrence of that letter deleted; without one, the text itself. */
  function Digits(t: string): string
  {
    var u := Upper(t);
    if 'B' in u then Replace(u, "B", "")
    else if 'M' in u then Replace(u, "M", "")
    else if 'K' in u then Replace(u, "K", "")
    else t
  }

  /** The cleaned text holds no thousands separator. */
  lemma CleanedHasNoComma(text: string)
    ensures ',' !in Cleaned(text)
  {
    var noComma := Replace(Replace(Replace(text, "KES", ""), "Ksh", ""), ",", "");
    DeleteCharRemovesAll(Replace(Replace(text, "KES", ""), "Ksh", ""), ',');
  }

  /** What reaches `float()`: no comma, and none of the suffix letters at or
      above the scale that was picked; without a suffix the text is unchanged. */
  lemma DigitsShape(text: string)
    ensures ',' !in Digits(Cleaned(text))
    ensures Multiplier(Cleaned(text)) == 1000000000.0 ==> 'B' !in Digits(Cleaned(text))
    ensures Multiplier(Cleaned(text)) == 1000000.0 ==> 'B' !in Digits(Cleaned(text)) && 'M' !in Digits(Cleaned(text))
    ensures Multiplier(Cleaned(text)) == 1000.0 ==>
      'B' !in Digits(Cleaned(text)) && 'M' !in Digits(Cleaned(text)) && 'K' !in Digits(Cleaned(text))
    ensures Multiplier(Cleaned(text)) == 1.0 ==> Digits(Cleaned(text)) == Cleaned(text)
  {
    var t := Cleaned(text);
    CleanedHasNoComma(text);
    var u := Upper(t);
    assert ',' !in u by {
      forall i | 0 <= i < |u| ensures u[i] != ',' {
        assert u[i] == UpperChar(t[i]);
      }
    }
    if 'B' in u {
      DeleteCharRemovesAll(u, 'B');
    } else if 'M' in u {
      DeleteCharRemovesAll(u, 'M');
    } else if 'K' in u {
      DeleteCharRemovesAll(u, 'K');
    }
  }

  lemma SuffixSplit(cleaned: string, t: string, multiplier: real)
    requires var u := Upper(cleaned);
      if 'B' in u then multiplier == 1000000000.0 && t == Replace(u, "B", "")
      else if 'M' in u then multiplier == 1000000.0 && t == Replace(u, "M", "")
      else if 'K' in u then multiplier == 1000.0 && t == Replace(u, "K", "")
      else multiplier == 1.0 && t == cleaned
    ensures t == Digits(cleaned) && multiplier == Multiplier(cleaned)
  {
  }

  /** The suffix step of `_parse_number`: the first of B, M, K found in the
      upper-cased text picks the scale and is deleted. */
  method SplitSuffix(cleaned: string) returns (t: string, multiplier: real)
    ensures t == Digits(cleaned) && multiplier == Multiplier(cleaned)
  {
    t := cleaned;
    multiplier := 1.0;
    var upper := Upper(t);
    if 'B' in upper {
      multiplier := 1000000000.0;
      t := Replace(upper, "B", "");
    } else if 'M' in upper {
      multiplier := 1000000.0;
      t := Replace(upper, "M", "");
    } else if 'K' in upper {
      multiplier := 1000.0;
      t := Replace(upper, "K", "");
    }
    SuffixSplit(cleaned, t, multiplier);
  }

  /** `_parse_number`: None for a placeholder or a remainder `float()` rejects,
      otherwise the number scaled by its suffix. */
  method ParseNumber(text: string, toFloat: string -> Option<real>) returns (r: Option<real>)
    ensures Placeholder(text) ==> r.None?
    ensures r.Some? <==> !Placeholder(text) && toFloat(Digits(Cleaned(text))).Some?
    ensures r.Some? && Multiplier(Cleaned(text)) == 1.0 ==> r.value == toFloat(Digits(Cleaned(text))).value
    ensures r.Some? && Multiplier(Cleaned(text)) == 1000.0 ==> r.value == toFloat(Digits(Cleaned(text))).value * 1000.0
    ensures r.Some? && Multiplier(Cleaned(text)) == 1000000.0 ==> r.value == toFloat(Digits(Cleaned(text))).value * 1000000.0
    ensures r.Some? && Multiplier(Cleaned(text)) == 1000000000.0 ==> r.value == toFloat(Digits(Cleaned(text))).value * 1000000000.0
  {
    if text == "" || text == "-" || text == "N/A" {
      return None;
    }
    var cleaned := Cleaned(text);
    var t, multiplier := SplitSuffix(cleaned);
    match toFloat(t) {
      case Some(v) => return Some(v * multiplier);
      case None => return None;
    }
  }

  // ---------------------------------------------------------------------------
  // fetch_sector_peers

  /** The NSE sectors and their listed symbols. */
  const Sectors: map<string, seq<string>> := map[
    "Banking" := ["EQTY", "KCB", "COOP", "ABSA", "SCBK", "NBK", "NCBA", "SBIC"],
    "Telecoms" := ["SCOM"],
    "Manufacturing" := ["BAT", "EABL", "BAMB", "CABL", "ARM"],
    "Energy" := ["TOTL", "KNRE", "KPLC"],
    "Investment" := ["CTUM", "BRIT"],
    "Automobile" := ["DTK"]]

  /** The list without `symbol`, order kept. */
  function Without(symbols: seq<string>, symbol: string): (r: seq<string>)
    ensures symbol !in r
    ensures |r| <= |symbols|
    ensures forall s :: s in r <==> s in symbols && s != symbol
  {
    if symbols == [] then []
    else if symbols[0] != symbol then [symbols[0]] + Without(symbols[1..], symbol)
    else Without(symbols[1..], symbol)
  }

  /** Removal works symbol by symbol, so the listing order survives: the
      result for a split list is the results for its parts, concatenated. */
  lemma {:induction false} WithoutAppend(a: seq<string>, b: seq<string>, symbol: string)
    ensures Without(a + b, symbol) == Without(a, symbol) + Without(b, symbol)
  {
    if a == [] {
      assert a + b == b;
    } else {
      assert (a + b)[0] == a[0];
      assert (a + b)[1..] == a[1..] + b;
      WithoutAppend(a[1..], b, symbol);
    }
  }

  /** `fetch_sector_peers`: the sector's other symbols, cut to `top_n`
      (Python slicing, so a negative `top_n` drops from the end). */
  function SectorPeers(symbol: string, sector: string, topN: int): (peers: seq<string>)
    ensures sector !in Sectors ==> peers == []
    ensures symbol !in peers
    ensures forall s :: s in peers ==> sector in Sectors && s in Sectors[sector]
    ensures 0 <= topN ==> |peers| <= topN
    ensures sector in Sectors ==> peers <= Without(Sectors[sector], symbol)
    ensures sector in Sectors && 0 <= topN ==> |peers| == Min(topN, |Without(Sectors[sector], symbol)|)
  {
    if sector in Sectors then Prefix(Without(Sectors[sector], symbol), topN) else []
  }

  /** The five banking peers of KCB, in listing order. */
  lemma BankingPeers()
    ensures SectorPeers("KCB", "Banking", 5) == ["EQTY", "COOP", "ABSA", "SCBK", "NBK"]
  {
    BankingSector();
    FirstFiveWithoutKcb(Sectors["Banking"]);
  }

  lemma BankingSector()
    ensures "Banking" in Sectors
    ensures Sectors["Banking"] == ["EQTY", "KCB", "COOP", "ABSA", "SCBK", "NBK", "NCBA", "SBIC"]
  {
  }

  lemma FirstFiveWithoutKcb(banks: seq<string>)
    requires banks == ["EQTY", "KCB", "COOP", "ABSA", "SCBK", "NBK", "NCBA", "SBIC"]
    ensures Prefix(Without(banks, "KCB"), 5) == ["EQTY", "COOP", "ABSA", "SCBK", "NBK"]
  {
    assert Without(banks, "KCB") == [banks[0]] + banks[2..] by {
      assert "KCB" !in banks[2..];
      NotPresentKept(banks[2..], "KCB");
      assert banks[1..][1..] == banks[2..];
    }
  }

  lemma {:induction false} NotPresentKept(symbols: seq<string>, symbol: string)
    requires symbol !in symbols
    ensures Without(symbols, symbol) == symbols
  {
    if symbols != [] {
      NotPresentKept(symbols[1..], symbol);
    }
  }
}

# Verified model of the PythonProjects scripts

This project models the deterministic logic of four small Python programs in
Dafny and proves what each one promises.

- **NSE Kenya stock screener** (`NSE/main.py`). It covers:
  - the text-number parser;
  - the sector peer list;
  - the four-filter financial-health gate;
  - the "two of three" growth vote;
  - the P/E valuation classification;
  - the keyword count behind the management signal;
  - the 0–10 moat score;
  - the weighted composite score and the action it recommends.
- **Nine Star Ki profile calculator** (`9Star_KI_Profile/main.py`). It covers:
  - the main, energy and trend numbers;
  - the nine-year cycle of the universal year energy;
  - the element tables and the interaction of two elements.
- **PDF-to-X posting agent** (`pdf-x-agent/src`). It covers:
  - the acceptance checks of `process_single_pdf` and the overlapping word-window chunking of `chunk_text`;
  - the bookkeeping state of `PDFXAgent`, meaning processed files, posted tweets, errors and run count;
  - the text handling of `TextAnalyzer`: sampling, JSON-span extraction, post cleanup and truncation, fallbacks and the shape of the embedding output.
- **Graph plotter** (`Graph/update1.py`). It covers:
  - comma-list parsing;
  - the CSV column checks;
  - the interactive dataset loop;
  - the 10000-point truncation;
  - colour cycling and the choice of plot type.

Python values map into Dafny as follows:
- Python `float` values become exact `real` numbers.
- pandas series become sequences, oldest value first.
- Dictionaries with optional keys become datatypes with `Option` fields.
- Everything the scripts obtain from outside is a parameter of the model: `float()`, a language model, the poster, the PDF processor, `pd.read_csv`, the clock and random choice.
- The module `PyText` gives Python's string operations their Python meaning: `split()`, `split(sep)`, `strip()`, `join`, `replace`, `upper`/`lower`, `in` and slicing with negative bounds.

Each part of the code is modelled in the form it takes in the source:
- Code that loops or updates state is a `method` proved against a specification function. This covers the moat and composite accumulators, the management keyword loop, the health gate (its verdict and the first failing filter it names), `chunk_text`, `get_embeddings`, the interactive entry loop and the agent's state transitions.
- The agent's state is a class whose fields the methods update.
- The rest is functions and lemmas.

## Model

| member | source | states |
|---|---|---|
| NseData.SplitSuffix | NSE/main.py:444-453 | the first of B, M, K found in the upper-cased text picks the scale 1e9, 1e6 or 1e3, and every occurrence of that letter is deleted; without any of them the scale is 1 and the text is kept as is |
| NseData.ParseNumber | NSE/main.py:437-458 | '', '-' and 'N/A' give None; otherwise the result is present exactly when `float()` accepts the cleaned, suffix-stripped text, and it then equals that number times the scale of the suffix |
| NseData.CleanedHasNoComma | NSE/main.py:442 | once KES, Ksh and ',' are removed and the text stripped, no thousands separator is left |
| NseData.DigitsShape | NSE/main.py:442-453 | the text handed to `float()` has no comma and none of the suffix letters at or above the chosen scale; without a suffix it is exactly the cleaned text |
| NseData.SectorPeers | NSE/main.py:464-469 | an unknown sector gives no peers; otherwise the peers are the first top_n of the sector's other members in listing order (a prefix of the list without the symbol), min(top_n, number of other members) of them |
| NseData.WithoutAppend | NSE/main.py:467 | removing the symbol works member by member, so the listing order of the remaining members is kept |
| NseData.BankingPeers | NSE/main.py:93-100 | with the configured sector table, the five banking peers of KCB are EQTY, COOP, ABSA, SCBK, NBK, in listing order |
| NseHealth.DebtRatio | NSE/main.py:739-762 | D/E is 0 when debt or equity is missing or equity is not positive; equity falls back to assets minus liabilities when the equity column is missing or 0; D/E is positive exactly when both are positive |
| NseHealth.MarginDecline | NSE/main.py:825-832 | the decline from the three-year peak is defined only with at least three margins and a positive peak, and it is never negative |
| NseHealth.AllPositiveIff | NSE/main.py:721 | `(series > 0).all()` holds exactly when every element is positive |
| NseHealth.MarginOkIff | NSE/main.py:828-833 | the margin filter passes exactly when the latest margin exceeds 67% of the three-year peak |
| NseHealth.ProfitConsistency | NSE/main.py:716-721 | the number of years checked is min(5, n), and the check passes exactly when net income is positive in each of those last years |
| NseHealth.ApplyFinancialHealthFilters | NSE/main.py:688-859 | the verdict is PASSED exactly when all filters pass: profit consistency, D/E below 1 (or no balance sheet), at least 3 years with operating cash flow above profit (checked only with 3 or more common years), and a margin decline under 0.33 (checked only with a positive peak); a rejection names the first failing filter with its figure, every filter before it passed, and a pass carries 'N/A' D/E exactly when there is no balance sheet |
| NseValuation.GrowthVoteTwoOfThree | NSE/main.py:956-965 | growth passes exactly when some two of the three checks hold (revenue CAGR ≥ 8, profit CAGR ≥ 8, quality ratio ≥ 0.7); a missing figure counts as a failed check |
| NseValuation.QualityRatio | NSE/main.py:934-942 | the quality ratio exists exactly with three or more common years and a positive cumulative profit, and it meets 0.7 exactly when cumulative cash flow is at least 0.7 times cumulative profit |
| NseValuation.RecentGrowthPct | NSE/main.py:945-953 | recent growth exists exactly when there are two values and the earlier one is non-zero; from a positive base it is positive exactly when the series rose |
| NseValuation.GrowthMetrics | NSE/main.py:865-969 | an empty income statement gives None, and otherwise None exactly when a revenue or profit CAGR fails (its power has no real value, so rounding raises); each CAGR is the one of the last min(5, n) values when there are two or more and the first is positive, and missing otherwise; the quality ratio is cumulative cash flow over cumulative profit (QualityRatio), the recent growth figures are last over previous (RecentGrowthPct), the pass flag is the two-of-three vote on the figures, and the data years equal min(5, n) exactly when a revenue CAGR exists |
| NseValuation.CagrPct | NSE/main.py:907-931 | a series shorter than two or whose window starts at a non-positive value has no CAGR; otherwise the CAGR is the growth function of the window's first and last values and its length, and a failure of that function is an error |
| NseValuation.ValuationScore | NSE/main.py:979-1074 | the result is None exactly for an empty statement, a missing or zero price, or an empty profit series with a usable share count (the IndexError the handler catches); the P/E is price over latest EPS (CurrentPe) and the historical P/E price over the mean EPS of the last three years (HistoricalPe), each when a profit series and a share count exist; the peer P/E is 1.1 times the P/E; with both figures the score is the weighted Score of the two and 1.1 times the P/E, and with the P/E alone it is 0.9, 1.2 or 1.0 by band; INSUFFICIENT DATA holds exactly when there is no P/E; with both P/E figures the class is UNDERVALUED below 0.9, OVERVALUED from 1.1 and FAIRLY VALUED between; with only the current P/E the class is POTENTIALLY UNDERVALUED below 5, POTENTIALLY OVERVALUED above 18 and WITHIN TYPICAL RANGE otherwise |
| NseValuation.PeerComponentConstant | NSE/main.py:1039-1047 | the peer median is 1.1 times the current P/E, so the peer component is always 10/11 |
| NseValuation.HistoricalComponent | NSE/main.py:1012-1022 | price and share count cancel: the historical component is the three-year mean profit over the latest profit |
| NseValuation.ScoreFormula | NSE/main.py:1045-1057 | with both P/E figures, the score is 0.4·(mean profit / latest profit) + 0.4·10/11 + 0.2·band, where band is 0.8 below 5, 1.2 above 18 and 1 otherwise |
| NseValuation.ValuationScoreReduces | NSE/main.py:1038-1057 | a valuation score computed from both P/E figures is 0.4·(mean profit / latest profit) + 0.4·10/11 + 0.2·band: price and share count drop out, and the peer term is constant |
| NseManagement.SignalOfIff | NSE/main.py:1164-1173 | NEGATIVE holds exactly when red flags outnumber positive signals and number at least 2, and POSITIVE symmetrically; NEUTRAL holds otherwise and ERROR never; swapping the counts mirrors the signal |
| NseManagement.MentionsAny | NSE/main.py:1148-1156 | the keyword loop, which stops at its first hit, reports exactly whether some keyword occurs in the text |
| NseManagement.AnalyzeManagementSignals | NSE/main.py:1099-1181 | each count is the number of recent announcements mentioning some keyword of its list, so each announcement adds at most one red flag and one positive signal; neither count exceeds the number of recent announcements; the signal follows from the counts; no announcements gives NEUTRAL with zero counts |
| NseScoring.MoatScore | NSE/main.py:625-661 | any missing input gives 0; otherwise the score is the sum of the ROE and ROCE bands (0–3) and the margin band (0–4), and it always lies in 0..10 |
| NseScoring.MoatMonotone | NSE/main.py:633-661 | raising ROE, ROCE or margin never lowers the moat score |
| NseScoring.MoatTopScore | NSE/main.py:633-661 | the score is 10 exactly when all three inputs exceed 15 |
| NseScoring.HealthPointsFixed | NSE/main.py:1211-1221 | a failed health check gives 0; a passed one gives 8 to 9, and 9 when D/E is below 0.5, including a D/E of 0 |
| NseScoring.GrowthPoints | NSE/main.py:1227-1240 | passing the growth vote gives 7 to 9; failing it gives 4 |
| NseScoring.ValuationPointsOfClass | NSE/main.py:1242-1251 | applying the substring tests to each class label gives 9 for both UNDERVALUED labels (the 'UNDERVALUED' test comes first), 7 for FAIRLY VALUED and WITHIN TYPICAL RANGE, 3 for both OVERVALUED labels and 5 for INSUFFICIENT DATA |
| NseScoring.WeightsSumToOne | NSE/main.py:1201-1207 | the five category weights sum to 1 |
| NseScoring.WeightedBounds | NSE/main.py:1264-1267 | when every score lies in [0, 10] and the weights are non-negative, the weighted sum lies between 0 and 10 times the weight total |
| NseScoring.WeightedSum | NSE/main.py:1264-1267 | the accumulation loop computes the weighted sum of the category scores |
| NseScoring.CategoryScoresInRange | NSE/main.py:1211-1262 | every category score lies in [0, 10] when the moat score is non-negative |
| NseScoring.CompositeScore | NSE/main.py:1197-1269 | the result is an error (a TypeError) exactly when a passed stock has 'N/A' D/E; otherwise it is the weighted sum of the category scores and lies in [0, 10] |
| NseScoring.CompositeFailsWithoutBalanceSheet | NSE/main.py:1215-1216 | a passed stock with 'N/A' D/E makes the health score raise |
| NseScoring.ZeroDebtLosesBonus | NSE/main.py:1215-1219 | as written, D/E 0 scores 8 while D/E 0.3 scores 9; the corrected score gives 9 for 0 |
| NseScoring.CompositeScoreFixed | NSE/main.py:1197-1269 | with the corrected health score, the composite is the weighted sum and always lies in [0, 10] |
| NseScoring.ActionFor | NSE/main.py:1409-1419 | STRONG BUY holds exactly when the composite is at least 8, BUY exactly on [7, 8), HOLD on [6, 7), WATCH on [5, 6) and AVOID below 5 |
| NseScoring.ActionMonotone | NSE/main.py:1409-1419 | a higher composite never gets a weaker action |
| NseScoring.Recommend | NSE/main.py:1405-1419 | as written: the composite is the weighted sum with the health points as written and the action is its step function; exactly a passing stock with 'N/A' D/E makes the composite raise, and then no action is chosen |
| NseScoring.RecommendFixed | NSE/main.py:1405-1419 | with the corrected health points every stock gets the weighted-sum composite and the action of its step function |
| NineStarKi.ElementTable | 9Star_KI_Profile/main.py:7-17 | the profile table is defined exactly for the numbers 1 to 9 |
| NineStarKi.DigitSumMod9 | 9Star_KI_Profile/main.py:39 | the digit sum of a year is congruent to the year mod 9 |
| NineStarKi.ReducedYearDigit | 9Star_KI_Profile/main.py:39-41 | the reduced year is the digital root of the year (9 for a multiple of 9) and lies in 1..9 |
| NineStarKi.IsMaleExactly | 9Star_KI_Profile/main.py:43 | the male branch is taken exactly for "m" or "M"; any other string takes the female branch |
| NineStarKi.FemaleMainNumberInRange | 9Star_KI_Profile/main.py:48-52 | the female main number lies in 1..9 and is year + 4 wrapped to 1..9 |
| NineStarKi.MaleMainNumberRange | 9Star_KI_Profile/main.py:43-47 | the male main number is 11 minus the reduced year, lies in 2..10, and is 10 exactly when the year is 1 mod 9 |
| NineStarKi.MaleMainNumberTen | 9Star_KI_Profile/main.py:8-16 | as written, a man born in 1990 gets main number 10, which has no profile |
| NineStarKi.MainNumberFixed | 9Star_KI_Profile/main.py:36-54 | the corrected main number always lies in 1..9 and has a profile |
| NineStarKi.MainNumberFixedClosedForm | 9Star_KI_Profile/main.py:36-54 | the corrected main number is 2 − year wrapped for men and year + 4 wrapped for women |
| NineStarKi.MainNumberFixedAgrees | 9Star_KI_Profile/main.py:43-52 | the corrected main number agrees with the original wherever the original is not 10, and gives 1 instead of 10 |
| NineStarKi.WrapNine | 9Star_KI_Profile/main.py:59-60 | the wrap to 1..9 keeps the value mod 9, with 0 mapped to 9 |
| NineStarKi.EnergyNumber | 9Star_KI_Profile/main.py:56-60 | the energy number lies in 1..9 and is congruent to main + month − 1 mod 9 |
| NineStarKi.TrendNumber | 9Star_KI_Profile/main.py:62-65 | the trend number lies in 1..9 and is congruent to energy + day − 1 mod 9 |
| NineStarKi.YearEnergyClosedForm | 9Star_KI_Profile/main.py:67-83 | the year energy is (year − 2000 + 4) mod 9 + 1 and lies in 1..9 |
| NineStarKi.YearEnergyBase | 9Star_KI_Profile/main.py:75-77 | the year 2000 has energy 5 |
| NineStarKi.YearEnergyPeriodic | 9Star_KI_Profile/main.py:73-83 | the year energy repeats every nine years |
| NineStarKi.YearEnergySuccessor | 9Star_KI_Profile/main.py:73-83 | each year's energy is one more than the year before, with 9 followed by 1 |
| NineStarKi.InteractionExhaustive | 9Star_KI_Profile/main.py:85-102 | equal elements are in harmony (labelled Neutral), and the final balanced fallback is never reached |
| NineStarKi.InteractionDuality | 9Star_KI_Profile/main.py:20-34 | for distinct elements, (a, b) is Supportive exactly when (b, a) is Nourishing, and Challenging exactly when (b, a) is Controlling |
| PdfProcessor.ProcessSinglePdfOnlySaved | pdf-x-agent/src/pdf_processor.py:49-96 | as written, a document comes back only for a PDF on disk with a saved record, and it is that record; an unsaved PDF always gives None |
| PdfProcessor.FreshPdfDropped | pdf-x-agent/src/pdf_processor.py:75-96 | an existing, unsaved PDF with enough text is dropped as written, but accepted by the corrected version |
| PdfProcessor.ProcessSinglePdfFixed | pdf-x-agent/src/pdf_processor.py:49-92 | None holds exactly for a missing file, or for an unsaved file with under 100 characters of text; a saved record is returned as is; a new document has the file's name, hash and text, one page per 50 newlines plus one (`count('\n') // 50 + 1`), and the text's character and word counts |
| PdfProcessor.ChunkText | pdf-x-agent/src/pdf_processor.py:120-136 | the chunks are the word windows of size chunk_size and step chunk_size − overlap, joined with spaces; with chunk_size > overlap there is at least one |
| PdfProcessor.WindowChunks | pdf-x-agent/src/pdf_processor.py:128-133 | the loop, which stops at the first window reaching the end, yields exactly the joined windows |
| PdfProcessor.ChunksShortText | pdf-x-agent/src/pdf_processor.py:122-126 | text of at most chunk_size words gives one chunk, the words joined by single spaces; empty text gives [""] |
| PdfProcessor.WindowAt | pdf-x-agent/src/pdf_processor.py:128-133 | window k starts at word k·step and is words[k·step : k·step + size]; every window but the last has exactly size words, and the last reaches the final word |
| PdfProcessor.WindowsCover | pdf-x-agent/src/pdf_processor.py:128-133 | putting the windows back together at their offsets gives back every word, in order |
| PdfProcessor.WindowsOverlap | pdf-x-agent/src/pdf_processor.py:128-133 | consecutive windows share exactly size − step (the overlap) words |
| AgentState.Agent.LoadState | pdf-x-agent/src/agent.py:30-52 | a missing state file gives the fresh state (no last run, empty lists, zero runs); an existing file gives the record it holds |
| AgentState.Agent.SaveState | pdf-x-agent/src/agent.py:54-61 | saving records the time of the save and changes nothing else |
| AgentState.ScanStepSkip | pdf-x-agent/src/agent.py:78-96 | a PDF is skipped exactly when its name and hash are both on record; a new file yielding a document is kept and recorded once; a file the processor rejects changes nothing |
| AgentState.ScanGrowth | pdf-x-agent/src/agent.py:76-96 | the processed list keeps its old entries in front and grows by exactly one entry per new document, each entry coming from a scanned PDF |
| AgentState.ScanNoDuplicates | pdf-x-agent/src/agent.py:82-96 | scanning never records the same name and hash twice |
| AgentState.Agent.ProcessNewDocuments | pdf-x-agent/src/agent.py:63-103 | the new documents and the processed list are the scan's, the list grows by one per new document, the other state is untouched, and the invariant is kept |
| AgentState.SelectContent | pdf-x-agent/src/agent.py:105-137 | no documents gives None; a topic with search results gives one of the results; otherwise the result is the first three chunks joined with spaces, or None without chunks |
| AgentState.SelectedChunks | pdf-x-agent/src/agent.py:128-129 | at most the first three chunks are combined, in order, separated by single spaces |
| AgentState.Preview | pdf-x-agent/src/agent.py:167 | the preview is the first 100 characters of the post followed by "..." |
| AgentState.Agent.CreateAndPost | pdf-x-agent/src/agent.py:139-196 | no content returns False and changes nothing; success appends one tweet and adds one run without touching the errors; failure or an exception appends one error without touching tweets and runs; any post saves the state; the invariant tweets = runs is kept |
| AgentState.Agent.GetStats | pdf-x-agent/src/agent.py:198-209 | the reported counts are the list lengths, and under the invariant total tweets equal total runs |
| TextAnalyzer.GetEmbeddings | pdf-x-agent/src/text_analyzer.py:42-59 | there is one vector per text, in order, each embedding the text's first 10000 characters; a failed call gives 768 zeros |
| TextAnalyzer.FirstIndex | pdf-x-agent/src/text_analyzer.py:93 | the first occurrence of a character is found exactly when it is present |
| TextAnalyzer.LastIndex | pdf-x-agent/src/text_analyzer.py:93 | the last occurrence of a character is found exactly when it is present |
| TextAnalyzer.JsonSpanSpec | pdf-x-agent/src/text_analyzer.py:93-95 | a span exists exactly when some '{' precedes some '}', and it runs from the first '{' to the last '}' |
| TextAnalyzer.AnalyzeDocument | pdf-x-agent/src/text_analyzer.py:61-126 | the model sees the first max_chars characters; a reply without a JSON object gives the fallback analysis, a JSON object that decodes gives that analysis, each stamped with the model, the full text length and the sample length min(len, max_chars); a failing model call or a JSON object that does not decode gives the error analysis carrying the exception message |
| TextAnalyzer.AnalysisSeesOnlySample | pdf-x-agent/src/text_analyzer.py:64 | texts with the same first max_chars characters get the same analysis, up to the recorded length |
| TextAnalyzer.AnalysisFallback | pdf-x-agent/src/text_analyzer.py:95-107 | a reply without a JSON span gives the fixed fallback analysis, whose summary is the first 200 sample characters and "..." |
| TextAnalyzer.CleanPostShape | pdf-x-agent/src/text_analyzer.py:159-163 | a cleaned post has no quote, no leading or trailing whitespace and single spaces only, and cleaning it again changes nothing |
| TextAnalyzer.Truncate | pdf-x-agent/src/text_analyzer.py:165-167 | a post within the cap is unchanged; a longer one becomes its first max_length − 3 characters and "...", exactly max_length long when the cap is at least 3 |
| TextAnalyzer.TruncateAvoids | pdf-x-agent/src/text_analyzer.py:166-167 | truncation adds no character other than '.' |
| TextAnalyzer.TruncateSmallCap | pdf-x-agent/src/text_analyzer.py:166-167 | below a cap of 3 the result can exceed the cap, because the negative slice bound counts from the end |
| TextAnalyzer.GeneratePost | pdf-x-agent/src/text_analyzer.py:128-176 | a reply is cleaned and truncated (Truncate of CleanPost), so the post has no quote and is at most max_length long (for a cap ≥ 3), and a cleaned reply within the cap is returned as is; when the model raises, the result is the fallback post cut to the cap |
| TextAnalyzer.SummarizeText | pdf-x-agent/src/text_analyzer.py:178-191 | the summary is the stripped reply, or the first 500 characters and "..." when the model raises |
| Graph.ParseAll | Graph/update1.py:11-13 | the conversion fails exactly when `float()` rejects some field; otherwise there is one number per field, in order |
| Graph.NonBlank | Graph/update1.py:11 | the kept fields are exactly the fields that are not whitespace only, and each strips to something |
| Graph.NonBlankAppend | Graph/update1.py:11 | fields are filtered one by one, so the kept fields stay in input order |
| Graph.ParseInput | Graph/update1.py:7-13 | the empty input is exactly the "Input cannot be empty." error; a non-empty input fails, with the "Invalid input" error, exactly when `float()` rejects some non-blank field; success gives `float()` of each non-blank field, in order |
| Graph.BlankFieldsDropped | Graph/update1.py:11 | "1,,2," has the two fields "1" and "2" |
| Graph.BlankInputParsesEmpty | Graph/update1.py:11 | input made only of whitespace and commas parses, without error, to no numbers |
| Graph.XColumn | Graph/update1.py:19-21 | the x series is found exactly when a column is named "x" |
| Graph.YColumns | Graph/update1.py:22 | the y series are exactly the columns not named "x" |
| Graph.YColumnsAppend | Graph/update1.py:22 | the y series follow the column order |
| Graph.ReadCsvData | Graph/update1.py:16-28 | a read error and a missing x column are reported with the CSV prefix; a success gives x and every other column, each as long as x; a length mismatch is the only other error |
| Graph.TruncateSeries | Graph/update1.py:32-36 | above 10000 points, x and every y keep their first 10000 points; otherwise they are unchanged |
| Graph.TruncateKeepsLengths | Graph/update1.py:32-36 | series of equal length stay of equal length, min(len, 10000) |
| Graph.SeriesColorPeriodic | Graph/update1.py:42-46 | the colours repeat every five series, starting with the palette in order |
| Graph.ChoosePlot | Graph/update1.py:45-55 | "scatter" and "bar" (any case) pick those plots, and every other type draws lines |
| Graph.ArgumentEntry | Graph/update1.py:97-103 | a bad x aborts with its error; then a bad --y aborts with its error; when everything parses, the result is the plot of x and the --y series exactly when each series is as long as x, and the mismatch error otherwise |
| Graph.ParseEach | Graph/update1.py:99 | on success every --y value is parsed, in order; a failure carries the error of the first --y value that does not parse |
| Graph.Accept | Graph/update1.py:112-122 | "done" (any case) ends with the datasets, or an error if there are none; any other line that fails to parse ends the run with its error; one that parses is appended when it is as long as x and refused otherwise |
| Graph.InteractiveAccepted | Graph/update1.py:110-122 | a plot from the interactive loop has at least one dataset, and every dataset is as long as x |
| Graph.InteractiveEntry | Graph/update1.py:105-122 | a bad x line aborts with its error; otherwise the loop ends as the line-by-line definition does |

## Left out

- NSE screener I/O is not modelled, because it is I/O or wall-clock time. This covers the data cache, the rate limiter, every HTTP, HTML and yfinance fetch, report generation and the menu.
- `round()` is not modelled anywhere in the screener. The reported figures are exact.
- NseHealth.ApplyFinancialHealthFilters: D/E is compared and reported unrounded, so it does not model `round(debt_to_equity, 2)` or the rounded margin-decline percentage.
- NseScoring.CompositeScore: the composite is not rounded to two decimals, so the action thresholds see the exact weighted sum.
- NseScoring.Recommend: likewise, the action is taken on the exact composite, not on the rounded one.
- NseScoring.RecommendFixed: likewise, the action is taken on the exact composite.
- NseValuation.GrowthMetrics: the CAGR exponentiation `** (1/(n-1))` is floating point, so it is an input function of the window's first value, last value and length. The model states which window and which condition give a CAGR and that its value is what that function returns; it does not state the value of the power itself.
- NseManagement.AnalyzeManagementSignals: whether an announcement is recent is given with it, because date parsing and the clock are not modelled. An unparseable date counts as recent, as in the source.
- NseManagement.AnalyzeManagementSignals: announcement titles and contents are strings. The per-announcement handler at NSE/main.py:1159-1161 also skips an announcement whose title or content is None or not a string, because the concatenation raises; that skip cannot happen in the model.
- NseManagement.AnalyzeManagementSignals: the ERROR result of the outer exception handler is not reached, because the fetch that could raise is outside the model.
- The P/B ratio in the valuation step is not modelled. Nothing downstream reads it.
- pandas NaN handling and index intersection are not modelled. The filters take the already-aligned series and the (cash flow, profit) pairs.
- PyText.Lower and PyText.Upper map ASCII letters only. Python's full Unicode case mapping is not modelled.
- `Path.timestamp`, `datetime.now()` and the `processed_at` and `timestamp` fields of the agent state are not modelled. The corrected PDF processor takes the time as a parameter.
- PdfProcessor.ChunkText: the chunk size and overlap are natural numbers. Python also accepts negative values; a negative overlap makes the step larger than the chunk size, so the windows leave gaps, and that case is not modelled.
- Graph.ArgumentEntry: it is also defined for an empty --x or an empty --y list, which the script never sends down this path (Graph/update1.py:97); those inputs go to the interactive loop instead.
- PDF text extraction (pdfplumber/PyPDF2) and MD5 hashing are not modelled. The PDF's text and hash are inputs.
- `process_all_pdfs` is not modelled, because it is an I/O loop over the directory.
- The vector store, the X poster, `run_scheduled`, `interactive_session`, pdf-x-agent/main.py, the file handler, the logger and the settings module are not modelled. The poster's truncation is the rule modelled in TextAnalyzer.Truncate; the settings constants 280, 1000 and 200 appear as parameters or constants.
- The vector store calls a `chunk_text` that `TextAnalyzer` does not define. Chunking is modelled from the PDF processor's `chunk_text`.
- AgentState.Agent.LoadState: a state file that exists but does not read back is not modelled. `read_json` catches the error and returns `{}` (pdf-x-agent/utils/file_handler.py:14-21), so the handler at pdf-x-agent/src/agent.py:44-52 is not reached; the agent then holds a state without keys, and the next scan that finds a PDF raises KeyError at pdf-x-agent/src/agent.py:83. A saved record here always has every field.
- TextAnalyzer.GeneratePost: the failure of the prompt itself is not modelled. The prompt is built before the `try` (pdf-x-agent/src/text_analyzer.py:130-149), so `key_points` or `hashtags` that are null or not lists of strings make `', '.join` raise TypeError out of `generate_post`, to the handler of `create_and_post` (pdf-x-agent/src/agent.py:188-196). The model types these fields as lists of strings, so that path, and a null `summary` in the fallback post, cannot occur in it.
- Random choice in `select_document_for_posting` is given as an index and as the chosen document's chunks.
- The prompt texts sent to the language model and `test_connection` are not modelled. The model's replies are inputs.
- All matplotlib drawing, the argparse setup and the prompts for plot type, grid and file name are not modelled. Graph/main.py is not part of this model.
- The Nine Star Ki `get_forecast` text and the console interface are not modelled. The birth year is a natural number, because `str` of a negative year contains '-', which `int()` rejects.

## Findings

| source | as written | input that shows it | evidently intended | confidence | as-written member | corrected member |
|---|---|---|---|---|---|---|
| 9Star_KI_Profile/main.py:43-47 | the male main number is 11 − reduced, and the `<= 0` guard never fires | birth year 1990, gender "M": digit sum 19, reduced 1, main number 10, which is no key of the element table | wrap to 1..9, so 10 becomes 1 | high; not executed | NineStarKi.MaleMainNumberTen | NineStarKi.MainNumberFixed |
| pdf-x-agent/src/pdf_processor.py:84 | the metadata calls `Path.timestamp`, which pathlib does not define; the handler at 94-96 turns the error into None | any existing PDF without a saved record whose text has 100 or more characters | record a processing time and return the new document | high; not executed | PdfProcessor.FreshPdfDropped | PdfProcessor.ProcessSinglePdfFixed |
| NSE/main.py:1215-1216 | `debt_to_equity and debt_to_equity < 0.5` where D/E is the string 'N/A' for a company without a balance sheet (set at NSE/main.py:774) | a direct call of `calculate_composite_score` with Financial_Health_Status 'PASSED' and Debt_to_Equity 'N/A': `'N/A' < 0.5` raises TypeError. Inside `screen_stocks` this is not reached: an empty balance sheet already makes `calculate_moat_indicators` return None (NSE/main.py:543-545, 678), and `moat_metrics.get` raises at NSE/main.py:1351 first | no D/E bonus when D/E is unknown | low (direct call only); not executed | NseScoring.CompositeFailsWithoutBalanceSheet | NseScoring.CompositeScoreFixed |
| NSE/main.py:1216-1219 | the truthiness test drops a D/E of 0 | a passed debt-free stock (D/E 0) scores 8 for health, while D/E 0.3 scores 9. D/E 0 is also what the health filter reports when debt or equity is unknown (NSE/main.py:760-762), so the zero may be meant as a sentinel | a D/E of 0 earns the full bonus | low; not executed | NseScoring.ZeroDebtLosesBonus | NseScoring.HealthPointsFixed |

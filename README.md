# Crescendo prediction back end in Dafny

This project models the prediction logic of a back end for "Crescendo", a
draw game. Each draw shows ten balls out of 1..25 and a bonus letter. Every
statement is made over a log of draws ordered by date and then time,
oldest first, which is the order in which the store is read.

- **Statistical predictor** (`Engine`, over `Draws` and `Ranking`). Each
  number gets two statistics:
  - its frequency over the last 20 draws;
  - its gap, the number of draws since it was last seen.

  A weighted score ranks the numbers, and the first ten are kept together
  with a capped confidence value. The same module builds the dashboard:
  the hot, cold and overdue lists, the global counts, the parity split
  and the decade split.
- **Algorithmic predictor** (`MatrixEngine`). It uses two 25×25 matrices:
  - B counts co-occurrences within a draw;
  - A holds draw-to-draw transitions, with each row normalised.

  A module-level cache keeps both matrices and is keyed by draw count. The
  prediction blends max-scaled time and space scores at 0.7/0.3.
- **Self-tuning agent** (`ExpertAgent`). Its parts are:
  - a backtest that replays the statistical predictor over the end of the
    log, with no look-ahead;
  - a 36-point grid search over the predictor's weights;
  - the configuration table, in which exactly one row is active.
- **Web helpers** (`Api`): the tiered gain, the history match count, and
  the status and message of a manual refresh.
- **CSV seeding** (`Seed`, using `Calendar` for `strptime`): a row becomes a
  draw with exactly ten balls, or it is skipped.
- **Results scraper** (`Scraper`, with `Store` as the records it updates).
  It covers:
  - the French date heading;
  - the filtering and de-duplication of time labels;
  - the acceptance rules for balls and bonus;
  - the `YYYYMMDDHH` draw id;
  - the add / complete-pending / ignore decision.
- **Python text primitives** (`Text`): `int()`, `strip()`, `split()`,
  `lower()`, `replace()`, `isdigit()`, `isalpha()`, `str(n)` and
  `f"{n:02d}"`, over the characters the code meets.

The statistical predictor and the agent read every stored record, ordered
by date and time, with no filter on the source (engine.py:7-8). The matrix
predictor reads the settled log: the records in the same order, except
those still marked 'ai_pending' (`Store.SettledByDateTime`). Where the code
and the design text differ, the model follows the code:
- The hot list breaks ties by dictionary insertion order, which is first
  appearance in the last 50 draws. The design text says "lower number".
- The statistical score is `freq_w·freq_20 + gap_w·(1 − exp(−decay·gap))`.
  It is not the min-max normalised formula of the design text.
- The confidence is the capped sum of the ten scores. It is not a function
  of a score margin.
- An empty log gives an empty prediction rather than an error.
- The matrix prediction uses the transition rows of the latest draw and the
  mean co-occurrence with the top-15 time candidates. It does not use
  min-max normalised matrices.

Scraped records carry a prediction payload without a top-level `numbers`
key, so the history view reports them with 0 matches and gain 0
(`Scraper.ScrapedRecordNoGain`).

## Model

| member | source | states |
|---|---|---|
| Draws.Tail | engine.py:31 | `df.tail(k)` is the last min(k, n) draws, in order |
| Draws.LastSeenGapMeaning | engine.py:39-54 | The gap is at most the log length. It is 0 exactly when the latest draw qualifies, and the full length exactly when no draw does. Otherwise the draw gap+1 from the end qualifies and none after it does |
| Draws.CountPositive | engine.py:33-35 | A number is counted exactly when it occurs, at most once per ball |
| Engine.ScanGap | engine.py:40-54 | The backward scan with `gap`/`found` returns the gap since the last draw that qualifies, or the log length when none does |
| Engine.CountNumbers | engine.py:28-35 | The counter dictionary has exactly the keys 1..25. Each holds the number's occurrences in the given draws, and balls outside 1..25 are skipped |
| Engine.CalculateStats | engine.py:24-56 | `calculate_stats`: for every n in 1..25, freq_20 is its count in the last 20 draws and gap is its gap; no other keys |
| Engine.NumberStatFacts | engine.py:28-54 | freq_20 is at most the number of balls in the last 20 draws, and when positive it is witnessed by one of them. The gap is ≤ the log length, 0 when the latest draw holds n, and the log length when n never appears |
| Engine.CountLetters | engine.py:66-70 | The letter counters have exactly the keys A..E, each holding the number of the given draws with that bonus |
| Engine.CalculateLetterStats | engine.py:58-83 | `calculate_letter_stats`: for each letter A..E, its count over the last 50 draws and its gap |
| Engine.LetterStatFacts | engine.py:62-81 | A letter count is ≤ 50 and ≤ the log length. The letter gap is 0 when the latest bonus is the letter, and the log length when the letter never appears |
| Engine.CalculatePrediction | engine.py:117-151 | An empty log gives `{"numbers": [], "confidence": 0}`. Otherwise it gives exactly ten distinct numbers of 1..25, each with its own score entry, sorted by score (lower number first on ties), each ahead of every number left out. The confidence is min(sum of the ten scores, 100) |
| Engine.ScoreAll | engine.py:129-132 | `scores` lists the 25 numbers in ascending order, each with the score of its own statistics |
| Engine.ScoreNumber | engine.py:87-91 | A score entry carries its own number, gap and 20-draw frequency |
| Engine.TopOfScores | engine.py:134-139 | The first ten of the stable score sort are distinct numbers of 1..25 carrying their own scores, each ranked ahead of every number not kept |
| Ranking.TopK | engine.py:135-138 | `sorted(..., reverse=True)[:k]` keeps min(k, n) entries of the input, in descending key order, ties in input order, each ahead of every entry left out |
| Ranking.SortDescending | engine.py:135 | The in-place stable sort leaves a permutation of its input, in descending key order with ties in their original order |
| Engine.FirstSeenFacts | engine.py:170-173 | The keys of the counter filled from the balls are the distinct balls, in order of first appearance |
| Engine.CountByBall | engine.py:169-173 | `number_counts_50`: the keys are the balls of the given draws in first-appearance order, and each value is that ball's count |
| Engine.FillMissing | engine.py:178-182 | The zero-fill appends the missing numbers of 1..25 in ascending order with count 0. It leaves existing keys and counts alone |
| Engine.FilledKeysFacts | engine.py:178-182 | After the zero-fill the keys are distinct, they are the old keys plus all of 1..25, and there are at least 25 |
| Engine.MissingFromFacts | engine.py:180-182 | The numbers the fill adds are exactly those of 1..25 that were not keys, each once |
| Engine.CountTopFacts | engine.py:175-184 | Ranking the counter items keeps distinct keys with their true counts, each ranked ahead of every key left out |
| Engine.ItemsRankIncreasing | engine.py:175 | `counts.items()` lists the keys in dictionary order, which is the tie order of the stable sort |
| Engine.HotListFacts | engine.py:175 | The hot list is the top 5 of the last-50 counter by count, ties in first-appearance order |
| Engine.ColdListFacts | engine.py:184 | The cold list is the bottom 5 of the zero-filled counter by count, ties in dictionary order |
| Engine.RankHot | engine.py:175 | `hot_numbers` satisfies the hot-list specification |
| Engine.RankCold | engine.py:177-184 | The zero-fill followed by the ascending sort satisfies the cold-list specification |
| Engine.HotAndCold | engine.py:169-184 | Both lists come from one counting pass over the last 50 draws |
| Engine.OverdueListFacts | engine.py:188-189 | The overdue list is 5 distinct numbers of 1..25 with their gaps, by gap descending, lower number first on ties, each ahead of every number left out |
| Engine.Overdue | engine.py:188-189 | `overdue_numbers` satisfies the overdue-list specification |
| Engine.FrequencyAll | engine.py:198-205 | `frequency_all` lists 1..25 once each, ascending, with its count over the whole log |
| Engine.FrequencyTableSum | engine.py:198-205 | The `frequency_all` counts add up to the number of in-range balls in the log |
| Engine.CountParity | engine.py:208-215 | even and odd are the numbers of even and odd balls in the whole log |
| Engine.ParityTotal | engine.py:208-215 | even + odd is the total number of balls |
| Engine.CountDecades | engine.py:223-235 | The three decade counts are the balls in 1-9, 10-19 and 20-25; other balls are not counted |
| Engine.DecadeTotal | engine.py:223-235 | The decade counts sum to the in-range balls, which is at most even + odd |
| Engine.ComprehensiveStats | engine.py:156-251 | Empty log ⇔ `{}`. Otherwise it gives the hot, cold and overdue lists, `frequency_all`, the parity and decade entries and `total_draws` = the log length, each as specified above |
| MatrixEngine.CoCountSymmetric | matrix_engine.py:63-73 | B[x][y] = B[y][x] |
| MatrixEngine.PairCountProduct | matrix_engine.py:67-73 | For x ≠ y, one draw adds count(x)·count(y) to B[x][y] |
| MatrixEngine.PairCountDiagonal | matrix_engine.py:67-73 | On the diagonal, one draw adds c·(c−1) for a number drawn c times. It adds 0 for distinct balls |
| MatrixEngine.AddPairsFrom | matrix_engine.py:68-73 | The inner `j` loop adds, for ball i, each in-range pair with a later ball at both orientations |
| MatrixEngine.AddDrawPairs | matrix_engine.py:67-73 | The pair scan over i < j adds each in-range pair at both orientations |
| MatrixEngine.BuildCoOccurrence | matrix_engine.py:63-73 | The built B holds the co-occurrence count of every pair over the log |
| MatrixEngine.AddCrossCounts | matrix_engine.py:81-84 | One pair of consecutive draws adds count_t(u)·count_{t+1}(v) at (u, v), in range only |
| MatrixEngine.AddRowCounts | matrix_engine.py:81-84 | The inner loop adds one to (x, v) for every in-range v of the next draw, when x is in range |
| MatrixEngine.BuildTransitionCounts | matrix_engine.py:77-84 | Raw A[u][v] counts, over consecutive draws, the u in draw t times the v in draw t+1 |
| MatrixEngine.RowTotalShortLog | matrix_engine.py:77-84 | With fewer than two draws every raw row of A is zero |
| MatrixEngine.NormalizeRows | matrix_engine.py:88-91 | Each row is divided by its sum, and a row summing to 0 stays 0 (no division by zero) |
| MatrixEngine.RowStochastic | matrix_engine.py:88-91 | Every normalised row of A sums to exactly 1, or is all zero when its raw sum is 0. Every entry lies in [0, 1] |
| MatrixEngine.BuiltNonNegative | matrix_engine.py:53-91 | Both built matrices have no negative entry |
| MatrixEngine.MatrixCache.constructor | matrix_engine.py:10-12 | At module load both matrices are unset and the cached count is 0 |
| MatrixEngine.MatrixCache.BuildMatrices | matrix_engine.py:41-94 | The cached count becomes the log length and both globals hold fresh A and B of that log. An empty log gives two zero matrices |
| MatrixEngine.MatrixCache.GetMatrixA | matrix_engine.py:97-106 | Rebuild from the settled log exactly when A is unset or the store's count differs from the cached one, otherwise nothing changes. It returns A |
| MatrixEngine.MatrixCache.GetMatrixB | matrix_engine.py:108-117 | The same check, returning B |
| MatrixEngine.TimeScoresOf | matrix_engine.py:168-178 | `time_scores` is the sum of the A rows of the latest in-range balls, max-scaled |
| MatrixEngine.MaxOfFacts | matrix_engine.py:177 | `v.max()` bounds every entry and is one of them |
| MatrixEngine.ScaledFacts | matrix_engine.py:177-178 | Max-scaling a non-negative vector puts every entry in [0, 1] and keeps the order of any two entries. A positive maximum becomes exactly 1 |
| MatrixEngine.TimeRawBound | matrix_engine.py:168-172 | With A row-normalised, a raw time score is at most the number of in-range latest balls |
| MatrixEngine.TimeRawNonNegative | matrix_engine.py:168-172 | With a non-negative A every raw time score is non-negative |
| MatrixEngine.TopCluster | matrix_engine.py:183 | The top-15 cluster has 15 distinct indices of 0..24, none with a lower time score than an index left out |
| MatrixEngine.MeanAffinity | matrix_engine.py:188-198 | The space score of c is the mean of B[c][o] over the cluster members o ≠ c, or 0 when there are none |
| MatrixEngine.AffinitySumNonNegative | matrix_engine.py:188-198 | With a non-negative B every affinity sum is non-negative |
| MatrixEngine.SpaceScoresOf | matrix_engine.py:185-202 | `space_scores` holds the mean affinities, max-scaled |
| MatrixEngine.ScoresInUnit | matrix_engine.py:168-206 | Time scores, space scores and every 0.7·time + 0.3·space blend lie in [0, 1] |
| MatrixEngine.RankBlended | matrix_engine.py:206-221 | Ten distinct numbers of 1..25 with their own entries, sorted by blended score (lower number first on ties), each ahead of every number left out |
| MatrixEngine.PredictFromMatrices | matrix_engine.py:161-221 | An empty latest draw gives `{"numbers": [], "details": []}`. Otherwise the ranking is built on a top-15 time cluster, and every score lies in [0, 1] for non-negative matrices |
| MatrixEngine.MatrixCache.CalculateMatrixPrediction | matrix_engine.py:157-228 | The prediction uses the A and B the cache holds for its log and the latest settled draw. Every score lies in [0, 1] |
| ExpertAgent.TestIndices | expert_agent.py:37 | `range(n − window, n)` has `window` indices, consecutive and ending at n − 1 |
| ExpertAgent.TopFive | expert_agent.py:49 | `numbers[:5]` is a prefix of the prediction of at most 5 entries, the whole list when it is shorter |
| ExpertAgent.HitsBound | expert_agent.py:49-55 | One evaluated draw scores at most 5 hits |
| ExpertAgent.HitsOverBound | expert_agent.py:39-56 | The hits total is at most 5 per evaluated draw |
| ExpertAgent.EvaluatedCount | expert_agent.py:37-41 | The evaluated indices are those of the window from max(n − window, 20) on. Negative and small indices are skipped |
| ExpertAgent.AccuracyInUnit | expert_agent.py:58-61 | The accuracy lies in [0, 1], and is 0.0 when nothing was evaluated |
| ExpertAgent.HitsUsePast | expert_agent.py:44-48 | No look-ahead: the hits on draw idx depend only on draws 0..idx |
| ExpertAgent.HitsOverUsePast | expert_agent.py:39-48 | The hits total over indices below k depends only on the first k draws |
| ExpertAgent.Backtest | expert_agent.py:22-61 | `backtest` returns hits / (5 × evaluated draws), or 0.0 with no evaluated draw |
| ExpertAgent.AnalyzeCurrentPerformance | expert_agent.py:63-78 | "No data" for an empty log. Otherwise it returns the 50-draw backtest accuracy of the current weights, in [0, 1] |
| ExpertAgent.GridPointAt | expert_agent.py:98-107 | Grid point 9f + 3g + d holds the f-th frequency, g-th gap and d-th decay weight (4×3×3 = 36 points) |
| ExpertAgent.BestFacts | expert_agent.py:104-112 | Replacing only on a strictly greater score keeps max(current, all scores). The kept candidate is the earliest that reaches it |
| ExpertAgent.GridSearch | expert_agent.py:104-116 | The triple loop leaves the running best and the weights of the candidate kept |
| ExpertAgent.SearchOutcome | expert_agent.py:118-132 | found_better ⇔ some grid point beats the current accuracy. Then best = the maximum, the proposal is the earliest grid point reaching it, and the improvement is (best − current)/current, or 0 for current 0 |
| ExpertAgent.EvolveFormula | expert_agent.py:80-132 | Fewer than 50 draws give "not enough data". Otherwise the outcome is the search outcome against the current weights' backtest accuracy |
| ExpertAgent.ConfigTable.ApplyNewParameters | expert_agent.py:134-149 | Every earlier row becomes inactive, and one active row with the given weights is appended |
| ExpertAgent.DeactivatedFacts | expert_agent.py:136-147 | After the update exactly one row is active, and the current configuration is the new weights |
| Api.CalculateGain | main.py:47-70 | An empty prediction pays 0.0. Otherwise the payout is that of the set-intersection size |
| Api.GainTable | main.py:56-68 | Fewer than 6 or more than 10 matches pay 0, and 6..10 matches pay a positive amount. The jackpot 100000 is the maximum |
| Api.GainMonotone | main.py:56-68 | Up to 10 matches the payout never decreases with more matches |
| Api.MatchesBounds | main.py:52 | The match count is symmetric and bounded by the distinct balls and the list lengths on each side |
| Api.MatchesIgnoreRepeats | main.py:52 | A repeated predicted number does not count twice |
| Api.ExactPredictionJackpot | main.py:52-58 | Predicting 10 distinct drawn balls exactly pays 100000 |
| Api.GetHistory | main.py:127-147 | One entry per record, in order. The prediction is `{}` when absent. matches_count is the overlap with the predicted numbers (0 without any), and the gain is its payout |
| Api.NextDrawLabelCases | main.py:188-196 | Before 13h the label is "13h00", from 19h on "demain 13h00", and otherwise the next hour (14..19) followed by "h00" |
| Api.RefreshOutcome | main.py:183-203 | The status is "updated" ⇔ updated, else "current". The success message appears ⇔ updated, and otherwise the message names the next draw |
| Calendar.ParseDate | init_db.py:9-13 | A parsed "%d/%m/%Y" date is a real calendar date |
| Calendar.ParseTime | init_db.py:15-19 | A parsed "%H:%M:%S" time is a valid clock time |
| Calendar.ParseFormatDate | init_db.py:9-13 | Parsing the rendered day/month/year of a date gives that date back |
| Calendar.ParseFormatTime | init_db.py:15-19 | Parsing the rendered hour:minute:second gives the time back |
| Text.ParseIntRoundTrip | init_db.py:52 | `int(str(n)) == n` for every integer n |
| Text.ParseIntDigits | scraper.py:103 | `int()` of a digit string is its decimal value |
| Seed.RowBalls | init_db.py:59-61 | When the balls are read, there are ten of them, each the `int()` of columns 4..13 in order |
| Seed.ParseRowFacts | init_db.py:52-63 | A row is accepted ⇔ it has ≥ 15 columns and a readable id, date, time and ten balls. The draw has those ten balls in order, the bonus of column 14, source 'csv' and a valid date and time |
| Seed.ParseRenderRow | init_db.py:52-71 | A row written from a draw reads back as that draw |
| Seed.ReadRow | init_db.py:46-82 | The per-row body, with its early `continue`s and the ball loop, yields exactly the row's draw or a skip |
| Seed.SeedDatabase | init_db.py:21-85 | A non-empty store is left alone. Otherwise the accepted rows are added in file order, empty and bad rows are not counted, and the count is the number added |
| Seed.AcceptedShape | init_db.py:59-71 | Every seeded record has ten balls and source 'csv', with at most one record per row |
| Text.StripSpec | scraper.py:83 | `strip()` removes exactly the leading and trailing whitespace and keeps the rest |
| Text.SplitJoin | scraper.py:46 | `split()` of words joined by spaces gives the words back |
| Scraper.FindHeading | scraper.py:32-35 | The first `h2` whose string contains "Tirages du", or none when there is no such heading |
| Scraper.MonthTable | scraper.py:40-51 | The m-th French month name maps to m, and any other word to 1 |
| Scraper.ParseHeadingDate | scraper.py:37-56 | A parsed heading date is a real calendar date |
| Scraper.ParseHeading | scraper.py:37-53 | "Tirages du <weekday> <day> <month> <year>" reads as that day and year in the table's month, when that date exists |
| Scraper.ParseHeadingRoundTrip | scraper.py:37-53 | The heading of any real date reads back as that date |
| Scraper.TimeNodes | scraper.py:77 | The time-label nodes are exactly the text nodes matching `^\d{1,2}h$` |
| Scraper.TimeNodesFilter | scraper.py:77 | `find_all` is a filter in document order: the labels of a + b are those of a followed by those of b |
| Scraper.TimeNodesOne | scraper.py:77 | One text node is kept exactly when it is a time label |
| Scraper.TimeLabelHour | scraper.py:83-114 | A time label strips to its digits and 'h', and reads as the hour they spell, below 100 |
| Scraper.StripLabel | scraper.py:83 | `strip()` of a label with one trailing newline gives the label |
| Scraper.LabelDigitsHour | scraper.py:114 | `int(time_str.replace("h", ""))` of one or two digits followed by 'h' is the value of the digits, below 100 |
| Calendar.ParseWholeHour | scraper.py:116 | `strptime(f"{hour}:00", "%H:%M")` gives hour:00:00 for hours up to 23 and fails for larger ones |
| Scraper.DigitTexts | scraper.py:101 | The kept texts are exactly the all-digit ones |
| Scraper.DigitTextsFilter | scraper.py:101 | The comprehension keeps order and repeats: the digit texts of a + b are those of a followed by those of b |
| Scraper.DigitTextsOne | scraper.py:101 | One text is kept exactly when it is all digits |
| Scraper.BallValues | scraper.py:103 | Each ball is the `int()` of its digit text, non-negative |
| Scraper.BallCard | scraper.py:97-110 | The first of at most four cards up the chain with at least 5 digit texts |
| Scraper.BonusOf | scraper.py:104-108 | The bonus is the first secondary text exactly when it is one alphabetic character |
| Scraper.CardsResult | scraper.py:97-110 | Balls are found ⇔ a ball card exists, and then there are ≥ 5 non-negative balls. There is no bonus without balls, and a bonus is one letter |
| Scraper.ReadCards | scraper.py:93-110 | The card walk gives exactly those balls and that bonus |
| Scraper.NodeDraw | scraper.py:112-116 | A draw found at a label is on the hour of a valid hour, with ≥ 5 balls and a one-letter bonus |
| Scraper.NodeDrawFacts | scraper.py:112-116 | A label yields a draw ⇔ balls and a bonus were found and its hour is ≤ 23. The draw is then at that hour:00 |
| Scraper.ReadNode | scraper.py:93-116 | The loop body for a new label yields exactly that draw or nothing |
| Scraper.DrawId | scraper.py:149-152 | `int(f"{date:%Y%m%d}{hour:02d}")` = ((year·100 + month)·100 + day)·100 + hour |
| Scraper.DrawIdTextValue | scraper.py:149-152 | The id text reads back as those base-100 digits |
| Scraper.DrawIdInjective | scraper.py:149-152 | Different dates or hours give different ids |
| Scraper.StoreDraw | scraper.py:138-175 | The slot is absent → a new 'scrape' record. It is pending → balls, bonus and source are updated. Otherwise the store is untouched, and the flag says whether it changed |
| Scraper.StoreFoundFacts | scraper.py:138-175 | One step only appends or completes. Non-pending records stay, the number of pending records never grows, and the flag is set ⇔ the store grew or lost a pending record |
| Scraper.StoreFoundUnique | scraper.py:138-161 | A step keeps (date, time) slots unique |
| Scraper.StoreLabels | scraper.py:82-179 | The label loop processes each distinct stripped label once, in order, and reports whether any step changed the store |
| Scraper.StoreNodesFacts | scraper.py:82-175 | Over the whole loop the store evolves as one step does, and slots stay unique |
| Scraper.FetchAndStoreLatest | scraper.py:16-186 | A bad status, a missing heading or an unreadable date changes nothing. Otherwise the labels are stored. The matrices are rebuilt from the settled log in date and time order exactly when something changed, and the cache is untouched otherwise |
| Scraper.ScrapeOutcome | scraper.py:16-186 | True ⇔ the store changed. Records are only appended or completed, non-pending records stay, pending ones never increase, and unique slots stay unique |
| Scraper.ScrapedRecordNoGain | scraper.py:144-157 | A scraped record has no `numbers` in its prediction, so the history view gives it 0 matches and gain 0 |
| Store.SortByDateTimeFacts | firestore_service.py:59 | `order_by("date").order_by("time")` gives every record of the store, as many times each, with none dated after a later one |
| Store.SettledByDateTimeFacts | matrix_engine.py:19-27 | `get_all_draws_sorted()` holds the same draws as the settled records, each as many times, and its length is the record count minus the pending ones |
| Store.SettledFilter | matrix_engine.py:27 | The comprehension is a filter: the settled log of a + b is that of a followed by that of b |
| Store.SettledOne | matrix_engine.py:27 | One record is kept, as its draw, exactly when it is not pending |
| Store.SettledMembers | matrix_engine.py:19-27 | The settled log holds the draw of every record not marked 'ai_pending', and only such draws |
| Store.SettledCount | matrix_engine.py:27 | Settled length + pending count = record count |
| Store.FirstMatch | scraper.py:138 | The first record with the given date and time, or none |
| Store.DrawStore.FindByDateTime | scraper.py:138 | The lookup returns that first match |
| Store.DrawStore.AddDraw | scraper.py:161 | `add_draw` appends the record and changes nothing else |
| Store.DrawStore.UpdateDraw | scraper.py:172 | `update_draw` replaces balls, bonus and source of one record and changes nothing else |

## Left out

- Storage and I/O. The SQLAlchemy/Firestore calls, the CSV file, HTTP and the
  HTML parser are replaced by parameters:
  - the log of draws;
  - the rows of the CSV file;
  - the records of the store (`Store.DrawStore`);
  - a `Page` value that holds the status code, the `h2` strings, and every
    text node with its card chain. The chain starts at the first `div` above
    the label's own element (`find_parent("div")`). It goes on through that
    element's parents, whatever their tag (`card.parent`).

  Of firestore_service.py the model keeps the date and time order of
  `get_all_draws_sorted` (`Store.SortByDateTime`) and the lookup, add and
  update, which are the three `DrawStore` methods.
- The clock. `datetime.now().hour` in `refresh_data` and the `updated_at`
  date of a configuration row are parameters or left out.
- `print` and logging are left out. So are the outer `try`/`except`
  blocks that turn an unexpected exception into `False` or an HTTP 500.
- Engine.ScoreNumber: the contract states the number, gap and frequency of
  an entry. The score itself is left to the body, because it uses
  `math.exp`. The exponential is a parameter `exp` of every statistical
  member, and nothing is assumed about it.
- Floating point. Scores, accuracies, matrix entries and the 0.7/0.3 blend
  are modelled as `real`, so IEEE rounding is not modelled. Matrix B keeps
  integer counts stored as reals.
- MatrixEngine.TopCluster: `argsort` does not fix an order among equal time
  scores. The model takes the highest index first, and the contract leaves
  that order open.
- The `matrix_a_summary`/`matrix_b_summary` placeholders and
  `get_matrix_visual_data` are display only.
- The cache compares the store's count, which includes pending records,
  with the settled count it cached. The getters take both as parameters
  and model the comparison as written.
- The `proposals` list of `evolve_formula` is never returned, and it is
  left out. So are the formatted percentage strings (`{:.2%}`, `{:.1%}`):
  the improvement is returned as a number.
- `apply_new_parameters` stores the weights as `str(...)`. The model keeps
  the numbers.
- `get_current_config` reads the first active row. The `SessionLocal`
  wiring of the agent is left out.
- The `/history` query's ordering and `limit` are left out. The history
  is modelled on the rows the query returned.
- The `Text` model of `int()`, `isdigit()`, `isalpha()`, `lower()` and
  whitespace covers the characters in the module. These are ASCII digits
  with PEP 515 underscores, ASCII and Latin-1 letters, and Python's
  whitespace set. Other Unicode digits and case mappings are not modelled.
- `get_text(strip=True)` on an element with several text fragments joins
  them. The model takes each element's text as one given string.
- The scraper uses the `h2`'s `.string`, which is None when the heading has
  several children. It is modelled as `Option<string>`.
- The scraper's prediction payload (`statistical`/`algorithmic`) is modelled
  as `Payload(None)`: what the core reads of it is that it has no top-level
  `numbers`.
- `%Y` in the draw id is four digits for the years a valid date allows
  here (1..9999). The model pads to four digits, as CPython does on Linux
  for years below 1000.
- The scraper stores and looks up date and time as ISO strings
  (`isoformat()`, `%H:%M:%S`). For these fixed-width forms, string equality
  is equality of the values, so the lookup compares `Date` and `Time` values.
- Records that share a date and a time are ordered by Firestore by document
  id. The model keeps them in store order. The scraper never creates two
  such records (`Scraper.StoreFoundUnique`).
- Engine.FillMissing: the zero-fill adds the missing numbers in ascending
  order. This is the order in which CPython iterates `set(range(1, 26))`:
  small integers hash to their own slot. The language does not guarantee
  that order.
- Scraper.StoreFound and Scraper.StoreDraw, and with them
  Scraper.StoreLabels, Scraper.FetchAndStoreLatest and
  Scraper.ScrapeOutcome, follow the intended session wiring: a draw absent
  from the store is added. As written, models.py:39 sets `SessionLocal`
  to None. So `calc_stat()` at scraper.py:141-145 raises a TypeError before
  `add_draw`, the `except` at scraper.py:177-179 swallows it, and the
  scraper only completes pending records.
- Engine.CalculatePrediction, Engine.ComprehensiveStats and the
  `ExpertAgent` members take the log as a parameter and follow the intended
  wiring. As written, `SessionLocal()` raises a TypeError at engine.py:94,
  engine.py:157 and expert_agent.py:10. expert_agent.py:5 also imports a
  name `engine` that models.py does not define.
- Seeding and scraping commit to a store. Transactions and rollback are not
  modelled.

# Starbucks offer recommender — a Dafny model

Project_Starbucks turns the Starbucks rewards data into offer recommendations:

- The transcript's `value` dictionaries are unzipped into offer id, reward and amount columns. This is `split_values`, which appears twice with the same body.
- The portfolio gets `offer_<i>` labels and 0/1 channel flags.
- Customers are bucketed by age and income with `pandas.cut(..., right=False)`. Values outside the bins become `"unknown"`.
- Per (customer, offer), the received / viewed / completed events are counted and folded into a purchasing-behaviour (PB) score.
- `Recommender` works on that score table:
  - it splits the table 90 / 10 into train and test;
  - it pivots the training side into a customer × offer matrix with missing cells;
  - it trains two factor matrices by stochastic gradient descent over the present cells;
  - it multiplies them out and lists the offers whose predicted score exceeds a threshold.

The modules follow the source:

| file | module | models |
|---|---|---|
| `wrappers.dfy` | `Wrappers` | `Option` for NaN, `Result` for raised errors |
| `offer_labels.dfy` | `OfferLabels` | `"offer_" + str(i)` and its inverse |
| `value_split.dfy` | `ValueSplit` | `split_values` |
| `engagement.dfy` | `Engagement` | the event sums and `PB_score` |
| `cleaning.dfy` | `Cleaning` | offer labels, channel flags and age / income buckets of `process_data.py` |
| `partition.dfy` | `Partition` | `split_train_test` |
| `pivot.dfy` | `Pivot` | the pivot `df_recs`, its missing cells and `n_PB` |
| `factorization.dfy` | `Factorization` | the training loop of `fit`, stated on values |
| `recommender.dfy` | `Recommendation` | class `Recommender`, with its matrices in `array2`s |

The gradient loop is modelled as the code runs it, and each method is proved to compute exactly the values of the specification functions in `Factorization`:

- cell by cell, row-major;
- feature by feature within a cell;
- `customers_mat[c, k]` moves first, and the update of `offer_mat[k, o]` then reads the moved value.

This is not the simultaneous update of the textbook formula. `Factorization.SequentialOfferUpdate` states the difference: the extra second-order term.

Customer identifiers are integers: `make_comparison` and `recommend` are called with an integer `customer_id`, and `make_comparison` looks it up among the row labels of `df_recs`. Offer identifiers are the `offer_<i>` strings. Floating point numbers are modelled as exact reals. The source's random draws are parameters:

- the training indices of `np.random.choice`;
- the initial matrices of `np.random.rand`.

## Model

| member | source | states |
|---|---|---|
| OfferLabels.Decimal | Data/recommendation.py:147 | `str(n)` of a non-negative integer is a non-empty string of digits with no leading zero |
| OfferLabels.ParseDecimalInverts | Data/recommendation.py:147 | reading the decimal digits of `str(n)` back gives `n` |
| OfferLabels.DecimalInjective | Data/recommendation.py:147 | two numbers have the same decimal string exactly when they are equal |
| OfferLabels.OfferLabel | Data/process_data.py:65 | the label starts with the `offer_` prefix and is longer than it |
| OfferLabels.OfferIndexInverts | Data/process_data.py:65 | the offer position is recovered from its label |
| OfferLabels.OfferLabelInjective | Data/recommendation.py:147 | two positions get the same `offer_<i>` label exactly when they are the same position |
| ValueSplit.Lookup | Data/create_df_score.py:28-37 | a record's entry is present exactly when the key is in the record, and it is the record's value there |
| ValueSplit.OfferOf | Data/process_data.py:19-24 | the offer entry is present iff `offer id` or `offer_id` is a key; `offer id` wins, and without it the entry is the record's `offer_id` value |
| ValueSplit.Split | Data/create_df_score.py:16-37 | three columns as long as the input; entry i is the record's offer id, reward and amount, or missing |
| ValueSplit.SplitConcat | Data/create_df_score.py:17-37 | splitting concatenated records is concatenating the columns of each part |
| ValueSplit.SplitValues | Data/create_df_score.py:11-43 | the loop as written: on a non-empty input it returns exactly `Split`'s columns; on an empty input it has no result to return |
| Engagement.OfferEvents | Data/create_df_score.py:109 | dropping the transactions keeps exactly the events that are not transactions, and never adds any |
| Engagement.Tally | Data/create_df_score.py:112-130 | the three sums together are at most the number of events in the group; which kind each sum counts is `TallyCountsKinds` |
| Engagement.TallyCountsKinds | Data/create_df_score.py:112-130 | the received, viewed and completed sums are exactly the numbers of events of those kinds in the group |
| Engagement.TallyIgnoresTransactions | Data/create_df_score.py:109-130 | summing the dummy columns after the transactions are dropped gives the same counts as over all events |
| Engagement.TallyCountsOfferEvents | Data/create_df_score.py:109-130 | after the transactions are dropped, each event adds one to exactly one of the three sums, the one of its kind (`TallyCountsKinds`) |
| Engagement.TallyConcat | Data/create_df_score.py:129-130 | the group sums are a fold: tallying a concatenation adds the tallies of the parts |
| Engagement.PBScore | Data/create_df_score.py:46-63 | the PB score is at least 10/9, and at most 10 when no more views than receipts are recorded |
| Engagement.PBScoreIsCapped | Data/create_df_score.py:59-62 | both branches are one formula with completions capped at views; completions beyond the views add nothing |
| Engagement.PBScoreMonotone | Data/create_df_score.py:59-62 | more views or more completions never lower the score |
| Engagement.GroupScore | Data/create_df_score.py:131 | the score of any group with a received offer is at least 10/9 |
| Cleaning.OfferNumbers | Data/process_data.py:65 | ten labels, and label i names position i |
| Cleaning.OfferNumbersDistinct | Data/process_data.py:65 | the ten offer labels are pairwise distinct |
| Cleaning.ChannelFlag | Data/process_data.py:68-71 | the flag is 0 or 1, and 1 exactly when the channel is listed |
| Cleaning.ChannelColumn | Data/process_data.py:68-71 | the comprehension over rows 0..9 gives ten flags; flag i is 1 iff the channel is listed in row i, 0 iff it is not |
| Cleaning.PortfolioFlags | Data/process_data.py:65-71 | the columns are added iff the portfolio has exactly ten rows (fewer: index error, more: length mismatch); then the offer labels and the four channel flags of each row |
| Cleaning.BinFrom | Data/process_data.py:98 | a found interval holds the value; none found means no interval from j up holds it |
| Cleaning.BinOf | Data/process_data.py:98 | the interval found holds the value; none found means no interval does |
| Cleaning.BinUnique | Data/process_data.py:98 | with increasing edges a value lies in at most one left-closed interval |
| Cleaning.OutsideAllBins | Data/process_data.py:98-101 | below the first edge or at/above the last edge a value lies in no interval |
| Cleaning.InsideSomeBin | Data/process_data.py:111-114 | between the first and the last edge a value lies in some interval |
| Cleaning.Cut | Data/process_data.py:98-101 | `cut` then `fillna`: the group is `"unknown"` or one of the labels |
| Cleaning.AgeBinsIncreasing | Data/process_data.py:95-96 | the age edges increase, there is one label fewer than edges, and `"unknown"` is not a label |
| Cleaning.IncomeBinsIncreasing | Data/process_data.py:108-109 | the same for the income edges and labels |
| Cleaning.AgeGroup | Data/process_data.py:95-101 | an age group is `"unknown"` or one of the ten decade labels |
| Cleaning.IncomeGroup | Data/process_data.py:108-114 | an income group is `"unknown"` or one of the ten income labels |
| Cleaning.AgeGroupBands | Data/process_data.py:95-98 | ages 10..99 get the label of their decade; ages 100..104 get `"100s"` |
| Cleaning.AgeGroupUnknown | Data/process_data.py:98-101 | an age is `"unknown"` iff it is missing or outside [10, 105); this includes the sentinel 118 |
| Cleaning.IncomeGroupBands | Data/process_data.py:108-111 | an income in [edge j, edge j+1) gets label j |
| Cleaning.IncomeGroupUnknown | Data/process_data.py:111-114 | an income is `"unknown"` iff it is missing or outside [25000, 1250000) |
| Cleaning.CleanRowOf | Data/process_data.py:98-114 | income is kept; age 118 becomes missing and every other age is kept; the age and income groups are those of the original age and income, and each is "unknown" exactly when the value is missing or outside the bin edges |
| Cleaning.SentinelAgeIsUnknown | Data/process_data.py:98-104 | a customer aged 118 ends with no age and the group `"unknown"` |
| Cleaning.SentinelLikeMissing | Data/process_data.py:95-104 | the sentinel age 118 and a missing age both fall in the group `"unknown"` |
| Cleaning.CleanData | Data/process_data.py:86-114 | the cleaned frame has one row per input row, each cleaned on its own |
| Partition.TrainingSize | Data/recommendation.py:30 | the number of training rows drawn is at most the number of rows |
| Partition.TrainingSizeRounds | Data/recommendation.py:30 | the training size is at most the table and within half a row of 0.9 × total; ties go to the even size |
| Partition.Complement | Data/recommendation.py:31 | every test index is below the total and is not a training index |
| Partition.ComplementMembers | Data/recommendation.py:31 | the test indices are exactly those below the total that were not drawn, strictly ascending |
| Partition.Range | Data/recommendation.py:31 | `np.arange(0, n)` holds 0..n-1 at their own positions and nothing else |
| Partition.PartitionSizes | Data/recommendation.py:30-31 | train and test indices are disjoint, together cover `range(total)`, and their sizes add to total |
| Partition.Select | Data/recommendation.py:36-37 | `.loc[idx]` picks the row at each index, in index order |
| Partition.GroupMax | Data/recommendation.py:36-37 | grouping never gives more rows than it is given |
| Partition.GroupMaxKeys | Data/recommendation.py:36-37 | the grouped table has exactly the keys of its rows |
| Partition.GroupMaxBound | Data/recommendation.py:36-37 | every row's score is at most the maximum of its key |
| Partition.GroupMaxWitness | Data/recommendation.py:36-37 | each key's maximum is the score of one of its rows |
| Partition.GroupMaxSingle | Data/recommendation.py:36-37 | a key with one row keeps that row's score |
| Partition.SplitTrainTest | Data/recommendation.py:23-39 | training and test positions together are as many as the rows; each grouped table has at most as many keys as its side has rows |
| Partition.SplitTrainTestKeys | Data/recommendation.py:23-39 | the test positions are the complement; each table has exactly the keys of the rows on its side |
| Partition.UniqueKeyElsewhere | Data/recommendation.py:36-37 | with one row per key, a row's key is not among the keys of other rows |
| Partition.SplitKeysDisjoint | Data/recommendation.py:23-39 | on a table with one row per key, no key is both in train and in test |
| Pivot.MaskRow | Data/recommendation.py:48 | a pivot row is present exactly at the offers the customer has a training score for |
| Pivot.ScoreRow | Data/recommendation.py:48 | a pivot row holds the training score wherever there is one |
| Pivot.PivotMask | Data/recommendation.py:48-59 | cell (i, j) is present exactly when (customer i, offer j) is a training key |
| Pivot.PivotScores | Data/recommendation.py:48-59 | the matrix has one row per customer label and one column per offer label, and present cells hold the training score |
| Pivot.ObservedCells | Data/recommendation.py:69 | the present cells are exactly the in-range (row, column) pairs whose cell is not missing |
| Pivot.CellIsTrainKey | Data/recommendation.py:48 | every present cell stands for a training key |
| Pivot.TrainKeyIsCell | Data/recommendation.py:48 | every training key with labelled parts has a present cell |
| Pivot.CellKeysAreTrainKeys | Data/recommendation.py:48 | the present cells stand for exactly the training keys |
| Pivot.CellKeyImageCard | Data/recommendation.py:69 | with distinct labels, distinct cells stand for distinct keys |
| Pivot.ObservedCountIsKeyCount | Data/recommendation.py:69 | the number of non-NaN cells equals the number of distinct training keys |
| Pivot.ObservedCount | Data/recommendation.py:69 | n_PB is the number of training keys |
| Pivot.EveryRowHasCell | Data/recommendation.py:48 | with the row labels unstack makes, no pivot row is all missing |
| Pivot.EveryColumnHasCell | Data/recommendation.py:48 | with the column labels unstack makes, no pivot column is all missing |
| Factorization.Residual | Data/recommendation.py:103 | the residual is 0 exactly when the prediction equals the score, and then the inner loop moves no factor; the prediction is the helper `Dot` (np.dot of row c and column o), which `Product` and `Recommendation.DotAtIsDot` state |
| Factorization.DescendStill | Data/recommendation.py:109-111 | with a zero residual the loop over features leaves both matrices as they were |
| Factorization.Nudge | Data/recommendation.py:110-111 | a step with zero residual changes nothing; with a positive rate and factor it moves the value up for a positive residual and down for a negative one |
| Factorization.Descend | Data/recommendation.py:109-111 | the inner loop keeps the matrix shapes and the running error |
| Factorization.DescendCustomerAt | Data/recommendation.py:109-111 | after features 0..k-1, `customers_mat[c, j]` has moved once along the old offer factor; every other customer entry is unchanged |
| Factorization.DescendOfferAt | Data/recommendation.py:109-111 | after features 0..k-1, `offer_mat[j, o]` has moved once along the new customer factor; every other offer entry is unchanged |
| Factorization.DescendEffect | Data/recommendation.py:109-111 | the whole effect of one cell's inner loop: row c and column o move as the source's two updates say; all else is kept |
| Factorization.SequentialOfferUpdate | Data/recommendation.py:110-111 | the offer update is O + g·C + g²·O with g = 2·lr·diff: the sequential order adds the g² term |
| Factorization.Visit | Data/recommendation.py:99-111 | a visit keeps the shapes and never lowers the running squared error; at a missing cell it changes nothing |
| Factorization.VisitAccumulates | Data/recommendation.py:99-106 | a present cell adds its squared residual to sse_accum; a missing cell adds nothing |
| Factorization.VisitLocal | Data/recommendation.py:99-111 | a visit changes only row c of customers_mat and column o of offer_mat |
| Factorization.RowSweep | Data/recommendation.py:96-111 | sweeping a row keeps the shapes and never lowers the running error |
| Factorization.Sweep | Data/recommendation.py:95-111 | sweeping rows keeps the shapes and never lowers the running error |
| Factorization.Pass | Data/recommendation.py:91-111 | an iteration's error is non-negative |
| Factorization.DescendIgnoresError | Data/recommendation.py:109-111 | the inner loop moves the factors the same whatever the running error, and carries the error through |
| Factorization.VisitShift | Data/recommendation.py:99-106 | starting a visit with more error ends it with that much more error and the same factors |
| Factorization.RowSweepShift | Data/recommendation.py:96-111 | the same for a sweep over a row |
| Factorization.SweepShift | Data/recommendation.py:95-111 | the same for a sweep over the whole matrix |
| Factorization.PassRestarts | Data/recommendation.py:91-111 | sse_accum restarts at 0 each iteration: the error the previous iteration left changes nothing, and a pass reports only the error its own sweep adds |
| Factorization.Train | Data/recommendation.py:88-111 | iterations keep the shapes, and after at least one the error is non-negative |
| Factorization.History | Data/recommendation.py:88-119 | one recorded error per iteration: entry i is the error of iteration i+1 |
| Factorization.MeanErrors | Data/recommendation.py:114-119 | one MSE per iteration, each the iteration's error divided by n_PB |
| Factorization.RowSweepKeepsMissing | Data/recommendation.py:96-111 | sweeping a row leaves alone customers and offers with no present cell |
| Factorization.SweepKeepsMissing | Data/recommendation.py:95-111 | sweeping rows leaves alone customers and offers with no present cell |
| Factorization.TrainKeepsMissing | Data/recommendation.py:88-111 | over any number of iterations, a customer or offer with no present cell keeps its random initial factors |
| Factorization.RowSweepAllMissing | Data/recommendation.py:96-99 | with no present cell anywhere, a row sweep changes nothing |
| Factorization.SweepAllMissing | Data/recommendation.py:95-99 | with no present cell anywhere, a pass changes nothing |
| Factorization.Product | Data/recommendation.py:136 | `np.dot(customers_mat, offer_mat)` is n × m, and each cell is its row-column dot product |
| Recommendation.PyIndex | Data/recommendation.py:145 | a Python row index is valid iff -n ≤ c < n; a negative index counts from the end |
| Recommendation.AboveIndices | Data/recommendation.py:145-147 | exactly the positions scoring above the threshold, strictly ascending |
| Recommendation.Recommended | Data/recommendation.py:141-149 | the list is no longer than the row |
| Recommendation.RecommendedStep | Data/recommendation.py:145-147 | one more score appends that position's label exactly when the score is above the threshold |
| Recommendation.RecommendedMembership | Data/recommendation.py:145-147 | `offer_<i>` is listed iff position i exists and scores above the threshold |
| Recommendation.RecommendedDistinct | Data/recommendation.py:145-147 | no offer is listed twice |
| Recommendation.RecommendedAntitone | Data/recommendation.py:146 | raising the threshold can only drop offers |
| Recommendation.RecommendedNamesColumns | Data/recommendation.py:145-147 | when the columns are offer_0..offer_{m-1}, a column is listed iff its score is above the threshold |
| Recommendation.DotAtIsDot | Data/recommendation.py:103 | the dot product read from the arrays equals the dot product of the matrices they hold |
| Recommendation.UpdateCell | Data/recommendation.py:109-111 | the in-place feature loop leaves the arrays holding the factors of `Descend` |
| Recommendation.VisitCell | Data/recommendation.py:99-111 | the in-place cell visit leaves the arrays and sse_accum as `Visit` says |
| Recommendation.VisitRow | Data/recommendation.py:96-111 | the in-place loop over offers leaves the arrays and sse_accum as `RowSweep` says |
| Recommendation.RunPass | Data/recommendation.py:91-111 | the in-place iteration leaves the arrays and sse_accum as `Pass` says |
| Recommendation.Optimize | Data/recommendation.py:88-119 | succeeds iff iters = 0 or n_PB > 0, else division by zero; on success the arrays hold `Train` and the MSE list is `MeanErrors` of `History` |
| Recommendation.BuildPivot | Data/recommendation.py:48-69 | fresh arrays holding the pivot scores and mask, of the label sizes, and n_PB = number of training keys |
| Recommendation.TrainFactors | Data/recommendation.py:73-119 | fresh, distinct factor arrays trained from the drawn matrices, with the same outcome as `Optimize` |
| Recommendation.Predictions | Data/recommendation.py:136 | a fresh n × m array holding `Product` of the two factor matrices |
| Recommendation.RowAt | Data/recommendation.py:138 | `preds_mat[c]` is row c of the matrix the array holds |
| Recommendation.Compare | Data/recommendation.py:136-138 | fresh predictions holding `Product`; a customer id that is not a row label fails (KeyError); else the customer's row at a valid Python index, or an index error |
| Recommendation.FitProblem | Data/recommendation.py:48-61 | the pivot's score matrix and mask have the label sizes |
| Recommendation.Recommender.constructor | Data/recommendation.py:11-12 | a new recommender has no data, no factors and no predictions |
| Recommendation.Recommender.LoadData | Data/recommendation.py:15-20 | df_score is set to the given rows and returned |
| Recommendation.Recommender.Fit | Data/recommendation.py:42-132 | without loaded data it fails and changes nothing; otherwise `Fitted`: split, hyperparameters, pivot, n_PB and the trained factors; a failed descent keeps the old factors |
| Recommendation.Recommender.FitLoaded | Data/recommendation.py:44-132 | on loaded data `fit` reaches `Fitted`; the factors are fresh on success and unchanged on failure |
| Recommendation.Recommender.SetSplit | Data/recommendation.py:44-56 | train and test are the two tables of `split_train_test`, and the hyperparameters are stored |
| Recommendation.Recommender.SetPivotAndFactors | Data/recommendation.py:48-132 | the pivot is built (`PivotDone`), then the factors are trained (`Trained`) |
| Recommendation.Recommender.SetPivot | Data/recommendation.py:48-69 | matrix, mask, shape and n_PB are those of the pivot of the training table |
| Recommendation.Recommender.SetFactors | Data/recommendation.py:73-132 | success iff iters = 0 or n_PB > 0; then the stored factors are the trained ones and the MSE list is recorded |
| Recommendation.Recommender.MakeComparison | Data/recommendation.py:135-138 | fails before `fit`; otherwise preds_mat holds the product of the factors, even when the call then fails; an id that is not a row label of `df_recs` fails (KeyError); else the row at that position is returned, or an index error |
| Recommendation.Recommender.Recommend | Data/recommendation.py:141-149 | fails before `make_comparison` or at an invalid index; otherwise it returns `Recommended` of the customer's predicted row |

## Left out

- The I/O is not modelled: reading the JSON, CSV and SQLite files, `self.df` in `load_data`, `save_data`, the merges of `load_data`, and all printing and plotting. The model receives the rows as parameters.
- Randomness is not modelled. `np.random.choice` (training indices) and `np.random.rand` (initial factors) are parameters. `Partition.IsSample` states what sampling without replacement guarantees. `Recommender.Fit` requires the drawn count to be `int(np.round(total * 0.9))`, computed exactly with ties to even (`Partition.TrainingSize`).
- Recommendation.Recommender.Fit: returns the per-iteration MSE list (`plt_sse`). The source only plots that list and `fit` returns None; the plot is not modelled.
- Floating point is not modelled: scores, factors and errors are exact reals.
- Rounding is not modelled: `np.round(PB_score, 2)` in `PB_score`, and `np.round(..., 2)` of the recorded MSE.
- Engagement.GroupScore: requires a group with at least one received offer, like `Engagement.PBScore` (next line). The source scores every group; for a group with views or completions but no receipt, numpy's division by zero gives `inf`, and that case is not modelled.
- Engagement.PBScore: requires a received count above zero. The source divides by `9 * n_received`, which is zero for a group with views or completions but no receipt; that case is not modelled.
- Cleaning.CleanRowOf: the source writes the string `'NaN'` in place of age 118, in a numeric column. The model writes a missing age.
- The rest of `clean_data` is not modelled: `became_member_on` to year, the dropped columns, and the version in `create_df_score.py` that builds the score table from pandas dummies. `Engagement.Tally` models the event sums it uses.
- pandas' sort order of the `groupby`/`unstack` labels is not modelled. `Recommender.Fit` takes the pivot's row and column labels as parameters and requires only that they are distinct and cover the training keys (`Pivot.Labels`). `Pivot.EveryRowHasCell` and `Pivot.EveryColumnHasCell` state what the labels that unstack actually produces add.
- Recommendation.Recommender.MakeComparison: models the lookup `df_recs.loc[customer_id]` only as its success or KeyError; the printed rows are not modelled. The predicted row is returned instead of printed rounded.
- Recommendation.Compare: like `MakeComparison`, keeps only the success or KeyError of the `df_recs` lookup, not the printed actual row.
- The source uses `customer_id` as a row label at Data/recommendation.py:137 but as a row position at lines 138 and 145. The model keeps both readings: `MakeComparison` checks the label, then `PyIndex` takes the position. They pick the same customer only when the labels are 0, 1, 2, ... in order.
- Default arguments are not modelled: `fit(latent_features=10, learning_rate=0.0001, iters=250)` and `recommend(..., average_score=5.67)`. `Recommender.Fit` and `Recommender.Recommend` take every value as a parameter.
- Cleaning.OfferNumbers: labels row i as `offer_<i>`. The source uses `portfolio.index[i]`, which is `i` for the default index `read_json` gives the portfolio; other indexes are not modelled.
- Recommendation.Recommender.Recommend: indexes `preds_mat` with a Python integer index (`PyIndex`); numpy's other index forms are not modelled.
- `DataFrame` mutation in place (`drop(..., inplace=True)`, column assignment) is modelled as returning new values.

## Findings

| source | as written | input that shows it | evidently intended | confidence | as-written member | corrected member |
|---|---|---|---|---|---|---|
| Data/create_df_score.py:11-43 and Data/process_data.py:10-42 | `lst_offer`, `lst_reward` and `lst_amount` are assigned only inside the loop body, so the `return` reads unbound names when the input is empty (UnboundLocalError) | an empty `value` column, `all_values = []` | three empty columns | not executed | ValueSplit.SplitValues | ValueSplit.Split |

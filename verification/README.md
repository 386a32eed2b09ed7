# PredictBidSucsRate in Dafny

PredictBidSucsRate predicts the outcome of public procurement bids. It tokenizes three
texts of a bid notice with a Korean morphological analyser (Kiwi) and turns each into
a TF-IDF score. Three regressors then predict three quantities:

- the bidder's rate (`업체투찰률`);
- the planned-price rate (`예가투찰률`);
- the number of bidders (`참여업체수`).

Around that core sit deterministic rules:

- five price samples around a prediction;
- the award-band verdicts `결과1`/`결과2` (`낙찰`, `낙찰하한선미달` or `-`);
- derived amounts and the `A값여부` flag;
- feature-engineering column transforms, with presence guards;
- the training script's bookkeeping: bid-type detection, column lists, index selection,
  test-ratio buckets, result file names, and the Excel statistics block;
- the clamping conversions applied before rows are stored in SQL Server;
- a small listener/receiver message dispatcher.

This project models those rules and proves what they promise. Foreign pieces are
parameters of the model: the tokenizer, the vectorizer, the scaler, the regressors,
`log1p`, the pandas reductions, Python's `hash`, `str`/`float` of a cell, and the clock.

## Layout

| module (file) | models |
|---|---|
| `Wrappers` (wrappers.dfy) | `Option` and `Result` |
| `Floats` (floats.dfy) | finite/NaN/infinite values with pandas comparison rules, on exact reals |
| `Text` (text.dfy) | `str.replace`, `lower` on ASCII letters, `re.findall(r'\d+')` on ASCII digits, `split`, `str(n)`, `int(digits)` |
| `Frames` (frames.dfy) | a pandas frame: the `Table` value, and the `DataFrame` class updated in place by `df[c] = …` and `df.insert` |
| `ColumnMath` (column_math.dfy) | element-wise column arithmetic |
| `TextScorer` (text_scorer.dfy) | `KiwiVectorizer.toValues/scores/score` over a CSR matrix |
| `KiwiTokens` (tokens.dfy) | `KiwiTokenizer.cleared_line/cleared_lines_from/nn_only/get_key/conv_words` |
| `Outcome` (outcome.dfy) | the verdict classification, the two flag rules, the derived amounts |
| `BidPredict` (bid_predict.dfy) | `WinningPriceSamples`, `convertScore`, `PredictWinningPriceOfBidding`, the amounts of `Predict` |
| `InteractionFeatures`, `RatioFeatures`, `TextFeatures`, `StatisticalFeatures`, `TimeFeatures` | the `create_*` transforms of `AdvancedFeatureEngineering` |
| `TrainSetup` (train_setup.dfy) | the trainer's column bookkeeping, buckets and file name; class `Trainer` |
| `ResultFrame` (result_frame.dfy) | `make_result_dataframe2` shared by the training scripts |
| `ExcelLayout`, `ResultStatistics` | `index_to_excel_column` and the statistics blocks of the three scripts |
| `GbScript`, `ImprovedModel` | what differs in the gradient-boosting and evaluation scripts |
| `SamplePredictor` (sample_predictor.dfy) | `SampleDataPredictor.preprocess_data/predict_data` |
| `DbSanitize` (db_sanitize.dfy) | `safe_decimal`, `safe_int` and the 25-field row of `_prepare_row_data` |
| `MessageDispatch` (message_dispatcher.dfy) | `BaseDispatcher`, `Telegram`, `MessageDispatcher` as classes |

Where the documentation and the code disagree, the model follows the code:

- `_detect_bid_type`'s docstring asks for all three construction columns. The code
  accepts two (bid.ml.train.py:496).
- `addResultStatistics`' docstring places the construction verdicts in AD/AG. The
  code spells them AB/AE; see Findings.

## Model

| member | source | states |
|---|---|---|
| TextScorer.ToValues | PredictBidSucsRate/bid.ml.predict.py:370-400 | one value per CSR row (len(indptr) - 1 values), value `i` being the sum of index·weight over the row's entries; the same code is at PredictBidSucsRate/bid.ml.train.py:221-231, PredictBidSucsRate/bid.ml.train.gb.py:248-260, PredictBidSucsRate/test_improved_model.py:142-153 and PredictBidSucsRate/predict_sample_data.py:127-138 |
| TextScorer.Score | PredictBidSucsRate/bid.ml.predict.py:358-368 | the score of a line is the row score of row 0 of the vectorised `[line]` |
| TextScorer.Scores | PredictBidSucsRate/bid.ml.predict.py:346-356 | one score per vectorised row, each that row's sum |
| TextScorer.RangeSplit | PredictBidSucsRate/bid.ml.predict.py:389-399 | the entry sum over a range is the sum over any split of it |
| TextScorer.RangeSumAgrees | PredictBidSucsRate/bid.ml.predict.py:389-399 | the sum depends only on the entries of the range |
| TextScorer.EmptyRowScoresZero | PredictBidSucsRate/bid.ml.predict.py:389-399 | a row with no stored entry (no known term) scores 0 |
| TextScorer.ColumnZeroAddsNothing | PredictBidSucsRate/bid.ml.predict.py:393-397 | an entry in vocabulary column 0 adds nothing, whatever its weight |
| TextScorer.RangeSumNonNegative | PredictBidSucsRate/bid.ml.predict.py:389-399 | non-negative indices and weights give a non-negative score |
| TextScorer.EntryOrderIrrelevant | PredictBidSucsRate/bid.ml.predict.py:389-399 | swapping two entries inside one row changes no score |
| TextScorer.SwapInsideRange | PredictBidSucsRate/bid.ml.predict.py:389-399 | swapping two neighbouring entries keeps a range sum |
| TextScorer.ScoreDependsOnVocabularyLayout | PredictBidSucsRate/bid.ml.predict.py:393-397 | the same weight scores differently in columns 1 and 3, and scores exceed 1 |
| KiwiTokens.ClearedLine | PredictBidSucsRate/bid.ml.predict.py:145-175 | the cleaned line of a cell is the space-join of the allow-listed forms of its normalised text |
| KiwiTokens.ClearedLinesFrom | PredictBidSucsRate/bid.ml.predict.py:177-191 | one cleaned line per input line, in order |
| KiwiTokens.NnOnly | PredictBidSucsRate/bid.ml.predict.py:231-259 | one line per input; line `i` is the cleaned line of input `i`; the same code is at PredictBidSucsRate/test_improved_model.py:92-107, PredictBidSucsRate/predict_sample_data.py:75-90, PredictBidSucsRate/bid.ml.train.py:163-181 and PredictBidSucsRate/bid.ml.train.gb.py:191-209 |
| KiwiTokens.NormalizedTextIsClean | PredictBidSucsRate/bid.ml.predict.py:241-247 | no parenthesis and no ASCII capital reaches the analyser |
| KiwiTokens.MissingCellGivesEmptyLine | PredictBidSucsRate/bid.ml.predict.py:241-244 | a NaN/None cell yields `''` when the analyser finds nothing in empty text |
| KiwiTokens.KeptFormsAppend | PredictBidSucsRate/bid.ml.predict.py:249-253 | the kept forms of concatenated token lists concatenate |
| KiwiTokens.KeptFormsMembership | PredictBidSucsRate/bid.ml.predict.py:249-253 | a form is kept iff some token carries it with one of the ten allowed tags |
| KiwiTokens.GetKey | PredictBidSucsRate/bid.ml.predict.py:193-209 | the key of the first entry whose value matches, or the sentinel `"key doesn't exist"` |
| KiwiTokens.FirstKeyIsEarliest | PredictBidSucsRate/bid.ml.predict.py:193-209 | the found key is exactly the earliest entry holding the value |
| KiwiTokens.ConvWords | PredictBidSucsRate/bid.ml.predict.py:211-228 | every matching key of every value, value by value, joined by spaces |
| KiwiTokens.KeysOfMembership | PredictBidSucsRate/bid.ml.predict.py:211-228 | a key is listed for a value iff the dictionary maps it to that value |
| Text.ReplaceDrawsFrom | PredictBidSucsRate/bid.ml.predict.py:241-247 | every character of a replacement result comes from the input or the replacement |
| Text.ReplaceRemovesChar | PredictBidSucsRate/bid.ml.predict.py:241-247 | replacing `(` or `)` by a space removes it entirely |
| Text.ReplaceIsSinglePass | PredictBidSucsRate/bid.ml.predict.py:241-247 | `"nn/a/a".replace("n/a", "")` is `"n/a"`: removing `n/a` can leave an `n/a` |
| Text.Lower | PredictBidSucsRate/bid.ml.predict.py:241-247 | same length; every ASCII capital becomes its small letter and every other character, non-ASCII capitals included, is kept |
| Text.LeadingDigits | PredictBidSucsRate/advanced_feature_engineering.py:112 | the maximal run of ASCII digits at the front |
| Text.DigitRunsFront | PredictBidSucsRate/advanced_feature_engineering.py:112 | an ASCII digit run followed by a non-digit is found whole, before the runs of the rest |
| Text.NatToStringRoundTrip | PredictBidSucsRate/bid.ml.train.py:673-678 | parsing `str(n)` gives `n` back |
| Text.ZeroPad2 | PredictBidSucsRate/bid.ml.train.py:675 | `f"{n:02d}"` has at least two digits and denotes `n` |
| Floats.Trichotomy | PredictBidSucsRate/bid.ml.train.py:716-728 | on non-NaN values exactly one of <, == and > holds |
| Floats.GeIsNotLt | PredictBidSucsRate/bid.ml.train.py:712 | `>=` implies not `<`, and they are complementary without NaN |
| Floats.MulDivCancel | PredictBidSucsRate/advanced_feature_engineering.py:82 | `(b*r)/b` is `r` for finite non-zero `b` and NaN for `b == 0` |
| ColumnMath.ProductCells | PredictBidSucsRate/advanced_feature_engineering.py:44-63 | `a * b` is commutative, NaN in either operand gives NaN, finite cells multiply as reals |
| ColumnMath.QuotientUndoesProduct | PredictBidSucsRate/bid.ml.train.py:705-709 | dividing `b * a` by a finite non-zero `b` gives back a finite `a` |
| ColumnMath.QuotientByZero | PredictBidSucsRate/bid.ml.train.py:705-709 | a zero divisor never raises: NaN for 0 or NaN, a signed infinity for any other finite value, an infinity kept |
| ColumnMath.MinusScalarCells | PredictBidSucsRate/advanced_feature_engineering.py:305-306 | a finite scalar shifts finite cells and keeps NaN and infinities; `a - 0` is `a`; a NaN scalar gives NaN everywhere |
| ColumnMath.OverScalarCells | PredictBidSucsRate/advanced_feature_engineering.py:308-310 | a finite non-zero scalar divides finite cells, keeps NaN, flips an infinity for a negative scalar; `a / 1` is `a` |
| ColumnMath.ApplyRowwise | PredictBidSucsRate/advanced_feature_engineering.py:86-90 | a cell-wise function distributes over joined rows and composes |
| BidPredict.Round | PredictBidSucsRate/bid.ml.predict.py:506 | `round(x, 0)`: within 0.5 of `x`, ties to even |
| BidPredict.RoundMonotone | PredictBidSucsRate/bid.ml.predict.py:506 | rounding never reverses order |
| BidPredict.RoundWhole | PredictBidSucsRate/bid.ml.predict.py:506 | whole numbers round to themselves |
| BidPredict.Samples | PredictBidSucsRate/bid.ml.predict.py:500-509 | one sample per coefficient |
| BidPredict.WinningPriceSamples | PredictBidSucsRate/bid.ml.predict.py:484-509 | exactly 5 prices; price `k` is `round(bssamt·(a + diffrt·c_k))` for coefficients 1, 0.5, 0, -0.5, -1 |
| BidPredict.CoefficientsDescend | PredictBidSucsRate/bid.ml.predict.py:501 | the coefficients strictly decrease |
| BidPredict.SampleMonotone | PredictBidSucsRate/bid.ml.predict.py:506 | with bssamt ≥ 0 and diffrt ≥ 0 a larger coefficient never gives a smaller sample |
| BidPredict.SamplesDescend | PredictBidSucsRate/bid.ml.predict.py:501-506 | the five samples are non-increasing and the middle one is `round(bssamt·a)` |
| BidPredict.SamplesCollapse | PredictBidSucsRate/bid.ml.predict.py:501-506 | a zero difference rate makes all five samples `round(bssamt·a)` |
| BidPredict.ConvertScore | PredictBidSucsRate/bid.ml.predict.py:512-529 | the score is row 0's score of the vectorised cleaned line |
| BidPredict.Converted | PredictBidSucsRate/bid.ml.predict.py:552-574 | the nine parameters become nine cells in `required_columns` order |
| BidPredict.NoUnderscoreInInputs | PredictBidSucsRate/bid.ml.predict.py:564-574 | no parameter or text column name has an underscore, so no transform writes one |
| BidPredict.UnderscoreInDerived | PredictBidSucsRate/advanced_feature_engineering.py:31-93 | every interaction and ratio output name has an underscore |
| BidPredict.InteractionCarries | PredictBidSucsRate/bid.ml.predict.py:577 | the interaction transform keeps every parameter column |
| BidPredict.RatioCarries | PredictBidSucsRate/bid.ml.predict.py:578 | the ratio transform keeps every parameter column |
| BidPredict.CategoricalCarries | PredictBidSucsRate/bid.ml.predict.py:579 | the categorical transform keeps every parameter column |
| BidPredict.StatisticalCarries | PredictBidSucsRate/bid.ml.predict.py:580 | the statistical transform keeps every parameter column |
| BidPredict.Enhanced | PredictBidSucsRate/bid.ml.predict.py:577-580 | after the four transforms every parameter column still holds its parameter |
| BidPredict.FilledCarries | PredictBidSucsRate/bid.ml.predict.py:583 | after `fillna(0)` each parameter column holds its parameter, NaN replaced by 0 |
| BidPredict.ScalerInput | PredictBidSucsRate/bid.ml.predict.py:583-590 | the scaler sees exactly the nine parameters in `required_columns` order, NaN set to 0 |
| BidPredict.FilledRow | PredictBidSucsRate/bid.ml.predict.py:583-590 | row 0 of the filled selection is that vector |
| BidPredict.ProjectedSingleRow | PredictBidSucsRate/bid.ml.predict.py:587-590 | selecting listed one-row columns keeps each column's cell |
| BidPredict.ScalerInputOfNumbers | PredictBidSucsRate/bid.ml.predict.py:583-590 | without NaN parameters the scaler input is the parameters themselves |
| BidPredict.PredictWinningPriceOfBidding | PredictBidSucsRate/bid.ml.predict.py:532-606 | returns `[model1, model2, model3]` applied to the scaled nine-parameter vector |
| BidPredict.Answer | PredictBidSucsRate/bid.ml.predict.py:722-738 | 10 prices, the bidder-rate samples then the planned-rate samples; `comPredictedAmt` is `prices[2]` and `planPredictedAmt` is `prices[7]` |
| BidPredict.Predict | PredictBidSucsRate/bid.ml.predict.py:666-738 | the response is `Answer` of the three predictions for the three converted scores |
| Outcome.ClassifyBands | PredictBidSucsRate/bid.ml.train.py:716-728 | `낙찰하한선미달` iff predicted < min; `낙찰` iff min ≤ predicted < actual; `-` iff neither; the same code is at PredictBidSucsRate/bid.ml.train.gb.py:451-461 and PredictBidSucsRate/test_improved_model.py:311-321 |
| Outcome.ClassifyBoundaries | PredictBidSucsRate/bid.ml.train.py:738-750 | predicted == min is `낙찰` when min < actual; predicted == actual is never `낙찰` |
| Outcome.NoBandWhenAwardAtFloor | PredictBidSucsRate/bid.ml.train.py:716-728 | when actual ≤ min no prediction is `낙찰` |
| Outcome.MissingIsNotAwarded | PredictBidSucsRate/test_improved_model.py:330-340 | a NaN amount is never `낙찰`; a NaN prediction is `-` |
| Outcome.RateFlag | PredictBidSucsRate/bid.ml.train.py:712 | `O` or `''`: `O` exactly for a finite prediction ≥ 0.8 or +inf; NaN and -inf give `''` |
| Outcome.IndirectCostFlag | PredictBidSucsRate/predict_sample_data.py:360 | `X` iff the indirect cost is 0, `O` otherwise (NaN included) |
| Outcome.FlagRulesDiffer | PredictBidSucsRate/predict_sample_data.py:360 | the two flag rules disagree on concrete rows |
| Outcome.DerivedAmounts | PredictBidSucsRate/bid.ml.train.py:705-734 | for non-zero finite rate, `plan·base/lower` both ways, and the floor amount is `plan·base`; the same code is at PredictBidSucsRate/bid.ml.train.gb.py:440-447 and PredictBidSucsRate/test_improved_model.py:304-308 |
| Outcome.ZeroRateIsNotAwarded | PredictBidSucsRate/bid.ml.train.py:731-750 | a zero rate makes the floor amount NaN and `결과2` `-` |
| InteractionFeatures.AddAmountTerms | PredictBidSucsRate/advanced_feature_engineering.py:44-47 | step 1 keeps the frame readable and its row count |
| InteractionFeatures.AddBidderTerms | PredictBidSucsRate/advanced_feature_engineering.py:50-52 | step 2 keeps the frame readable and its row count |
| InteractionFeatures.AddLicenseTerm | PredictBidSucsRate/advanced_feature_engineering.py:55-56 | step 3 keeps the frame readable and its row count |
| InteractionFeatures.AddPair | PredictBidSucsRate/advanced_feature_engineering.py:59-63 | one pair step keeps the frame readable |
| InteractionFeatures.CreateInteractionFeatures | PredictBidSucsRate/advanced_feature_engineering.py:31-66 | the frame after the in-place assignments is `Interaction` of the old frame |
| InteractionFeatures.Interaction | PredictBidSucsRate/advanced_feature_engineering.py:31-66 | the transform's four steps in order keep the frame readable and its row count |
| InteractionFeatures.AddScorePairs | PredictBidSucsRate/advanced_feature_engineering.py:58-63 | the nested loop over the score pairs, as `PairsUpTo` |
| InteractionFeatures.AddAmountColumns | PredictBidSucsRate/advanced_feature_engineering.py:44-47 | the guarded amount assignments |
| InteractionFeatures.AddBidderColumns | PredictBidSucsRate/advanced_feature_engineering.py:50-52 | the guarded bidder assignments |
| InteractionFeatures.AddLicenseColumn | PredictBidSucsRate/advanced_feature_engineering.py:55-56 | the guarded licence assignment |
| InteractionFeatures.PairsKeep | PredictBidSucsRate/advanced_feature_engineering.py:59-63 | the pair loop changes nothing but the three pair columns |
| InteractionFeatures.InteractionKeepsOtherColumns | PredictBidSucsRate/advanced_feature_engineering.py:31-66 | every non-derived column, inputs included, keeps presence and content; old columns stay first in order |
| InteractionFeatures.InputsAreNotOutputs | PredictBidSucsRate/advanced_feature_engineering.py:31-66 | no column the transform reads is one it writes |
| InteractionFeatures.AmountTermsGuarded | PredictBidSucsRate/advanced_feature_engineering.py:44-47 | the three amount terms exist iff amount and rate are present, and then hold the product and the squares |
| InteractionFeatures.BidderTermsGuarded | PredictBidSucsRate/advanced_feature_engineering.py:50-52 | the two bidder terms exist iff bidder count and amount are present, with their values |
| InteractionFeatures.ScorePairGuarded | PredictBidSucsRate/advanced_feature_engineering.py:59-63 | `{col_i}_{col_j}` exists iff both score columns are present, and holds their product |
| InteractionFeatures.PairNamesDistinct | PredictBidSucsRate/advanced_feature_engineering.py:63 | the three pair names differ |
| RatioFeatures.AddRateRatio | PredictBidSucsRate/advanced_feature_engineering.py:81-82 | keeps the frame readable and the row count |
| RatioFeatures.Ratio | PredictBidSucsRate/advanced_feature_engineering.py:68-93 | keeps the frame readable and the row count |
| RatioFeatures.CreateRatioFeatures | PredictBidSucsRate/advanced_feature_engineering.py:68-93 | the in-place result is `Ratio` of the old frame |
| RatioFeatures.RatioKeepsOtherColumns | PredictBidSucsRate/advanced_feature_engineering.py:68-93 | non-derived columns keep presence, content and order |
| RatioFeatures.RatioGuards | PredictBidSucsRate/advanced_feature_engineering.py:81-90 | each derived column exists iff its inputs are present |
| RatioFeatures.RatioIsRedundant | PredictBidSucsRate/advanced_feature_engineering.py:81-82 | `낙찰하한가_비율` equals `낙찰하한률` on every row with a finite non-zero amount |
| TextFeatures.LengthColumn | PredictBidSucsRate/advanced_feature_engineering.py:236 | each cell is the length of `str` of the text |
| TextFeatures.ZeroToOne | PredictBidSucsRate/advanced_feature_engineering.py:247 | `replace(0, 1)`: 0 becomes 1, the rest is kept |
| TextFeatures.SetDerived | PredictBidSucsRate/advanced_feature_engineering.py:233-248 | a statistic write keeps the frame readable and touches no text column |
| TextFeatures.AssignStat | PredictBidSucsRate/advanced_feature_engineering.py:233-248 | the in-place write is `SetDerived` |
| TextFeatures.LengthReadBack | PredictBidSucsRate/advanced_feature_engineering.py:236-247 | the ratio reads back the length column written for the same text |
| TextFeatures.AddTextStatsColumns | PredictBidSucsRate/advanced_feature_engineering.py:233-248 | the five in-place writes are `AddTextStats` |
| TextFeatures.CreateCategoricalFeatures | PredictBidSucsRate/advanced_feature_engineering.py:219-251 | the in-place result is `Categorical` of the old frame |
| TextFeatures.Categorical | PredictBidSucsRate/advanced_feature_engineering.py:219-251 | the loop over the three text columns keeps the frame readable and its row count |
| TextFeatures.CreateTextAdvancedFeatures | PredictBidSucsRate/advanced_feature_engineering.py:253-285 | the same statistics as the categorical transform |
| TextFeatures.DerivedNotText | PredictBidSucsRate/advanced_feature_engineering.py:233-248 | no derived name is a text column |
| TextFeatures.CategoricalKeeps | PredictBidSucsRate/advanced_feature_engineering.py:219-251 | non-derived columns, texts included, keep presence, content and order |
| TextFeatures.UpperRatioBounds | PredictBidSucsRate/advanced_feature_engineering.py:247 | the upper-case ratio lies in [0, 1], and empty text gives 0 |
| TextFeatures.RatioColumnCells | PredictBidSucsRate/advanced_feature_engineering.py:247 | each cell of the ratio column is the ratio of its text |
| TextFeatures.TextStatAdded | PredictBidSucsRate/advanced_feature_engineering.py:233-248 | for a present text: length, word count, special characters, digits and upper-case ratio are added |
| TextFeatures.UpperRatioColumnInRange | PredictBidSucsRate/advanced_feature_engineering.py:247 | every ratio cell is finite in [0, 1], 0 for empty text |
| TextFeatures.SuffixesDistinct | PredictBidSucsRate/advanced_feature_engineering.py:236-247 | the five derived names of a text differ |
| StatisticalFeatures.NumericNames | PredictBidSucsRate/advanced_feature_engineering.py:300 | the snapshot lists exactly the numeric columns |
| StatisticalFeatures.StatStep | PredictBidSucsRate/advanced_feature_engineering.py:302-318 | one column's step keeps the rows, every column, and numeric columns numeric |
| StatisticalFeatures.Statistical | PredictBidSucsRate/advanced_feature_engineering.py:287-321 | the same growth over the whole loop |
| StatisticalFeatures.AddStatColumns | PredictBidSucsRate/advanced_feature_engineering.py:302-318 | the in-place writes for one column are `StatStep` |
| StatisticalFeatures.CreateStatisticalFeatures | PredictBidSucsRate/advanced_feature_engineering.py:287-321 | the in-place result is `Statistical`, over the snapshot taken at entry |
| StatisticalFeatures.DerivedNamesDistinct | PredictBidSucsRate/advanced_feature_engineering.py:305-318 | the four derived names differ from the column and each other |
| StatisticalFeatures.StatStepKeeps | PredictBidSucsRate/advanced_feature_engineering.py:302-318 | a step writes only its column's four derived names |
| StatisticalFeatures.StatStepGuards | PredictBidSucsRate/advanced_feature_engineering.py:305-318 | the distances are always added; `_zscore` iff std > 0; `_iqr_위치` iff q3 > q1 |
| StatisticalFeatures.StatStepAddsDistances | PredictBidSucsRate/advanced_feature_engineering.py:305-313 | the mean and median distances are always present after a step |
| StatisticalFeatures.StatisticalKeepsOtherColumns | PredictBidSucsRate/advanced_feature_engineering.py:287-321 | a column that is no derived name keeps presence and content |
| StatisticalFeatures.StatisticalAddsDistances | PredictBidSucsRate/advanced_feature_engineering.py:300-313 | every numeric input column gets its mean and median distances |
| StatisticalFeatures.FiniteSum | PredictBidSucsRate/advanced_feature_engineering.py:306 | on finite cells the skip-NaN sum is finite and counts every cell |
| StatisticalFeatures.ShiftedSum | PredictBidSucsRate/advanced_feature_engineering.py:306 | subtracting `m` lowers the sum by `n·m` |
| StatisticalFeatures.MeanDeviationsSumToZero | PredictBidSucsRate/advanced_feature_engineering.py:306 | the `_평균차이` cells of a finite column sum to 0 |
| TimeFeatures.ExtractDateFromBidNumber | PredictBidSucsRate/advanced_feature_engineering.py:109-122 | the loop with early returns computes `ExtractDate` |
| TimeFeatures.ExtractDates | PredictBidSucsRate/advanced_feature_engineering.py:124 | the date of each bid number, row by row |
| TimeFeatures.DayOfWeek | PredictBidSucsRate/advanced_feature_engineering.py:129 | a weekday in 0..6 |
| TimeFeatures.DatePart | PredictBidSucsRate/advanced_feature_engineering.py:127-132 | each cell is the date's field, NaN for no date |
| TimeFeatures.SeasonColumn | PredictBidSucsRate/advanced_feature_engineering.py:135-141 | each cell is the season of its month |
| TimeFeatures.AddCalendar | PredictBidSucsRate/advanced_feature_engineering.py:127-142 | adds exactly the seven calendar columns and keeps every other |
| TimeFeatures.BidDates | PredictBidSucsRate/advanced_feature_engineering.py:124 | the date of every bid number |
| TimeFeatures.TimeFeatures | PredictBidSucsRate/advanced_feature_engineering.py:95-145 | a well-formed frame with the same rows |
| TimeFeatures.CreateTimeFeatures | PredictBidSucsRate/advanced_feature_engineering.py:95-145 | the in-place result is `TimeFeatures` of the old frame |
| TimeFeatures.AddCalendarColumns | PredictBidSucsRate/advanced_feature_engineering.py:127-142 | the in-place writes are `AddCalendar` |
| TimeFeatures.ScanStopsAtFirstCandidate | PredictBidSucsRate/advanced_feature_engineering.py:112-122 | the first run of ≥ 8 digits passing the range test decides: its date, or None if not a calendar date |
| TimeFeatures.ScanWithoutCandidate | PredictBidSucsRate/advanced_feature_engineering.py:112-122 | no candidate run gives None |
| TimeFeatures.ScanFound | PredictBidSucsRate/advanced_feature_engineering.py:112-122 | a found date comes from the first candidate and is a calendar date of 2020–2030 |
| TimeFeatures.ExtractDateExample | PredictBidSucsRate/advanced_feature_engineering.py:429 | `20241201001` gives 2024-12-01 |
| TimeFeatures.DayOfWeekExample | PredictBidSucsRate/advanced_feature_engineering.py:129 | 2024-12-01 is a Sunday (6) |
| TimeFeatures.ExtractDateAborts | PredictBidSucsRate/advanced_feature_engineering.py:116-121 | a range-passing impossible date (2023-02-30) ends the scan before a later valid run |
| TimeFeatures.QuarterRange | PredictBidSucsRate/advanced_feature_engineering.py:131 | quarters are 1..4, quarter 1 iff month ≤ 3 |
| TimeFeatures.SeasonOfMonth | PredictBidSucsRate/advanced_feature_engineering.py:135-142 | months 3–5 → 1, 6–8 → 2, 9–11 → 3, otherwise 4 |
| TimeFeatures.MissingMonthIsWinter | PredictBidSucsRate/advanced_feature_engineering.py:135-142 | a NaN month is winter, season 4 |
| TimeFeatures.NoBidNumberNoChange | PredictBidSucsRate/advanced_feature_engineering.py:106 | without `입찰번호` the frame is unchanged |
| TimeFeatures.CalendarColumnsGuard | PredictBidSucsRate/advanced_feature_engineering.py:124-127 | a calendar column is added iff some bid number yields a date |
| TimeFeatures.CalendarGuard | PredictBidSucsRate/advanced_feature_engineering.py:127 | the calendar step adds its columns iff some date exists |
| TimeFeatures.AnyDateOfBids | PredictBidSucsRate/advanced_feature_engineering.py:124-127 | some date exists iff some bid number yields one |
| TimeFeatures.TimeFeaturesKeeps | PredictBidSucsRate/advanced_feature_engineering.py:95-145 | only the date column and the seven calendar columns are written |
| TrainSetup.CvsColumns | PredictBidSucsRate/bid.ml.train.py:300-343 | 19 base columns, plus the 3 construction columns for `cst` |
| TrainSetup.CvsColumnsDistinct | PredictBidSucsRate/bid.ml.train.py:309-323 | the input columns have no repeats |
| TrainSetup.CvsColumnsLayout | PredictBidSucsRate/bid.ml.train.py:309-340 | 22 or 19 columns, the base ones first |
| TrainSetup.ColumnTypes | PredictBidSucsRate/bid.ml.train.py:345-382 | one type per column, from the mapping or `'str'` |
| TrainSetup.EveryColumnTyped | PredictBidSucsRate/bid.ml.train.py:345-382 | every input column has a declared type |
| TrainSetup.IndexOf | PredictBidSucsRate/bid.ml.train.py:584-589 | `list.index`: the first position of the name |
| TrainSetup.IndexOfDistinct | PredictBidSucsRate/bid.ml.train.py:584-589 | in a list without repeats that is its only position |
| TrainSetup.SpliceAt | PredictBidSucsRate/bid.ml.train.py:414-415 | `s[k:k] = ins` puts `ins` at `k` and shifts the rest |
| TrainSetup.BaseResultFacts | PredictBidSucsRate/bid.ml.train.py:392-411 | 29 base result columns, `결과1` only at 25 and `결과2` only at 28 |
| TrainSetup.CstResultColumns | PredictBidSucsRate/bid.ml.train.py:414-415 | the construction list splices the two cost columns after `참여업체수` |
| TrainSetup.ResultColumnsLayout | PredictBidSucsRate/bid.ml.train.py:384-420 | 29 columns, or 31 with the costs at 5 and 6 and the rest shifted by two |
| TrainSetup.ResultColumnsDistinct | PredictBidSucsRate/bid.ml.train.py:384-420 | the result columns have no repeats |
| TrainSetup.VerdictPositions | PredictBidSucsRate/bid.ml.train.py:384-420 | `결과1`/`결과2` at 25/28, or 27/30 for `cst`, nowhere else |
| TrainSetup.Present | PredictBidSucsRate/bid.ml.train.py:490-496 | the filtered names are exactly those available |
| TrainSetup.PresentAll | PredictBidSucsRate/bid.ml.train.py:596-631 | filtering fully available names keeps the list |
| TrainSetup.PresentDistinct | PredictBidSucsRate/bid.ml.train.py:596-631 | filtering distinct names keeps them distinct |
| TrainSetup.DetectedType | PredictBidSucsRate/bid.ml.train.py:472-507 | `cst` iff at least 2 of the 3 construction columns are present, else `mtrl` |
| TrainSetup.DetectionExamples | PredictBidSucsRate/bid.ml.train.py:496 | two construction columns suffice, one does not, and `gdns` is never detected |
| TrainSetup.MissingDefault | PredictBidSucsRate/bid.ml.train.py:540-551 | 0 for the cost and score columns, `''` for every other missing column |
| TrainSetup.PrepareDatasetX | PredictBidSucsRate/bid.ml.train.py:513-560 | exactly `cvs_columns` in order: present ones as read, missing ones defaulted |
| TrainSetup.PrepareDatasetXValid | PredictBidSucsRate/bid.ml.train.py:513-560 | the prepared frame is well formed |
| TrainSetup.Positions | PredictBidSucsRate/bid.ml.train.py:584-589 | each known name's first index, in name order, unknown names skipped |
| TrainSetup.SelectedColumnIndices | PredictBidSucsRate/bid.ml.train.py:562-594 | the loop computes `Positions` |
| TrainSetup.PositionsOfDistinct | PredictBidSucsRate/bid.ml.train.py:584-589 | without repeats the positions are the only ones naming the features |
| TrainSetup.ConstructionFeaturePositions | PredictBidSucsRate/bid.ml.train.py:562-594 | construction features sit at 0, 1, 2, 19, 20, 11, 14, 16, 18 |
| TrainSetup.OtherFeaturePositions | PredictBidSucsRate/bid.ml.train.py:562-594 | other types' features sit at 0, 1, 2, 11, 14, 16, 18 |
| TrainSetup.ResultSelectedCarries | PredictBidSucsRate/bid.ml.train.py:596-631 | the copy list has the four verdict amounts, and the cost columns exactly for `cst` |
| TrainSetup.TestPercent | PredictBidSucsRate/bid.ml.train.py:798-813 | 20, 15, 10 or 5 percent at the 20000/50000/100000 thresholds; the same code is at PredictBidSucsRate/bid.ml.train.gb.py:526-541 |
| TrainSetup.SplitCounts | PredictBidSucsRate/bid.ml.train.py:810-813 | train + test = data size; the test part is the share rounded up |
| TrainSetup.DataUnit | PredictBidSucsRate/bid.ml.train.py:663-670 | 1, 5, 10 or 30 at the 50000/100000/300000 thresholds; the same code is at PredictBidSucsRate/bid.ml.train.gb.py:391-398 |
| TrainSetup.RatioStrings | PredictBidSucsRate/bid.ml.train.py:673-675 | `8020`, `8515`, `9010`, `9505` |
| TrainSetup.RatioOfTwoDigits | PredictBidSucsRate/bid.ml.train.py:673-675 | the train percentage's two digits, then the test percentage's two |
| TrainSetup.FileNameExample | PredictBidSucsRate/bid.ml.train.py:641-680 | 60000 rows give `result-{time}-5-9010.xlsx` |
| TrainSetup.Trainer.constructor | PredictBidSucsRate/bid.ml.train.py:253-298 | the bid type is set, and the result columns are fixed for it |
| TrainSetup.Trainer.DefineBidTypeColumns | PredictBidSucsRate/bid.ml.train.py:300-343 | the input columns, name and types follow the bid type; the result columns stay |
| TrainSetup.Trainer.DetectBidType | PredictBidSucsRate/bid.ml.train.py:472-507 | the detected type replaces the bid type and the input columns follow it |
| TrainSetup.Trainer.ResolveBidType | PredictBidSucsRate/bid.ml.train.py:787-788 | only an `auto` trainer detects its type; the result columns never change |
| TrainSetup.AutoConstructionKeepsSharedLayout | PredictBidSucsRate/bid.ml.train.py:683-754 | an `auto` trainer detecting `cst` keeps the 29 shared result columns, which lack `간접비` that it copies |
| ResultFrame.Copies | PredictBidSucsRate/bid.ml.train.py:695-696 | each copy is a selected column the test rows have, unchanged |
| ResultFrame.CopiesCover | PredictBidSucsRate/bid.ml.train.py:695-696 | every selected column the test rows have is copied |
| ResultFrame.CopiedColumn | PredictBidSucsRate/bid.ml.train.py:695-696 | after the copy loop such a column holds the test column |
| ResultFrame.CopiedValid | PredictBidSucsRate/bid.ml.train.py:695-696 | the copied frame is well formed with one row per test row |
| ResultFrame.Verdicts | PredictBidSucsRate/bid.ml.train.py:716-750 | on finite amounts a row is `낙찰` exactly when minBid ≤ prediction < actual and `낙찰하한선미달` exactly when prediction < minBid; a NaN prediction is `-` |
| ResultFrame.RateFlags | PredictBidSucsRate/bid.ml.train.py:712 | a row is `O` exactly when its prediction is ≥ 0.8, `''` otherwise |
| ResultFrame.Derived | PredictBidSucsRate/bid.ml.train.py:698-750 | the ten computed columns in order, each with one cell per row |
| ResultFrame.AcceptedFits | PredictBidSucsRate/bid.ml.train.py:695-700 | the copy keeps the four input amounts the rules read |
| ResultFrame.MakeResultDataFrame | PredictBidSucsRate/bid.ml.train.py:683-754 | the frame built column by column is `Result` |
| ResultFrame.CopySelected | PredictBidSucsRate/bid.ml.train.py:695-696 | the copy loop's in-place writes |
| ResultFrame.AddPredictions | PredictBidSucsRate/bid.ml.train.py:698-750 | the ten in-place writes after the copy |
| ResultFrame.AddRates | PredictBidSucsRate/bid.ml.train.py:698-700 | the three prediction writes |
| ResultFrame.AddFirstResult | PredictBidSucsRate/bid.ml.train.py:705-728 | the planned price, the bidder-rate amount, its flag and `결과1` |
| ResultFrame.AddSecondResult | PredictBidSucsRate/bid.ml.train.py:731-750 | the planned price by rate, its floor amount and `결과2` |
| ResultFrame.ComputedDistinct | PredictBidSucsRate/bid.ml.train.py:698-750 | the ten computed names differ |
| ResultFrame.ResultRow | PredictBidSucsRate/bid.ml.train.py:705-750 | each row's flag, both verdicts and planned price follow the per-row rules |
| ResultFrame.ResultKeepsCopied | PredictBidSucsRate/bid.ml.train.py:695-696 | a copied, non-computed column is the test column unchanged |
| ResultFrame.ResultColumnsInOrder | PredictBidSucsRate/bid.ml.train.py:683-754 | when all writes target result columns, the result has exactly them in order |
| ResultFrame.UnfilledColumnsMissing | PredictBidSucsRate/bid.ml.train.py:683-754 | a result column neither copied nor computed is all missing |
| ResultFrame.ResultKeepsLayout | PredictBidSucsRate/bid.ml.train.py:683-754 | the result columns stay first in order; extra copied columns follow them |
| ExcelLayout.Spell | PredictBidSucsRate/bid.ml.train.py:1347-1371 | capital letters only; empty exactly for 0 |
| ExcelLayout.NumberOfSpell | PredictBidSucsRate/bid.ml.train.py:1347-1371 | reading a spelling back gives the number |
| ExcelLayout.SpellOfNumber | PredictBidSucsRate/bid.ml.train.py:1347-1371 | every letter string is the spelling of its number |
| ExcelLayout.SpellInjective | PredictBidSucsRate/bid.ml.train.py:1347-1371 | different numbers have different spellings |
| ExcelLayout.IndexToExcelColumn | PredictBidSucsRate/bid.ml.train.py:1347-1371 | `A` for a negative index, `AB` at 25, `AE` at 28, else the bijective base-26 spelling of index+1 |
| ExcelLayout.SpellExamples | PredictBidSucsRate/bid.ml.train.py:1347-1371 | 1 → A, 26 → Z, 27 → AA, 28 → AB, 30 → AD, 31 → AE, 33 → AG |
| ExcelLayout.ConverterMatchesSheetOnlyAtOverrides | PredictBidSucsRate/bid.ml.train.py:1247-1258 | with `startcol=1, index=True` the converter names the right sheet column only at 25 and 28 |
| ExcelLayout.ConverterExamples | PredictBidSucsRate/bid.ml.train.py:1378-1382 | -1 → A, 0 → A, 25 → AB, 26 → AA, 27 → AB, 28 → AE |
| ResultStatistics.Block | PredictBidSucsRate/bid.ml.train.py:1417-1450 | title, count and rate cells, the count over the verdict column's data rows |
| ResultStatistics.Summary | PredictBidSucsRate/bid.ml.train.py:1440-1450 | the summary lines in column A naming both data ranges |
| ResultStatistics.TrainSheet | PredictBidSucsRate/bid.ml.train.py:1414-1450 | the 14 cells written once the verdicts are spelled |
| ResultStatistics.LastIndex | PredictBidSucsRate/bid.ml.train.py:1336-1344 | the last position holding the name, or none when absent |
| ResultStatistics.FindVerdictColumns | PredictBidSucsRate/bid.ml.train.py:1336-1344 | the loop finds the last `결과1` and the last `결과2` |
| ResultStatistics.AddResultStatistics | PredictBidSucsRate/bid.ml.train.py:1301-1453 | the cells written for a result frame, as written |
| ResultStatistics.GbStatistics | PredictBidSucsRate/bid.ml.train.gb.py:1013-1077 | 13 cells with AD and AG fixed |
| ResultStatistics.ImprovedStatistics | PredictBidSucsRate/test_improved_model.py:459-497 | 10 cells with AD and AG fixed |
| ResultStatistics.FixedCountColumns | PredictBidSucsRate/bid.ml.train.gb.py:1042-1067 | both fixed-column scripts count `낙찰` in AD and AG |
| ResultStatistics.StatisticsBelowData | PredictBidSucsRate/bid.ml.train.py:1324-1326 | every statistics cell lies below `end_row + 1` (end_row = 3 + n - 1) in all three scripts |
| ResultStatistics.VerdictIndices | PredictBidSucsRate/bid.ml.train.py:1336-1344 | the verdicts are found at 25/28, or 27/30 for `cst` |
| ResultStatistics.ConverterSpellsAbAe | PredictBidSucsRate/bid.ml.train.py:1373-1374 | in every layout the verdicts are spelled AB and AE |
| ResultStatistics.CountFormulasDiffer | PredictBidSucsRate/bid.ml.train.py:1417-1430 | counting AB is not counting AD, nor AE AG |
| ResultStatistics.ConstructionStatisticsMiscounted | PredictBidSucsRate/bid.ml.train.py:1347-1374 | for `cst` the verdicts are in AD/AG but the pass counts AB/AE |
| ResultStatistics.TrainSheetCounts | PredictBidSucsRate/bid.ml.train.py:1417-1430 | the two counts read the two given columns |
| ResultStatistics.CorrectedMatchesFixedColumns | PredictBidSucsRate/bid.ml.train.gb.py:1042-1067 | the corrected pass counts AD/AG, as the other two scripts do |
| ResultStatistics.CorrectionKeepsOtherLayouts | PredictBidSucsRate/bid.ml.train.py:1347-1374 | outside `cst` the correction changes nothing |
| ResultStatistics.ConstructionResultMiscounted | PredictBidSucsRate/bid.ml.train.py:683-754 | the frame `make_result_dataframe2` builds for `cst` is one the pass miscounts |
| GbScript.PickByName | PredictBidSucsRate/bid.ml.train.gb.py:675-676 | on a 22-cell row each picked feature is the cell of the column with that name; a shorter row leaves `키워드점수` missing |
| GbScript.GbCvsColumnsDistinct | PredictBidSucsRate/bid.ml.train.gb.py:303-310 | 22 distinct input columns |
| GbScript.FixedIndicesNameFeatures | PredictBidSucsRate/bid.ml.train.gb.py:672-676 | `[0,1,2,7,8,13,17,19,21]` names the nine construction features in order |
| GbScript.FixedIndicesAreSelected | PredictBidSucsRate/bid.ml.train.gb.py:672-676 | the fixed list is what name-based selection computes |
| GbScript.GbResultFacts | PredictBidSucsRate/bid.ml.train.gb.py:326-336 | 31 distinct result columns, verdicts at 27 and 30 |
| GbScript.GbResultIsConstructionLayout | PredictBidSucsRate/bid.ml.train.gb.py:326-336 | the list is the training script's `cst` layout |
| GbScript.GbSelectedIsConstructionCopyList | PredictBidSucsRate/bid.ml.train.gb.py:416-423 | the copy list is the training script's `cst` copy list |
| GbScript.GbSelectedFacts | PredictBidSucsRate/bid.ml.train.gb.py:416-423 | each copied column is an input and a result column, never a computed one |
| GbScript.GbAcceptsResult | PredictBidSucsRate/bid.ml.train.gb.py:412-431 | the script's inputs meet the shared builder's requirements |
| GbScript.GbResultLayout | PredictBidSucsRate/bid.ml.train.gb.py:412-491 | the 31 columns in order, the 21 copies unchanged, one row per test row |
| GbScript.GbMakeResultDataFrame | PredictBidSucsRate/bid.ml.train.gb.py:412-491 | the frame built in place is the shared result, with the 31 columns |
| GbScript.GbVerdictIndices | PredictBidSucsRate/bid.ml.train.gb.py:326-336 | `결과1` is found at 27 and `결과2` at 30 |
| GbScript.GbStatisticsCountVerdicts | PredictBidSucsRate/bid.ml.train.gb.py:1042-1067 | AD and AG are the sheet columns of the verdicts |
| ImprovedModel.OriginalAreConstructionFeatures | PredictBidSucsRate/test_improved_model.py:353-358 | the nine original features are the construction features |
| ImprovedModel.SelectedFeaturesShape | PredictBidSucsRate/test_improved_model.py:353-358 | the available features once each; numeric cells with NaN set to 0 |
| ImprovedModel.AllFeaturesInOrder | PredictBidSucsRate/test_improved_model.py:353-358 | with all nine present they are fed in training order |
| ImprovedModel.MissingColumns | PredictBidSucsRate/test_improved_model.py:291 | the copied columns the data lacks |
| ImprovedModel.TestFrameAccepted | PredictBidSucsRate/test_improved_model.py:291-297 | the test frame meets the shared builder's requirements |
| ImprovedModel.ResultTableOutcome | PredictBidSucsRate/test_improved_model.py:276-345 | a `KeyError` naming the missing columns iff one is missing; otherwise 31 columns with copies kept |
| ImprovedModel.StatisticsCountVerdicts | PredictBidSucsRate/test_improved_model.py:468-495 | the fixed AD/AG are the verdicts' sheet columns |
| ImprovedModel.Mean3 | PredictBidSucsRate/test_improved_model.py:414-415 | three times the mean is the sum; equal scores give that score |
| ImprovedModel.MeanBetween | PredictBidSucsRate/test_improved_model.py:414-415 | the mean lies between the smallest and largest score |
| SamplePredictor.RequiredFacts | PredictBidSucsRate/predict_sample_data.py:206-212 | 13 distinct required columns |
| SamplePredictor.RolesOfRequired | PredictBidSucsRate/predict_sample_data.py:225-236 | the amounts defaulting to 0 are the base, rate, indirect and net costs |
| SamplePredictor.Default | PredictBidSucsRate/predict_sample_data.py:225-236 | codes 0, scores 0.0, texts `''`, bidder count 5, others 0 |
| SamplePredictor.Source | PredictBidSucsRate/predict_sample_data.py:214-236 | a present column as read, a missing one defaulted |
| SamplePredictor.CleanColumn | PredictBidSucsRate/predict_sample_data.py:242-246 | a text column of the same length |
| SamplePredictor.CodeOf | PredictBidSucsRate/predict_sample_data.py:250-256 | `hash mod 1000000` lies in [0, 999999], and `nan` gives 0 |
| SamplePredictor.Encode | PredictBidSucsRate/predict_sample_data.py:250-256 | a numeric column of the same length |
| SamplePredictor.ScoreColumn | PredictBidSucsRate/predict_sample_data.py:260-272 | a numeric score column of the same length |
| SamplePredictor.FillMissing | PredictBidSucsRate/predict_sample_data.py:214-236 | every required column holds the file's column or its default |
| SamplePredictor.CleanTexts | PredictBidSucsRate/predict_sample_data.py:242-246 | each listed text is cleaned in place, other columns and the layout untouched |
| SamplePredictor.ScoreText | PredictBidSucsRate/predict_sample_data.py:260-267 | the score column of one cleaned text |
| SamplePredictor.RoleTable | PredictBidSucsRate/predict_sample_data.py:206-272 | the roles by position agree with the roles picked by name |
| SamplePredictor.Collect | PredictBidSucsRate/predict_sample_data.py:214-246 | the 13 required columns in order, defaulted and cleaned |
| SamplePredictor.CleanupByPosition | PredictBidSucsRate/predict_sample_data.py:242-246 | the cleanup stated by name is the one by position |
| SamplePredictor.EncodeColumn | PredictBidSucsRate/predict_sample_data.py:250-256 | one code column hashed in place, nothing else changed |
| SamplePredictor.HashCodes | PredictBidSucsRate/predict_sample_data.py:250-256 | both code columns hashed in place |
| SamplePredictor.AddScores | PredictBidSucsRate/predict_sample_data.py:260-272 | the three scores computed from the cleaned texts, then stored |
| SamplePredictor.PreprocessData | PredictBidSucsRate/predict_sample_data.py:190-275 | the result is the `Preprocessed` frame of the file |
| SamplePredictor.FinalAll | PredictBidSucsRate/predict_sample_data.py:250-272 | the five assignments give every required column its final value |
| SamplePredictor.FinalIsPreprocessed | PredictBidSucsRate/predict_sample_data.py:190-275 | a map with each column's final value is the frame's |
| SamplePredictor.PreprocessedCols | PredictBidSucsRate/predict_sample_data.py:190-275 | the frame's columns are the required ones with their final values |
| SamplePredictor.PreprocessedShape | PredictBidSucsRate/predict_sample_data.py:238 | exactly the 13 required columns in order, one cell per row |
| SamplePredictor.PreprocessedAt | PredictBidSucsRate/predict_sample_data.py:190-275 | each required column as the frame holds it |
| SamplePredictor.PresentColumnsKept | PredictBidSucsRate/predict_sample_data.py:221-238 | a present amount or bidder count passes unchanged |
| SamplePredictor.MissingDefaults | PredictBidSucsRate/predict_sample_data.py:225-256 | missing bidder count 5, amount 0, text empty, code the hash of `"0"` |
| SamplePredictor.TextCleaned | PredictBidSucsRate/predict_sample_data.py:242-246 | no text cell is `nan`/`NaN`/`None`/`null`; other strings kept, missing empty |
| SamplePredictor.CodesInRange | PredictBidSucsRate/predict_sample_data.py:250-256 | every code is a whole number in [0, 999999], `nan` is 0 |
| SamplePredictor.EncodedCell | PredictBidSucsRate/predict_sample_data.py:250-256 | one hashed cell in range, 0 for missing or `nan` |
| SamplePredictor.ScoresFromCleanedText | PredictBidSucsRate/predict_sample_data.py:260-272 | each score comes from the cleaned text, whatever the file's score held |
| SamplePredictor.ScoreSource | PredictBidSucsRate/predict_sample_data.py:260-272 | a score reads a required text column other than itself |
| SamplePredictor.ZeroInf | PredictBidSucsRate/predict_sample_data.py:301-303 | no infinity left; each ±inf becomes 0 and every other cell is kept |
| SamplePredictor.ReplaceInf | PredictBidSucsRate/predict_sample_data.py:301-303 | every numeric column with infinities replaced, layout unchanged |
| SamplePredictor.RaisingModelIsNotFatal | PredictBidSucsRate/predict_sample_data.py:318-337 | a raising model never fails the run: it succeeds exactly when every answering model gives one value per row, and a raising one gives zeros |
| SamplePredictor.WithIdsKeeps | PredictBidSucsRate/predict_sample_data.py:346-349 | inserting the identifiers keeps the amounts and every column |
| SamplePredictor.WithIdsLayout | PredictBidSucsRate/predict_sample_data.py:346-349 | `입찰번호` goes to 0 and `입찰차수` to 1, others in order; without `입찰번호`, `입찰차수` lands behind the first column |
| SamplePredictor.Flags | PredictBidSucsRate/predict_sample_data.py:360 | `X` for zero indirect cost, else `O`, row by row |
| SamplePredictor.PredictedColumns | PredictBidSucsRate/predict_sample_data.py:277-367 | same rows, inputs unchanged, the three predictions (zeros on failure), the amount `pred1·base`, the indirect-cost flag |
| SamplePredictor.TryInsertRows | PredictBidSucsRate/predict_sample_data.py:346-349 | inserting the identifiers keeps the row count |
| SamplePredictor.Sanitize | PredictBidSucsRate/predict_sample_data.py:297-303 | the selected features with NaN and then infinities set to 0 |
| SamplePredictor.ScalerInputClean | PredictBidSucsRate/predict_sample_data.py:296-303 | the scaler sees only finite numeric cells and no missing object cell |
| SamplePredictor.NaNCheckFills | PredictBidSucsRate/predict_sample_data.py:296-299 | after the `isnull` check no numeric or object cell is missing |
| SamplePredictor.InfCheckReplaces | PredictBidSucsRate/predict_sample_data.py:301-303 | after the infinity check every numeric cell is finite; object columns untouched |
| SamplePredictor.PredictionSteps | PredictBidSucsRate/predict_sample_data.py:352-360 | after the predictions the amounts remain and the derived columns read them |
| SamplePredictor.AddPredictions | PredictBidSucsRate/predict_sample_data.py:352-360 | the in-place writes are `WithPredictions` |
| SamplePredictor.InsertIds | PredictBidSucsRate/predict_sample_data.py:346-349 | the in-place inserts are `WithIds`, stopping at the first refusal |
| SamplePredictor.PredictData | PredictBidSucsRate/predict_sample_data.py:277-367 | the result is `Predicted`, or its error |
| DbSanitize.ToFloat | PredictBidSucsRate/dac/SqlServerPredictionManager.py:227 | None → 0.0, a number as is, an error exactly for unparseable input |
| DbSanitize.Clamp | PredictBidSucsRate/dac/SqlServerPredictionManager.py:238-245 | within the bounds when they are ordered; in-range values unchanged |
| DbSanitize.SafeDecimalFallbacks | PredictBidSucsRate/dac/SqlServerPredictionManager.py:230-231 | unparseable, NaN and infinities give 0 |
| DbSanitize.SafeDecimalOfNone | PredictBidSucsRate/dac/SqlServerPredictionManager.py:226-227 | None gives 0 in a TF-IDF column and in any column with at least one integer digit |
| DbSanitize.SafeDecimalTfidfRange | PredictBidSucsRate/dac/SqlServerPredictionManager.py:234-240 | TF-IDF results lie in [0, 0.999999999999999], in-range scores unchanged |
| DbSanitize.SafeDecimalGeneralRange | PredictBidSucsRate/dac/SqlServerPredictionManager.py:241-245 | results within ±(10^(p−s) − 1), in-range values unchanged |
| DbSanitize.DecimalBounds | PredictBidSucsRate/dac/SqlServerPredictionManager.py:241-245 | (18,9) → 999999999, (10,7) → 999, (20,2) → 10^18 − 1 |
| DbSanitize.SafeDecimalIdempotent | PredictBidSucsRate/dac/SqlServerPredictionManager.py:224-249 | converting a stored value again stores the same value |
| DbSanitize.SafeDecimalCrossedBounds | PredictBidSucsRate/dac/SqlServerPredictionManager.py:241-245 | with fewer digits than places the bounds cross and idempotence fails |
| DbSanitize.Truncate | PredictBidSucsRate/dac/SqlServerPredictionManager.py:254 | `int()` truncates towards zero |
| DbSanitize.SafeIntOutcome | PredictBidSucsRate/dac/SqlServerPredictionManager.py:251-258 | `OverflowError` exactly for an infinity; otherwise in INT, 0 for failures, the integer part when in range |
| DbSanitize.SafeIntIdempotent | PredictBidSucsRate/dac/SqlServerPredictionManager.py:251-258 | converting a stored integer again stores it |
| DbSanitize.RowSlotsFacts | PredictBidSucsRate/dac/SqlServerPredictionManager.py:260-286 | each row key is read at most once; the clock only for the last column; TF-IDF clamping only for the three scores; places never exceed digits |
| DbSanitize.Convert | PredictBidSucsRate/dac/SqlServerPredictionManager.py:260-286 | a field fails exactly on the integer slot with an infinite value |
| DbSanitize.Fields | PredictBidSucsRate/dac/SqlServerPredictionManager.py:260-286 | all fields or the first conversion's error |
| DbSanitize.SlotFacts | PredictBidSucsRate/dac/SqlServerPredictionManager.py:260-286 | the scores at 13, 15, 17 are TF-IDF; the count at 23 is an int; the clock is at 24 |
| DbSanitize.OnlyIntSlot | PredictBidSucsRate/dac/SqlServerPredictionManager.py:260-286 | position 23 is the only integer column |
| DbSanitize.ScoreField | PredictBidSucsRate/dac/SqlServerPredictionManager.py:234-240 | a score field lies in the TF-IDF range |
| DbSanitize.AmountField | PredictBidSucsRate/dac/SqlServerPredictionManager.py:241-245 | an amount field lies within its column's bound |
| DbSanitize.PrepareRowLayout | PredictBidSucsRate/dac/SqlServerPredictionManager.py:260-286 | refused iff the predicted count is infinite; otherwise 25 fields with scores clamped, count in INT, clock last |
| DbSanitize.PrepareRowAmounts | PredictBidSucsRate/dac/SqlServerPredictionManager.py:260-286 | the amounts at 2–6 and the rates at 21–22 fit their DECIMAL columns |
| MessageDispatch.RegisteredAfterAdd | PredictBidSucsRate/lib/MessageDispatcher.py:25-47 | after an add the event lists the old listeners then the callback, other events keep theirs, and removing a new callback restores the list |
| MessageDispatch.Calls | PredictBidSucsRate/lib/MessageDispatcher.py:32-39 | one call per listener in order, with its raise flag |
| MessageDispatch.CallsIgnoreRaises | PredictBidSucsRate/lib/MessageDispatcher.py:36-39 | the listeners called are the registered ones whatever raises |
| MessageDispatch.CallsAppend | PredictBidSucsRate/lib/MessageDispatcher.py:32-39 | a longer listener list extends the calls |
| MessageDispatch.RemoveFirst | PredictBidSucsRate/lib/MessageDispatcher.py:44-47 | `ValueError` iff absent; otherwise the list without the first occurrence |
| MessageDispatch.RemoveFirstCount | PredictBidSucsRate/lib/MessageDispatcher.py:44-47 | removal takes out exactly one occurrence |
| MessageDispatch.AddThenRemove | PredictBidSucsRate/lib/MessageDispatcher.py:41-47 | removing a callback just added restores the list |
| MessageDispatch.BaseDispatcher.constructor | PredictBidSucsRate/lib/MessageDispatcher.py:14-16 | no listeners and no calls made |
| MessageDispatch.BaseDispatcher.AddListener | PredictBidSucsRate/lib/MessageDispatcher.py:19-30 | the callback goes last; the list is created if absent; `__getListener` then finds it; no other event changes |
| MessageDispatch.BaseDispatcher.DispatchEvent | PredictBidSucsRate/lib/MessageDispatcher.py:32-39 | each listener called once in order, raises caught; an unknown event calls nothing |
| MessageDispatch.BaseDispatcher.RemoveListener | PredictBidSucsRate/lib/MessageDispatcher.py:44-47 | an unknown event is a no-op; else the first occurrence goes or `ValueError` |
| MessageDispatch.Telegram.constructor | PredictBidSucsRate/lib/MessageDispatcher.py:50-55 | empty name and no parameter, sender or receiver |
| MessageDispatch.Telegram.SetEventName | PredictBidSucsRate/lib/MessageDispatcher.py:60-61 | only the event name changes |
| MessageDispatch.Telegram.SetParam | PredictBidSucsRate/lib/MessageDispatcher.py:66-67 | only the parameter changes |
| MessageDispatch.Telegram.SetSender | PredictBidSucsRate/lib/MessageDispatcher.py:69-70 | only the sender changes |
| MessageDispatch.Telegram.SetReceiver | PredictBidSucsRate/lib/MessageDispatcher.py:75-76 | only the receiver changes |
| MessageDispatch.Telegram.Build | PredictBidSucsRate/lib/MessageDispatcher.py:81-89 | a new telegram with the four fields exactly as given |
| MessageDispatch.Without | PredictBidSucsRate/lib/MessageDispatcher.py:116-118 | the names other than the removed one |
| MessageDispatch.WithoutDistinct | PredictBidSucsRate/lib/MessageDispatcher.py:116-118 | removal keeps a list without repeats |
| MessageDispatch.WithoutAbsent | PredictBidSucsRate/lib/MessageDispatcher.py:116-118 | removing an absent name changes nothing |
| MessageDispatch.Broadcasts | PredictBidSucsRate/lib/MessageDispatcher.py:132-141 | one delivery per key in order, receiver None |
| MessageDispatch.BroadcastOncePerClient | PredictBidSucsRate/lib/MessageDispatcher.py:132-141 | with distinct keys every client is reached exactly once, nobody else |
| MessageDispatch.BroadcastsAppend | PredictBidSucsRate/lib/MessageDispatcher.py:132-141 | one more key adds one delivery at the end |
| MessageDispatch.MessageDispatcher.constructor | PredictBidSucsRate/lib/MessageDispatcher.py:97-103 | no clients and nothing delivered |
| MessageDispatch.MessageDispatcher.Register | PredictBidSucsRate/lib/MessageDispatcher.py:112-114 | a new name goes last; an existing receiver is never overwritten |
| MessageDispatch.MessageDispatcher.Unregister | PredictBidSucsRate/lib/MessageDispatcher.py:116-118 | only a present name is removed; the others keep their order |
| MessageDispatch.MessageDispatcher.Send | PredictBidSucsRate/lib/MessageDispatcher.py:120-129 | only the named receiver gets one telegram (name, param, sender, receiver); an unknown name gets nothing |
| MessageDispatch.MessageDispatcher.Broadcast | PredictBidSucsRate/lib/MessageDispatcher.py:132-141 | every client, in key order, gets one telegram with receiver None |
| Frames.FillNa | PredictBidSucsRate/bid.ml.predict.py:583 | `fillna(0)`: numeric NaN and object `None`/NaN become 0, datetime columns and the layout are kept; the same call is at PredictBidSucsRate/predict_sample_data.py:299 and PredictBidSucsRate/test_improved_model.py:358 |
| Frames.FillNaZero | PredictBidSucsRate/bid.ml.predict.py:583 | no NaN left in the column; each NaN becomes 0 and every other cell is kept |
| Frames.FillObjsZero | PredictBidSucsRate/bid.ml.predict.py:583 | no missing object cell left; each `None` or NaN becomes the integer 0 and every other cell is kept |
| Frames.TryInsert | PredictBidSucsRate/predict_sample_data.py:346-349 | `df.insert` refuses a duplicate name, a bad position or a wrong length; otherwise adds the column |
| Frames.TryInsertValid | PredictBidSucsRate/predict_sample_data.py:346-349 | an accepted insert puts the name at `loc`, the others around it in order |
| Frames.DataFrame.constructor | PredictBidSucsRate/predict_sample_data.py:340 | a frame object holding the given table |
| Frames.DataFrame.Assign | PredictBidSucsRate/advanced_feature_engineering.py:45 | `df[c] = v` replaces in place or appends last |
| Frames.DataFrame.Insert | PredictBidSucsRate/predict_sample_data.py:347 | the in-place insert is `TryInsert`, its refusal an error |

## Left out

- HTTP and configuration: the Flask app, its routes and authentication, and `config.csv`. These are transport and I/O.
- Kiwi loading and dictionaries, `TfidfVectorizer` fitting, and joblib save/load. These are foreign libraries; the tokenizer and the `transform` are parameters.
- Fitting and inference of the scaler and the MLP/XGBoost/LightGBM/GradientBoosting models. These are opaque functions passed in, and a failing model is `None`.
- Clustering, polynomial features, `SelectKBest`, PCA and `create_all_features`. These wrap libraries.
- Float rounding: the model works on exact reals, so IEEE rounding of the amounts and ratios is not captured. `log1p`, std, median and quantiles are parameters. Mean and sum are exact skip-NaN reals.
- SamplePredictor.CodeOf: `hash` is a parameter, so the model keeps only the range of the code, not its value.
- SamplePredictor.CleanColumn: `str()` of a number is a parameter `numText`.
- DbSanitize.ToFloat: `float()` of a string is a parameter `parse`, and `str()` of a cell is a parameter `show`.
- TrainSetup.FileNameExample: `datetime.now()` is a string parameter.
- TrainSetup.SplitCounts: `train_test_split` randomness is left out; only the sizes are modelled.
- SamplePredictor.PredictData: the stripping of the original file's column names is not modelled; the original columns are passed in. The file is assumed to hold no parsed dates.
- Excel and CSV writing, openpyxl formatting, console printing and the database layer (the MERGE/INSERT loop). These are I/O. Only the cells the statistics pass writes are modelled.
- MessageDispatch.MessageDispatcher.constructor: the singleton machinery (`getInstance`, the `__init__` guard) is left out; each dispatcher is one object.
- MessageDispatch.Telegram.constructor: the getters are not modelled because they only read fields. The `event_param` default `[]` is modelled as `None`.
- MessageDispatch.BaseDispatcher.DispatchEvent: what a callback does is not modelled. It is recorded as a call with a raise flag, so a callback that changes the registry during the loop is not captured.
- Text.Lower: only ASCII capitals are lowered. Python's `str.lower` also lowers other scripts and signs (`É`, full-width `Ｌ`, `Ⅱ`), and turns `İ` into two characters. The analyser's input is affected only for text holding such capitals.
- KiwiTokens.ClearedLine: it normalises with `Text.Lower`, so it inherits that ASCII-only lowering.
- KiwiTokens.NnOnly: it normalises with `Text.Lower`, so it inherits that ASCII-only lowering.
- Text.LeadingDigits: only ASCII `0`-`9` count as digits. Python's `\d` also matches other decimal digits, such as the full-width `２`, and `int()` reads them. A bid number written in such digits gives a date in the source and none in the model.
- Text.DigitRunsFront: it is about ASCII digit runs, for the reason given for `Text.LeadingDigits`.
- TextFeatures.TextStatAdded: the `_숫자수` column counts ASCII digits, while `str.count(r'\d')` counts every Unicode decimal digit.
- InteractionFeatures.AddAmountTerms: the square of `기초금액` is exact. When pandas holds the column as int64, `** 2` wraps once the amount reaches 3,037,000,500, and that wrap is not modelled.
- Frames.FillNa: a datetime column keeps its NaT cells, because pandas would turn the column into objects holding 0. The frames that are filled hold no datetime column.
- `add_engineered_features`, `model_performance_final.py` and `simple_data_analysis.py`: dead or analysis code.

## Findings

| source | as written | input that shows it | evidently intended | confidence | as-written member | corrected member |
|---|---|---|---|---|---|---|
| PredictBidSucsRate/bid.ml.train.py:1347-1374 | `index_to_excel_column` spells `index + 1` except at 25 and 28, so `결과1`/`결과2` are counted in AB/AE in every layout | the explicit `cst` result layout (31 columns): `결과1` is column 27, written to sheet column AD, but the formula counts AB; `결과2` is column 30, in AG, but counted in AE | count the columns where the verdicts are written (AD/AG for `cst`, as the gradient-boosting and evaluation scripts and the method's own docstring do) | not executed | ResultStatistics.ConstructionStatisticsMiscounted | ResultStatistics.CorrectedMatchesFixedColumns |

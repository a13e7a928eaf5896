# Waste-weight estimator: a Dafny model of its core

The application photographs a piece of waste and estimates its weight. The user then confirms the
real weight, and the application learns from that correction. This project models the
decision-making and bookkeeping code of that application and proves properties about it. It covers
seven pieces of the source.

- **Browser sample store** (`waste-estimator-main/src/services/storage.js`), module `Storage`:
  - lenient weight parsing (`safelyParseFloat`);
  - stamping each saved scan with an accuracy score and prepending it;
  - deleting one scan or many scans by id;
  - the dashboard statistics: totals, extremes, a four-bin histogram, the training-progress
    series and the mean accuracy.
  - `ScanStore` is a class whose `scans` field stands for the persisted list.
- **Offline fallback estimator and selection logic** (`src/App.jsx`), module `App`:
  - the category statistics and the image-hash seed;
  - the learning-branch and cold-start estimates;
  - the save handler;
  - the select-all and select-one toggles;
  - the chart series and the average weight.
- **Dataset view** (`waste-estimator-main/src/components/TrainingDataset.jsx`), module
  `TrainingDataset`:
  - the min/max weight filter;
  - the four sort orders, as an insertion sort over a NaN-aware comparison;
  - the footer statistics;
  - selection and export.
- **Per-material running-average table** (`backend/weight_model_v2_lite.py`), module `MaterialDb`:
  - name normalisation (`strip().title()`);
  - lookup with fallbacks, confidence, the running-average update and statistics;
  - the "lite" estimator built on the table.
  - `MaterialWeightDB` and `WeightEstimatorV2Lite` are classes.
- **Neural predictor bookkeeping** (`backend/weight_model.py`), module `WeightModel`:
  - the material-to-id table;
  - the training history appended by a correction;
  - the per-material statistics;
  - the material defaulting of `analyze_image`.
  - The network is a parameter.
- **Detector-based analysis** (`model.py`), module `Analysis`:
  - the detection tally;
  - the learned or fixed per-object weight;
  - the choice between that estimate and the k-NN prediction.
- **k-NN sample gating** (`predictor.py`), module `Predictor`:
  - the "Missing Data" and "Cold Start" cases;
  - the filter on embedding length;
  - the choice of k and the method label.

Two shared modules model the parts of the JavaScript and Python runtimes that the core depends on:

- `Common`: sums, means, extremes, decimal digit strings, and removal from an id list.
- `JsValues`:
  - truthiness;
  - `Number` with an explicit NaN;
  - `parseFloat` as a longest-numeric-prefix reader;
  - the 32-bit truncation of `| 0`.

Weights and scores are exact `real`s. Where the source rounds with `toFixed` or `round` and the
rounding matters for a stated bound, the model rounds half-up exactly. Randomness, transcendental
functions, the neural network, the object detector, the feature extractor, the k-NN regressor,
JSON decoding and the database sums are all parameters of the operations that use them.

## Model

| member | source | states |
|---|---|---|
| Storage.IndexOf | waste-estimator-main/src/services/storage.js:6 | the position of the first occurrence of the character, or the length when it is absent |
| Storage.ReplaceFirst | waste-estimator-main/src/services/storage.js:6 | `replace(',', '.')` changes exactly the first occurrence and nothing else |
| Storage.ReplaceFirstAt | waste-estimator-main/src/services/storage.js:6 | with no earlier comma, the first comma becomes a point and the rest of the text is untouched |
| Storage.NoCommaUnchanged | waste-estimator-main/src/services/storage.js:6 | text without a comma is left as it is |
| Storage.SafelyParseFloat | waste-estimator-main/src/services/storage.js:4-8 | falsy input reads as 0; a finite number reads as itself; a boolean reads as 0 |
| Storage.SafelyParseText | waste-estimator-main/src/services/storage.js:6-7 | non-empty text whose comma-replaced form parses to a finite v reads as v |
| Storage.CommaDecimalParses | waste-estimator-main/src/services/storage.js:3-7 | digits, a comma and digits read as the decimal number with a point in place of the comma |
| Storage.SecondCommaEndsNumber | waste-estimator-main/src/services/storage.js:6-7 | only the first comma is replaced, so a second comma ends the number |
| Storage.CommaExample | waste-estimator-main/src/services/storage.js:3 | "0,020" reads as 0.02, as the comment above the helper promises |
| Storage.UnparseableReadsZero | waste-estimator-main/src/services/storage.js:7 | text that does not start a number parses to NaN, and the `or 0` fallback turns that into 0 |
| Storage.RoundTenths | waste-estimator-main/src/services/storage.js:37 | half-up rounding to one decimal stays non-negative and within 0.05 of its input |
| Storage.RoundTenthsOfWhole | waste-estimator-main/src/services/storage.js:37 | whole numbers such as 0 and 100 are kept by the rounding |
| Storage.RoundTenthsAtMost100 | waste-estimator-main/src/services/storage.js:37 | the rounding never lifts a score above 100 |
| Storage.Accuracy | waste-estimator-main/src/services/storage.js:29-37 | the score lies in [0,100]; it is 100 for an exact match and for 0 vs 0; it is 0 for a non-positive actual otherwise and when the error is at least the actual; in all other cases it is within 0.05 of max(0, (1 - abs(ai - actual)/actual)*100) |
| Storage.StampedAccuracy | waste-estimator-main/src/services/storage.js:26-37 | the stamped score lies in [0,100], and it is 100 when the estimate equals a non-negative actual weight |
| Storage.WithoutIds | waste-estimator-main/src/services/storage.js:53-59 | the survivors are exactly the scans whose id is not in the list |
| Storage.WithoutIdsCons | waste-estimator-main/src/services/storage.js:56 | the filter decides the head scan on its own and keeps the survivors in order |
| Storage.WithoutIdsAppend | waste-estimator-main/src/services/storage.js:56 | filtering distributes over concatenation, so relative order is preserved |
| Storage.WithoutAbsentIds | waste-estimator-main/src/services/storage.js:53-59 | deleting ids that no scan carries changes nothing |
| Storage.WithoutIdsSequential | waste-estimator-main/src/services/storage.js:45-59 | two deletions in a row equal one bulk deletion of both id lists |
| Storage.WithoutIdsBounded | waste-estimator-main/src/services/storage.js:45-59 | deleting keeps every stored accuracy within [0,100] |
| Storage.Bin | waste-estimator-main/src/services/storage.js:84-97 | bin 0 iff w ≤ 1, bin 1 iff 1 < w ≤ 5, bin 2 iff 5 < w ≤ 10, bin 3 iff w > 10 |
| Storage.Histogram | waste-estimator-main/src/services/storage.js:84-97 | four counts, one per bin, that add up to the number of weights |
| Storage.HistogramPartition | waste-estimator-main/src/services/storage.js:84-97 | the four bin counts add up to the number of weights |
| Storage.Progress | waste-estimator-main/src/services/storage.js:101-111 | the series has one point per scan, oldest first, and point k has index = samples = k+1 |
| Storage.MeanAccuracy | waste-estimator-main/src/services/storage.js:114-125 | "N/A" exactly when no scan carries an accuracy; otherwise the mean of the stamped accuracies |
| Storage.StampedBounded | waste-estimator-main/src/services/storage.js:116-123 | every stamped accuracy that is summed lies in [0,100] |
| Storage.StampedEmpty | waste-estimator-main/src/services/storage.js:116-125 | nothing is summed exactly when no scan carries an accuracy |
| Storage.MeanAccuracyBounded | waste-estimator-main/src/services/storage.js:114-125 | for a store whose accuracies are percentages the mean accuracy lies in [0,100] |
| Storage.StatsOf | waste-estimator-main/src/services/storage.js:61-80 | the item count is the number of scans; the total is the sum of their parsed weights; the average and the extremes are "N/A" exactly when the store is empty; otherwise the average is the mean of the parsed weights |
| Storage.StatsExtremes | waste-estimator-main/src/services/storage.js:67-76 | the minimum is one of the weights and at most each weight; the maximum starts at 0, is at least each weight, and is 0 or one of the weights |
| Storage.StatsHistogram | waste-estimator-main/src/services/storage.js:84-111 | the distribution has four bins that add up to the item count, and the progress series has one point per scan |
| Storage.ScanStore.constructor | waste-estimator-main/src/services/storage.js:10-13 | with nothing stored the store reads as empty |
| Storage.ScanStore.GetScans | waste-estimator-main/src/services/storage.js:10-13 | returns the stored list |
| Storage.ScanStore.SaveScan | waste-estimator-main/src/services/storage.js:15-42 | the given fields override the generated id and timestamp; the accuracy is stamped from the given estimate and actual weight; the new scan goes before every older one |
| Storage.ScanStore.DeleteScan | waste-estimator-main/src/services/storage.js:45-50 | removes exactly the scans with that id and returns the new list |
| Storage.ScanStore.DeleteScans | waste-estimator-main/src/services/storage.js:53-59 | removes exactly the scans whose id is listed and returns the new list |
| Storage.ScanStore.GetStats | waste-estimator-main/src/services/storage.js:61-137 | the statistics are those of the stored scans, and the mean accuracy of a store whose accuracies are percentages lies in [0,100] |
| Storage.WeightTotals | waste-estimator-main/src/services/storage.js:67-76 | the loop computes the sum, the minimum started at the first weight, and the maximum started at 0 |
| Storage.WeightTotalsStep | waste-estimator-main/src/services/storage.js:71-76 | one more weight extends the sum, the running minimum and the running maximum |
| Storage.CountBins | waste-estimator-main/src/services/storage.js:84-97 | the loop computes the four-bin histogram |
| Storage.AccuracyTotals | waste-estimator-main/src/services/storage.js:116-123 | the loop counts and sums exactly the stamped accuracies |
| Storage.SaveThenDelete | waste-estimator-main/src/services/storage.js:15-50 | deleting a freshly saved scan by its new id restores the earlier list |
| JsValues.TrimStart | waste-estimator-main/src/services/storage.js:7 | `parseFloat` skips leading white space |
| JsValues.ApplyExponent | waste-estimator-main/src/services/storage.js:7 | an exponent part keeps a positive value positive and zero zero, and a number without one is unchanged |
| JsValues.Plus | src/App.jsx:85 | a sum is a number exactly when both operands are (NaN propagates) |
| JsValues.DivideBy | src/App.jsx:86 | `total / n` is a number exactly when the total is, and it then times n gives the total |
| JsValues.Values | src/App.jsx:84-85 | the value of each number, with NaN read as 0, one per number in order |
| JsValues.NumSum | src/App.jsx:85 | the NaN-carrying total is a number exactly when every operand is, and then it is the sum of their values |
| JsValues.DigitsEnd | waste-estimator-main/src/services/storage.js:7 | the end of the run of digits from a position |
| JsValues.DecimalWhole | waste-estimator-main/src/services/storage.js:7 | a number without a fraction is the whole number |
| JsValues.WholeParses | waste-estimator-main/src/services/storage.js:7 | a digit string parses to its value |
| JsValues.DecimalParses | waste-estimator-main/src/services/storage.js:7 | digits, a point and digits followed by a non-numeric tail parse to the decimal value |
| JsValues.NatToStringParses | src/App.jsx:98 | the decimal text of a natural number parses back to it |
| JsValues.NonNumericParsesToNaN | waste-estimator-main/src/components/TrainingDataset.jsx:13 | text that starts with no sign, digit or point parses to NaN |
| JsValues.ParseFloatString | waste-estimator-main/src/components/TrainingDataset.jsx:13-15 | text that is empty after the leading white space is NaN, and a negative result comes from a leading minus sign |
| JsValues.ParseFloat | waste-estimator-main/src/components/TrainingDataset.jsx:13 | a number is read as itself; undefined, null and booleans are NaN |
| JsValues.ParseFloatOfWord | waste-estimator-main/src/components/TrainingDataset.jsx:13 | undefined, null and booleans are read through the words they print as, which do not parse |
| JsValues.ToInt32 | src/App.jsx:99 | the bitwise-or with 0 keeps a value in the signed 32-bit range and congruent to its input modulo 2^32 |
| JsValues.ToInt32Congruent | src/App.jsx:99 | values that differ by a multiple of 2^32 truncate alike |
| JsValues.ToInt32OfInt32 | src/App.jsx:99 | a value already in range is kept |
| JsValues.NumMean | src/App.jsx:85-86 | `total / n` over numbers that all parse is the mean of their values |
| Common.NatToStringRoundTrip | src/App.jsx:98 | `length.toString()` yields digits that read back as the length |
| Common.SumBounds | src/App.jsx:85-86 | values within [lo,hi] sum to between n*lo and n*hi |
| Common.MeanBounds | waste-estimator-main/src/services/storage.js:125 | the mean of values within [lo,hi] lies within [lo,hi] |
| Common.MinOf | waste-estimator-main/src/services/storage.js:68-74 | the minimum is one of the values and at most each of them |
| Common.MaxFromZero | waste-estimator-main/src/services/storage.js:69-75 | a maximum started at 0 is non-negative, at least each value, and 0 or one of the values |
| Common.Remove | src/App.jsx:167 | the filtered list holds exactly the other ids and is no longer than the input |
| Common.RemoveNoDups | src/App.jsx:167 | removing an id from a duplicate-free list leaves it duplicate-free |
| App.Cents | src/App.jsx:113 | `toFixed(2)` rounds to the nearest hundredth |
| App.CentsText | src/App.jsx:113 | the fixed text starts with a digit and has at least four characters |
| App.CentsTextShape | src/App.jsx:113 | the fixed text is the whole part, a point and two digits, and it has no comma |
| App.CentsTextParses | src/App.jsx:113 | the fixed text parses back to the cents value |
| App.FixedEstimateReadsBack | src/App.jsx:113 | a non-negative estimate rendered with two decimals is read by the store's parser as its rounded value |
| App.CategorySamples | src/App.jsx:77-78 | the samples are exactly the history scans whose category equals the selected type |
| App.CategoryWeights | src/App.jsx:84 | one `parseFloat` reading per sample, in order |
| App.SquareDev | src/App.jsx:89 | a squared deviation is never negative |
| App.SquareDevs | src/App.jsx:89 | one squared deviation from the given mean per value, in order |
| App.SquareDiff | src/App.jsx:89 | `Math.pow(w - avg, 2)` is a number exactly when both are, and then the squared deviation |
| App.SquareDiffs | src/App.jsx:89 | one squared difference per weight, in order |
| App.SquareDiffsSum | src/App.jsx:89-90 | with every weight parsed, the NaN-carrying total of the squared differences is the sum of the squared deviations of the values |
| App.PopVariance | src/App.jsx:89-90 | the mean squared deviation from the mean is never negative |
| App.ConstantSamples | src/App.jsx:84-91 | equal weights have that weight as mean and zero variance |
| App.CategoryMoments | src/App.jsx:84-90 | computed as the source does (NaN-carrying totals over n); finite exactly when every weight parses, and then the mean and the population variance of the parsed weights |
| App.Last50 | src/App.jsx:98 | `slice(-50)` keeps the last min(length, 50) characters |
| App.HashOf | src/App.jsx:98-99 | the hash loop gives a signed 32-bit value: the polynomial hash with base 31 of the character codes, truncated to 32 bits |
| App.HashStep | src/App.jsx:99 | one hash step stays a signed 32-bit value |
| App.HashStepIsTimes31 | src/App.jsx:99 | shifting left by 5, subtracting h, adding c and truncating is 31*h + c truncated to 32 bits |
| App.SeedOf | src/App.jsx:96-100 | the seed is a 32-bit value, and 0 when the image is not a string |
| App.ImageSeed | src/App.jsx:96-100 | the hashing loop computes the seed of the image |
| App.DrawZ | src/App.jsx:96-106 | the seed loop, the two seeded draws and the guarded Box-Muller transform give the z-score of the image seed |
| App.SameTailSameSeed | src/App.jsx:96-99 | two images of equal length with the same last 50 characters get the same seed |
| App.LearningWeight | src/App.jsx:109-113 | with finite avg and stdDev the estimate is max(0.05, avg + z*stdDev): exactly avg + z*stdDev when that is at least 0.05, else 0.05; NaN when avg or stdDev is NaN |
| App.GuardU1 | src/App.jsx:106 | the `or 0.001` guard replaces a zero draw and keeps any other |
| App.ColdStartWeight | src/App.jsx:118 | r*0.7 + 1.1 lies in [1.1, 1.8) for r in [0,1) |
| App.SimulatedConfidence | src/App.jsx:123 | floor(r*10 + 88) lies in [88, 97] |
| App.LearningWeightFloor | src/App.jsx:113 | the rendered learning estimate reads back as at least 0.05 |
| App.ColdStartRendered | src/App.jsx:118 | the rendered cold-start estimate reads back within [1.1, 1.8] |
| App.ToFixed2 | src/App.jsx:113 | `toFixed(2)` of NaN is "NaN"; of a non-negative number it is text that parses back to the number rounded to hundredths |
| App.LearnedWeightText | src/App.jsx:82-113 | with every weight of the category parsed, the text is `toFixed(2)` of the learning weight for the mean, the z-score and the square root of the population variance, and it reads back as at least 0.05; otherwise it is "NaN" |
| App.FallbackWeight | src/App.jsx:78-119 | with no history the estimate reads within [1.1, 1.8]; with fully parsed history it is the learning text and reads at least 0.05; with an unparsable weight it is "NaN" |
| App.LearnedEstimate | src/App.jsx:82-113 | the learning branch's text is the mean of the category's weights plus the image seed's z-score times their standard deviation, floored at 0.05 and rendered with two decimals |
| App.FallbackEstimate | src/App.jsx:74-127 | the simulated result has the selected type as category and material, a confidence in [88, 97], and the weight of the history-based estimate |
| App.HandleImageSelected | src/App.jsx:43-131 | the backend result is kept with the selected type as category and material; otherwise the fallback estimate is seeded from the captured `image` state |
| App.HandleImageSelectedCorrected | src/App.jsx:43-131 | the same, with the fallback seeded from the photo being analysed |
| App.StaleImageSeed | src/App.jsx:288-292 | the uploader only shows while `image` is empty, so the captured seed is 0 or the hash of "" |
| App.CorrectedSeedVaries | src/App.jsx:96-100 | seeding from the photo itself gives two example photos, "a" and "b", different seeds |
| App.HandleUserSave | src/App.jsx:134-147 | nothing is saved without an image or a result; otherwise the record carries the prior estimate, the entered weight, the confirmed category or else the selected type, the stamped accuracy and the current time as timestamp, and it is prepended to the store |
| App.AcceptedEstimateScoresFull | src/App.jsx:113 | accepting a rendered estimate unchanged scores 100 |
| App.Ids | src/App.jsx:160 | the ids of the recent scans, in order |
| App.ToggleSelectAll | src/App.jsx:156-162 | clears the selection when it is as long as the list; otherwise selects every scan id |
| App.SelectAllTwiceRestores | src/App.jsx:156-162 | with scans present and all selected, select-all clears the selection and a second press selects every scan id again |
| App.ToggleSelectOne | src/App.jsx:164-170 | flips the id's membership and leaves every other id alone |
| App.ToggleOneTwice | src/App.jsx:164-170 | toggling an unselected id twice restores the selection |
| App.ChartData | src/App.jsx:212-216 | one point per scan, oldest first, numbered from 1, with a missing accuracy drawn as 0 |
| App.ChartAccuracyBounded | src/App.jsx:212-216 | for a store whose accuracies are percentages, every plotted accuracy lies in [0,100] |
| App.AvgWeight | src/App.jsx:41 | 0 for an empty store; otherwise the value that times the item count gives the total weight |
| App.AvgWeightIsAverage | src/App.jsx:41 | the displayed average is 0 for an empty store, otherwise the statistics' average, which is the mean of the parsed weights |
| TrainingDataset.FilteredData | waste-estimator-main/src/components/TrainingDataset.jsx:11-18 | exactly the scans that pass both bounds are kept |
| TrainingDataset.PassesFilter | waste-estimator-main/src/components/TrainingDataset.jsx:13-15 | a scan whose weight does not parse passes, and bounds that do not parse exclude nothing |
| TrainingDataset.PassesFilterNumeric | waste-estimator-main/src/components/TrainingDataset.jsx:13-16 | with numeric weight and bounds, a scan passes iff (no min or w ≥ min) and (no max or w ≤ max) |
| TrainingDataset.NoBoundsKeepAll | waste-estimator-main/src/components/TrainingDataset.jsx:11-18 | empty bounds keep every scan in order |
| TrainingDataset.BeforeMeans | waste-estimator-main/src/components/TrainingDataset.jsx:21-29 | each sort order compares by timestamp or by parsed weight in its direction; an unknown order compares nothing |
| TrainingDataset.InsertPermutes | waste-estimator-main/src/components/TrainingDataset.jsx:21-29 | inserting adds exactly the one scan |
| TrainingDataset.InsertBounded | waste-estimator-main/src/components/TrainingDataset.jsx:21-29 | inserting a row keeps every key below a bound that all keys were below |
| TrainingDataset.InsertAfterLast | waste-estimator-main/src/components/TrainingDataset.jsx:21-29 | a row that does not go before the last row is appended and the list stays ordered |
| TrainingDataset.SortedData | waste-estimator-main/src/components/TrainingDataset.jsx:21-29 | the sorted list has the length of the filtered list and is a permutation of it |
| TrainingDataset.InsertSorted | waste-estimator-main/src/components/TrainingDataset.jsx:21-29 | inserting into an ordered list keeps it ordered |
| TrainingDataset.SortedDataOrdered | waste-estimator-main/src/components/TrainingDataset.jsx:21-29 | with comparable keys the result is ordered by the chosen key and direction |
| TrainingDataset.UnrecognisedKeepsOrder | waste-estimator-main/src/components/TrainingDataset.jsx:28 | an unknown sort order keeps the input order |
| TrainingDataset.RunMinProperties | waste-estimator-main/src/components/TrainingDataset.jsx:41-46 | the minimum started at the first weight is one of the weights and at most every numeric weight when that first weight is a number |
| TrainingDataset.RunMaxProperties | waste-estimator-main/src/components/TrainingDataset.jsx:41-47 | the maximum started at 0 is 0 or one of the weights, and at least every numeric weight |
| TrainingDataset.RunMin | waste-estimator-main/src/components/TrainingDataset.jsx:41-46 | the minimum is NaN when the first weight is NaN and a number when it is a number |
| TrainingDataset.RunMax | waste-estimator-main/src/components/TrainingDataset.jsx:41-47 | the maximum started at 0 is a non-negative number |
| TrainingDataset.FooterStep | waste-estimator-main/src/components/TrainingDataset.jsx:43-47 | one more weight extends the total, the running minimum and the running maximum as the loop body does |
| TrainingDataset.FooterStatsOf | waste-estimator-main/src/components/TrainingDataset.jsx:32-50 | an empty view gives zeros; otherwise the loop computes total/n, the running minimum and the running maximum, and the average is the mean of the weights when they all parse and NaN otherwise |
| TrainingDataset.Dedup | waste-estimator-main/src/components/TrainingDataset.jsx:57 | `new Set` of the ids: no duplicates, the same members |
| TrainingDataset.HandleSelectAll | waste-estimator-main/src/components/TrainingDataset.jsx:53-59 | for a duplicate-free selection (the source keeps a set): clears when the selection is as large as the filtered list; otherwise selects exactly the filtered ids, without duplicates |
| TrainingDataset.ToggleSelection | waste-estimator-main/src/components/TrainingDataset.jsx:61-66 | flips the id's membership, leaves every other id alone and keeps the set duplicate-free |
| TrainingDataset.ToggleSelectionTwice | waste-estimator-main/src/components/TrainingDataset.jsx:61-66 | toggling twice restores the selected set |
| TrainingDataset.ExportIds | waste-estimator-main/src/components/TrainingDataset.jsx:68-72 | the selection when it is non-empty, else every filtered id in order |
| MaterialDb.DefaultTable | backend/weight_model_v2_lite.py:39-68 | the seeded table has Mixed Waste and a "default" entry with count 0 for every material |
| MaterialDb.StripStart | backend/weight_model_v2_lite.py:75 | removes exactly the leading white space |
| MaterialDb.StripEnd | backend/weight_model_v2_lite.py:75 | removes exactly the trailing white space |
| MaterialDb.Strip | backend/weight_model_v2_lite.py:75 | the stripped name neither starts nor ends with white space |
| MaterialDb.Title | backend/weight_model_v2_lite.py:75 | letters that start a word become upper case, other letters lower case, everything else is kept |
| MaterialDb.TitleIdempotent | backend/weight_model_v2_lite.py:75 | title-casing twice changes nothing more |
| MaterialDb.NormalizeIdempotent | backend/weight_model_v2_lite.py:75 | normalising a normalised name changes nothing |
| MaterialDb.NormalizeExample | backend/weight_model_v2_lite.py:75-77 | " mixed WASTE\n" normalises to "Mixed Waste" |
| MaterialDb.Resolve | backend/weight_model_v2_lite.py:75-77 | the normalised name if the table has it, else Mixed Waste |
| MaterialDb.TargetType | backend/weight_model_v2_lite.py:116-118 | the object type if present, else "default" if present |
| MaterialDb.WeightOf | backend/weight_model_v2_lite.py:73-86 | the resolved material's entry for the type, else its "default" entry, else 0.050 |
| MaterialDb.ConfidenceOf | backend/weight_model_v2_lite.py:88-105 | min(50 + 5*count, 95), within [50,95]; 50 for an unknown material, with no Mixed Waste fallback |
| MaterialDb.RunningAvgProduct | backend/weight_model_v2_lite.py:137 | the new average times n+1 is the old total plus the new weight |
| MaterialDb.Bump | backend/weight_model_v2_lite.py:131-143 | the count grows by one, std is kept, and the average is the running average |
| MaterialDb.BumpRange | backend/weight_model_v2_lite.py:142-143 | min and max widen to include the new weight |
| MaterialDb.Updated | backend/weight_model_v2_lite.py:107-148 | an update keeps the set of materials |
| MaterialDb.UpdateIsLocal | backend/weight_model_v2_lite.py:113-143 | only the resolved material's target entry changes, or one entry is added |
| MaterialDb.WeightAfterUpdate | backend/weight_model_v2_lite.py:116-143 | after an update the looked-up weight is the running average, or the new weight for a fresh entry |
| MaterialDb.ConfidenceAfterUpdate | backend/weight_model_v2_lite.py:90-143 | an update raises the confidence of an existing entry by 5, capped at 95 |
| MaterialDb.Replay | backend/weight_model_v2_lite.py:131-143 | k corrections raise the count by k |
| MaterialDb.ReplayAvgOfCell | backend/weight_model_v2_lite.py:134-140 | the stored average follows the running-average recurrence |
| MaterialDb.ReplayIsRunningMean | backend/weight_model_v2_lite.py:137 | after corrections, average times count is the old total plus the sum of the corrections |
| MaterialDb.CorrectionsFromZeroGiveMean | backend/test_v2_lite.py:55-75 | from count 0, the average after k corrections is their mean |
| MaterialDb.UpdatedAll | backend/weight_model_v2_lite.py:107-148 | a sequence of updates keeps the set of materials |
| MaterialDb.UpdatedAllReplays | backend/weight_model_v2_lite.py:107-148 | repeated updates through one name and object type all go to the same existing cell, which ends as the replay of the corrections, and add no object type |
| MaterialDb.WeightAfterCorrections | backend/weight_model_v2_lite.py:73-148 | after a sequence of updates the looked-up weight is the replayed cell's average |
| MaterialDb.DefaultTableLearnsMean | backend/test_v2_lite.py:55-75 | from the seeded table, corrections of a material's "default" weight make the looked-up weight their mean |
| MaterialDb.DefaultTableConfidenceGrows | backend/test_v2_lite.py:55-75 | from the seeded table, n corrections of a known material raise its confidence to min(50 + 5n, 95) |
| MaterialDb.ReplayRange | backend/weight_model_v2_lite.py:142-143 | after corrections, min and max bracket every corrected weight |
| MaterialDb.MaterialWeightDB.constructor | backend/weight_model_v2_lite.py:23-68 | the loaded table, or the seeded defaults |
| MaterialDb.MaterialWeightDB.GetWeight | backend/weight_model_v2_lite.py:73-86 | the stored lookup with its fallbacks |
| MaterialDb.MaterialWeightDB.GetConfidence | backend/weight_model_v2_lite.py:88-105 | the confidence rule of the stored table: min(50 + 5*count, 95) for the resolved cell, 50 for an unknown material |
| MaterialDb.MaterialWeightDB.Update | backend/weight_model_v2_lite.py:107-148 | the table becomes the updated table and still holds Mixed Waste |
| MaterialDb.MaterialWeightDB.GetStats | backend/weight_model_v2_lite.py:158-170 | one cell per stored entry, with a missing min or max reported as 0 |
| MaterialDb.EstimateCount | backend/weight_model_v2_lite.py:183-206 | at least one object |
| MaterialDb.WeightEstimatorV2Lite.constructor | backend/weight_model_v2_lite.py:219-222 | a fresh table holding the loaded table, or the seeded defaults |
| MaterialDb.WeightEstimatorV2Lite.Predict | backend/weight_model_v2_lite.py:224-253 | the weight is unit weight times object count, the unit weight is the table's "default" weight, the confidence is the table's confidence for "default", and the method is "Material Database (Lite)" |
| MaterialDb.WeightEstimatorV2Lite.PredictIgnoresImage | backend/test_v2_lite.py:110-139 | the prediction does not depend on the image |
| MaterialDb.WeightEstimatorV2Lite.UpdateFromCorrection | backend/weight_model_v2_lite.py:255-277 | the count is at least 1, unit times count is the actual weight, and the table gets that unit weight |
| WeightModel.MaterialId | backend/weight_model.py:120-127 | a category's id, and the Mixed Waste id 0 for any other name |
| WeightModel.MaterialIdsDistinct | backend/weight_model.py:120-127 | the six categories have the six distinct ids 0..5 |
| WeightModel.PredictWeight | backend/weight_model.py:133-162 | the network's output for the material's id, or 0.1 when the image cannot be read |
| WeightModel.UnknownMaterialPredictsAsMixed | backend/weight_model.py:150 | an unknown name is predicted as Mixed Waste |
| WeightModel.Count | backend/weight_model.py:274-280 | the count is positive exactly when the material occurs |
| WeightModel.Tally | backend/weight_model.py:274-280 | the loop's map has a key exactly for each occurring material, holding its number of entries |
| WeightModel.Bump | backend/weight_model.py:276-279 | one more entry adds its material as a key, raises its count by one from 0, and keeps every other count |
| WeightModel.BumpInTwoSteps | backend/weight_model.py:276-279 | creating the key at 0 and then adding one is one bump |
| WeightModel.TallySumsToTotal | backend/weight_model.py:274-283 | the per-material counts add up to the number of entries |
| WeightModel.WeightPredictor.constructor | backend/weight_model.py:255-264 | the loaded history |
| WeightModel.WeightPredictor.UpdateWithCorrection | backend/weight_model.py:164-233 | an unreadable image or no steps logs nothing and returns None; otherwise exactly one entry with the material, weight, last loss, steps and rate is appended and the last loss returned |
| WeightModel.WeightPredictor.GetStats | backend/weight_model.py:266-285 | the total is the history length and the materials are the tally; empty history gives no materials and no last update; otherwise the last update is the last entry's timestamp |
| WeightModel.StatsCountEveryMaterial | backend/weight_model.py:274-284 | each material's count is its number of entries and the counts sum to the total |
| WeightModel.AnalyzeWithNetwork | backend/weight_model.py:307-354 | the material defaults to Mixed Waste and is both category and material; the weight is the predictor's; the confidence is 85 and the count 1 |
| Analysis.NamesOf | model.py:37-41 | one class name per box, in order |
| Analysis.ConfSumBounds | model.py:38-42 | confidences within [0,1] sum to at most the number of boxes |
| Analysis.PerItemWeight | model.py:66-75 | a learned weight exists iff the actual sum is non-zero and the object sum positive; it spreads the actual sum over the objects |
| Analysis.HeuristicPerObject | model.py:80-89 | PET 0.05, Cup 0.02, Aluminum 0.015, otherwise 0.1 |
| Analysis.WeightEstimate | model.py:55-93 | no detections give 0; otherwise count times the learned weight, or else count times the fixed constant |
| Analysis.LearnedEstimateScales | model.py:74-79 | the learned estimate times the object sum is count times the actual sum |
| Analysis.FinalChoice | model.py:99-115 | k-NN value with an embedding; else a positive estimate as fallback, or 0; without an embedding the estimate |
| Analysis.FinalWeightNonNegative | model.py:99-115 | with non-negative inputs the final weight is non-negative |
| Analysis.TallyBoxes | model.py:36-43 | the inner loop appends each box's class name, adds its confidence and counts it |
| Analysis.ConfSumAppend | model.py:38-42 | the confidence sum over two runs of boxes is the sum of their sums |
| Analysis.TallyDetections | model.py:28-43 | the nested loop lists every class name in order, sums the confidences and counts the boxes |
| Analysis.EstimateFromDetections | model.py:55-93 | no detections give confidence 0 and estimate 0; otherwise the mean confidence and the estimate `WeightEstimate` states |
| Analysis.ChoosePrediction | model.py:96-115 | the branch over embedding and k-NN result picks what `FinalChoice` states |
| Analysis.AnalyzeImage | model.py:17-126 | a missing detector gives the error record; otherwise the count, the defaults and the user override, "No objects detected", the average confidence as a percentage and the final choice |
| Analysis.ConfidenceIsPercentage | model.py:55-56 | with confidences in [0,1] the reported confidence lies in [0,100] |
| Predictor.Query | predictor.py:17-21 | exactly the scans of the material with a recorded weight and an embedding |
| Predictor.Samples | predictor.py:27-34 | every usable row gives a sample of the query's length and nothing else does |
| Predictor.ChooseK | predictor.py:50-60 | min(n,3) below five samples, 5 from five on, so 1 ≤ k ≤ n |
| Predictor.KnnLabel | predictor.py:56 | the label is "k-NN (k=" followed by the number and ")" |
| Predictor.KnnLabelReadsBack | predictor.py:56 | the number in the label reads back as k |
| Predictor.ParseSamples | predictor.py:27-34 | the parse loop yields the samples `Samples` states: the rows whose embedding decodes to the query's length, in order |
| Predictor.PredictWeight | predictor.py:8-65 | missing input gives "Missing Data"; no usable sample gives "Cold Start"; otherwise the regressor's value with the chosen k and its label |

## Left out

- Storage, App, TrainingDataset: `localStorage` and JSON are left out; the store is an in-memory list.
- Storage, App: date formatting, `Date.now()` and `new Date().toISOString()` are parameters.
- `toFixed` and `round` are modelled only where a bound needs them:
  - hundredths of the fallback estimate;
  - tenths of the stamped accuracy.
- The `toFixed` renderings of totals and averages in the statistics are left out. Those are values the model keeps as exact reals.
- JavaScript numbers are exact reals with NaN. Floating-point rounding, infinities, and the exponential notation of numbers of 1e21 and above are not modelled.
- The text of a JavaScript string is a sequence of characters, not UTF-16 code units. The hash reads each character's code.
- The sin-based `seededRandom`, `Math.log`, `Math.cos`, `Math.sqrt`, `Math.PI` and `Math.random` are parameters. Draws are taken in [0,1).
- `fetch`, `FormData`, `setTimeout`, React state updates, `console.log` and the alert dialogs are left out. The backend response is an input.
- TrainingDataset.SortedData: the order `Array.prototype.sort` gives to keys that are not comparable (NaN weights) is not specified by the language. The model fixes one insertion order. Sortedness is proved only when every key is a number, and stability is not stated.
- TrainingDataset.FooterStatsOf: `toFixed(2)` of the footer values is left out.
- App.CorrectedSeedVaries: states the different seeds for one pair of photos only. Photos of equal length with equal last 50 characters share a seed (App.SameTailSameSeed), and the 32-bit hash has collisions, so no all-pairs statement holds.
- MaterialDb.Title: `str.strip` and `str.title` are modelled for ASCII letters and ASCII/Latin-1 white space only.
- MaterialDb.MaterialWeightDB.constructor requires a loaded table to contain Mixed Waste. Without it `get_weight` raises a `KeyError`, and that path is not modelled.
- MaterialDb: saving the JSON file and printing are left out. `round(…, 3)` in `get_stats` and `predict` is not modelled.
- MaterialDb.EstimateCount: states only n ≥ 1. The source returns 1 on both of its branches, and the image analysis behind the count is left out.
- WeightModel: the network, its training steps, the optimiser, image loading and the saving of model and history are parameters or are left out. `lossAt` stands for the loss of each step.
- WeightModel.AnalyzeWithNetwork: the outer "Fallback" branch is not modelled because `predict` catches its own errors, so it cannot be reached. The feature extractor's embedding is an input.
- Analysis: the YOLO detector, the SQL sums, the feature extractor and `predict_weight` are inputs, and `round` of the returned weight and confidence is left out. A missing database session, which `predict_weight` would dereference, is not modelled.
- Predictor: the SQL query order, `json.loads` (a `decode` parameter) and `KNeighborsRegressor` (a `regress` parameter) are abstracted. The regressor's result is not constrained.
- `main.py`, `database.py`, the feature extractor and the UI components outside the named files are not part of this model.

## Findings

| source | as written | input that shows it | evidently intended | confidence | as-written member | corrected member |
|---|---|---|---|---|---|---|
| src/App.jsx:96-100 | the fallback seed hashes the `image` state captured when the handler was created; the uploader that calls the handler is only shown while `image` is empty (src/App.jsx:288-292), so the seed is always 0 or the hash of "" | any two different photos of a category with history get the same z-score and hence the same estimate | the seed is computed from the photo passed to the handler (`imgData`), so that the same photo gets the same estimate and different photos usually differ | not executed | App.HandleImageSelected, App.StaleImageSeed | App.HandleImageSelectedCorrected, App.CorrectedSeedVaries |

# ft_linear_regression in Dafny

This project models the core of `ft_linear_regression`, a small Go program that predicts a car's price from its mileage with a one-variable linear model. It has two parts:

- The trainer (`train.go`, and a second copy `main.go`) z-scores the mileages, runs up to 1000 epochs of batch gradient descent with learning rate 0.001, and stops early once two consecutive mean absolute losses differ by less than 1e-7. It then maps the coefficients back to raw kilometres and reports R², MAE, RMSE and the mean price.
- The predictor (`predict.go`) reads `theta0,theta1` from the first line of the `thetas` file. It reads one mileage from standard input, rejects a negative mileage, and shows a negative estimate as 0 with a note.

All arithmetic is over `real`. Every statement below is exact algebra or control flow about the program as written.

Modules, one per concern:

| file | module | models |
|---|---|---|
| `wrappers.dfy` | `Wrappers` | `Option` and `Result` |
| `sums.dfy` | `Sums` | left-to-right sums, the point-wise maps summed over, their algebra |
| `linear_model.dfy` | `LinearModel` | the `(theta0, theta1)` record and `estimatePrice` |
| `standardizer.dfy` | `Standardizer` | `standardize` and the unscale step of `train` |
| `gradient.dfy` | `Gradient` | `calculateError` |
| `training.dfy` | `Training` | the epoch loop of `train`, `createLinearRegression` + `train` |
| `metrics.dfy` | `Metrics` | the arithmetic of `calculatePrecision` |
| `text.dfy` | `Text` | `strings.Split`, `strings.TrimSpace`, the first `bufio.Scanner` line |
| `thetas.dfy` | `Thetas` | `loadThetas` once the file is open |
| `predictor.dfy` | `Predictor` | the decisions of the predictor's `main` |

`train.go` and `main.go` are two standalone programs that carry the same `standardize`, `calculateError` and `train`. These are modelled once. The table cites both files.

The `math.Sqrt` of the population variance is a parameter `sqrt`. Only its value at the variance is constrained: it must be positive, and its square must be the variance. `strconv.ParseFloat` is a parameter `parse: string -> Option<real>`, where `None` is a parse error. The contents of the `thetas` file and of standard input are parameters too.

## Model

| member | source | states |
|---|---|---|
| Sums.SumInOrder | train.go:82-88 | the `sum += m` loop over the mileages computes the left-to-right sum of the slice; main.go:77-83 is the same loop |
| Sums.VarianceNonNegative | train.go:93-98 | the population variance whose square root becomes the standard deviation is never negative |
| Standardizer.Standardize | train.go:81-105 | mean times n is the sum of the raw mileages; the standard deviation is positive and squares to the population variance; z-scores have the raw length with `z[i] = (x[i] - mean) / stddev`; the prices are carried over unchanged |
| Standardizer.SquaredDeviationsLoop | main.go:88-93 | the `variance += diff * diff` loop sums the squared deviations from the given mean |
| Standardizer.ZScoresLoop | main.go:95-98 | the append loop yields one z-score per raw mileage, index for index |
| Standardizer.StandardizedMoments | train.go:100-104 | the standardized mileages have mean 0 and population variance 1 |
| Standardizer.ZScoresTimesStddev | train.go:100-103 | multiplying the z-scores back by the standard deviation gives the deviations from the mean |
| Standardizer.Unscale | train.go:149-151 | the raw-space model predicts, for every mileage x, what the standardized model predicts at `(x - mean) / stddev` |
| Standardizer.Rescale | main.go:144-146 | reference inverse of the unscale step, with no counterpart in the source: a raw-space model read back against z-scored input predicts what it predicts at `mean + stddev * z` |
| Standardizer.UnscaleRescaleInverse | train.go:149-151 | unscaling and rescaling undo each other in both orders |
| Standardizer.UnscaleUnique | main.go:144-146 | the unscaled model is the only raw-space line that agrees with the standardized model at `x = mean` and at `x = mean + stddev` |
| Gradient.CalculateError | train.go:107-123 | the loop keeps its three running sums equal to the reference fold after i samples; t0error is the sum of the residuals `prediction - price`; t1error is the sum of residual times z-score; the loss is the sum of absolute residuals divided by n, and is non-negative; main.go:102-118 is the same function |
| Gradient.AccumulateSums | train.go:112-119 | after the first n samples the reference fold holds the sums of the first n residuals, residuals times z-scores, and absolute residuals |
| Gradient.ErrorsOfSums | train.go:113-122 | the reference result is the sum of the residuals, the sum of residuals times z-scores, and the sum of absolute residuals over n |
| Gradient.InterceptGradientClosedForm | train.go:113-116 | the intercept gradient equals `n·θ0 + θ1·Σz − Σp` |
| Gradient.SlopeGradientClosedForm | train.go:113-117 | the slope gradient equals `θ0·Σz + θ1·Σz² − Σp·z` |
| Gradient.StandardizedGradients | main.go:107-112 | on standardized mileages (Σz = 0, Σz² = n) the gradients are `n·θ0 − Σp` and `n·θ1 − Σp·z` |
| Gradient.GradientVanishesAtLeastSquares | train.go:107-122 | on standardized mileages both gradients vanish exactly when the model solves the normal equations `n·θ0 = Σp`, `n·θ1 = Σp·z` |
| Training.History | train.go:129-133 | the loss history after k epochs has k entries |
| Training.HistoryEntries | train.go:129-133 | entry i of the loss history is the loss of the model before update i, and is non-negative |
| Training.Train | train.go:125-147 | `TrainedOn`: the loop ends with 1 to 1000 losses, equal to the reference history; the model is the one after that many epochs; the early exit fired exactly when the last two losses are within tolerance; a run that reaches the cap ran 1000 epochs; no earlier adjacent pair was within tolerance; main.go:120-142 is the same loop |
| Training.HistoryAppendOnly | train.go:133 | the history is only ever appended to: its first j entries after k epochs are the history after j epochs |
| Training.NoConvergenceAtFirstEpoch | train.go:135 | a single loss never satisfies the early-exit test |
| Training.UpdateFixedPoint | train.go:131-132 | an update leaves the model unchanged exactly when both gradient sums are zero |
| Training.EpochFixedPoint | main.go:124-127 | on standardized mileages an epoch leaves the model unchanged exactly when the model solves the least-squares normal equations |
| Training.Epoch | train.go:130-133 | one epoch takes the model after k updates to the model after k + 1, computing the errors from the model before the update, and records that model's loss, which is non-negative |
| Training.TrainAndUnscale | train.go:125-152 | the loop's result satisfies `TrainedOn` (same stopping epoch, history and model as `Train`); after the unscale step the raw-space model predicts, for every mileage, what the trained model predicts at its z-score; main.go:120-147 is the same code |
| Training.Fit | train.go:34-46 | creating the regression and training it standardizes the data, keeps the prices, runs the loop to the `TrainedOn` stopping epoch from the zero model, and yields a raw-space model that agrees with the trained model at every mileage |
| Metrics.AccumulateFit | train.go:181-189 | the accumulation loop yields the residual sum of squares, the total sum of squares about the given mean, the sum of absolute residuals, and an MSE accumulator equal to the residual sum of squares |
| Metrics.CalculatePrecision | train.go:165-195 | the mean price is the mean; MAE and MSE are non-negative; n·MSE = ssRes; ssTot > 0; `R² = 1 − ssRes/ssTot` is at most 1, and equals 1 exactly when the model reproduces every price |
| Metrics.ZeroResidualsIffPerfectFit | train.go:182-185 | the residual sum of squares is zero exactly when every prediction equals its price |
| Metrics.OneMinusRatio | train.go:195 | with a positive denominator, `1 − a/b` is 1 exactly when a is 0, and at most 1 when a is non-negative |
| LinearModel.PredictIsLine | predict.go:47-49 | an estimate is the line with intercept theta0 and constant slope theta1 |
| Text.IndexOf | predict.go:29 | the first occurrence of a character: none before it, the character at it, and the end exactly when it is absent |
| Text.Split | predict.go:29 | splitting on a comma yields one more piece than there are commas; no piece contains a comma; joining the pieces with commas restores the line |
| Text.SplitJoin | predict.go:29 | splitting a comma-join of comma-free pieces gives the pieces back |
| Text.SplitPair | predict.go:29-30 | `a,b` with comma-free a and b splits into exactly the two pieces a and b |
| Text.TrimSpace | predict.go:34 | the trimmed text is the slice of the input from its first to its last non-space character; only white space lies outside it; it is empty exactly when the input is all white space |
| Text.TrimSpacePadded | predict.go:39 | white space around a text that neither starts nor ends with white space is exactly what trimming removes |
| Text.TrimSpaceIdempotent | predict.go:34 | trimming twice is trimming once |
| Text.TrimSpaceTrailing | predict.go:72 | trailing white space, including the line feed `ReadString` keeps, does not change the trimmed text |
| Text.FirstLine | predict.go:23-28 | the scanner yields no line exactly for empty content; a line contains no line feed and is a prefix of the content |
| Text.FirstLineOfLine | predict.go:23-28 | a line followed by a line feed, a CR-LF pair, a final CR or the end of the content is the scanned first line |
| Thetas.SplitOneComma | predict.go:29-31 | a line with exactly one comma splits into the texts before and after it |
| Thetas.LoadThetas | predict.go:23-44 | empty content is an empty-file error; a first line without exactly one comma is a format error; a field before the comma that does not parse fails theta0; otherwise a field after it that does not parse fails theta1; otherwise both trimmed fields parse to the loaded coefficients |
| Thetas.StoredLineLoads | predict.go:28-44 | a first line `a,b` of two comma-free tokens, as the trainer's `storeThetas` writes it, passes the arity check and loads as the model the tokens denote |
| Predictor.Report | predict.go:84-91 | the shown price is never negative and never below the estimate; it is 0 or the estimate; it is flagged exactly when the estimate is negative, and then it is 0 |
| Predictor.ReadLine | predict.go:65-69 | reading fails exactly when the input has no line feed; otherwise it yields the first line with its line feed, a prefix of the input |
| Predictor.Ask | predict.go:65-91 | once the model is loaded: a missing line feed is a read error; an unparsable entry is an invalid mileage; a negative mileage is rejected; otherwise the quote is the report for that model at the entered mileage |
| Predictor.Run | predict.go:51-91 | the run ends with a load error exactly when loading fails, and then with that error; a missing line feed is a read error; an unparsable entry is an invalid mileage; a negative mileage is rejected before any estimate; otherwise the quote is the report for the loaded model at the entered mileage |

## Left out

- Reading `data.csv` (`readData`: header skip, row arity, `ParseFloat` of each cell) is file I/O plus a foreign parser. The model starts from the two parsed columns.
- Opening, creating and writing the `thetas` file is I/O. The `%f` formatting in `storeThetas` rounds to six decimals, so no numeric round trip is stated. `StoredLineLoads` covers only the line's shape.
- Every `fmt.Print*` line is output only and is not modelled. This includes the progress line every 50 epochs, the messages after `calculatePrecision`, and the model and estimate messages of the predictor.
- The plotting functions (`plotDataPoints`, `plotRegression`) use an external plotting library and are not modelled.
- IEEE-754 rounding, NaN and infinities are not modelled, because the model is over `real`. `math.Abs` is exact absolute value. `math.Pow(x, 2)` is exact squaring.
- `math.Sqrt` is a parameter constrained only at the variance. The RMSE (`math.Sqrt(mse)`) is not computed, because nothing else depends on it.
- Standardizer.Standardize: requires at least one mileage and a positive standard deviation. The source does not guard either case; it would divide by zero, and the model makes these preconditions rather than invent error results.
- Training.TrainAndUnscale: requires a positive standard deviation, for the same reason.
- Metrics.CalculatePrecision: requires at least one price and a non-zero total sum of squares. The source divides by both without a check.
- Gradient.CalculateError: requires at least one sample; the source divides by the sample count without a check.
- Metrics.CalculatePrecision: also requires equal-length mileage and price columns. The source indexes prices by the mileage index, and `readData` always appends to both together.
- Text.FirstLine: `bufio.Scanner` gives up on a line longer than its 64 KiB buffer, and that is not modelled. Nor is invalid UTF-8. Text is a sequence of Unicode code points.
- Opening the `thetas` file is not modelled. Its failure branch at predict.go:19 returns one value from a two-result function, so `predict.go` does not compile as written.
- main.go:169 prints `err` instead of `err1` when storing fails. This is output only and not modelled.
- The training loss is the mean absolute residual, while the update follows the gradient of the sum of squared residuals. The model keeps both exactly as written. The early-exit test therefore watches a different quantity from the one being descended.

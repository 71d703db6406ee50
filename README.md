# Ensemble probability combiner (sits, `combine_data.cpp`)

This project models the three routines that fold a list of per-classifier probability
matrices into one consensus matrix. In each matrix the rows are samples and the columns
are classes. The routines are:

- `average_probs`: adds the matrices up, then divides every cell by the number of classifiers.
- `weighted_probs`: adds the matrices scaled by one weight per classifier.
- `weighted_uncert_probs`: works in three phases.
  1. It builds a per-sample certainty mass from column 0 of each classifier's uncertainty matrix.
  2. It builds a per-sample, per-classifier weight table as each classifier's share of that mass.
  3. It accumulates the weighted cells.

Each routine allocates a zeroed output matrix shaped like the first input matrix and
updates it in place; the accumulation loops run over classifier, row and column, while
the `sum_unc` and `weights` loops of `weighted_uncert_probs` run over classifier and row
only. All three routines add the FIRST matrix of the list: `average_probs` and
`weighted_probs` load `data_lst[c]` as `mat1` and never read it, and
`weighted_uncert_probs` never loads a per-classifier prediction matrix at all (its
per-classifier loads are the uncertainty matrices, which it reads). The model keeps that
behaviour as written, so the proved outputs are:

- `average_probs` returns the first matrix.
- `weighted_probs` returns the first matrix times the sum of the weights.
- `weighted_uncert_probs` returns each row of the first matrix unchanged when that row's
  certainty mass is non-zero, and non-finite values when it is zero.

The model has two modules:

- `Sums` (`sums.dfy`) defines finite sums of reals and the certainty shares, and proves
  lemmas about them: where a sample's certainty mass is non-zero its shares sum to one,
  and when every uncertainty is also at most 1 each share lies in [0, 1]; sums scale and
  divide linearly. Uncertainties are not checked to lie in [0, 1], so without that
  condition a share can fall outside [0, 1] (uncertainties 1.5 and 0 give shares -1 and 2).
- `CombineData` (`combine_data.dfy`) holds the routines as methods over `array2<real>`.
  Their loops carry invariants stated with the functions of `Sums`. Each inner pass
  over the cells is its own method, with a contract that gives every cell's new value.

Numbers are Dafny `real`s. The only floating-point effect the model keeps is what the
division `(1 - unc(i,0)) / sum_unc(i)` produces when `sum_unc(i)` is zero. The datatype
`Double` represents that result as a non-finite value, which absorbs every later
addition and multiplication.

No routine writes to its inputs. No method that models a routine has a `modifies`
clause on an input array, so Dafny's frame checking guarantees this. These methods
change only the matrices and vectors they allocate themselves.

## Model

| member | source | states |
|---|---|---|
| `CombineData.AverageProbs` | src/combine_data.cpp:9-29 | fresh matrix with the first matrix's dimensions; every cell equals the first matrix's cell: the first matrix is added once per classifier, then divided by the classifier count |
| `CombineData.AddMatrix` | src/combine_data.cpp:20-22 | every cell of the output gains the first matrix's cell; nothing else changes |
| `CombineData.DivideCells` | src/combine_data.cpp:24-26 | every cell is divided by the classifier count |
| `CombineData.WeightedProbs` | src/combine_data.cpp:35-52 | fresh matrix with the first matrix's dimensions; each cell is (weights(0) + … + weights(n-1)) times the first matrix's cell; the loop invariant gives the partial weight sum after each classifier |
| `CombineData.AddScaledMatrix` | src/combine_data.cpp:46-48 | every cell gains weights(c) times the first matrix's cell |
| `CombineData.WeightedStep` | src/combine_data.cpp:44-49 | adding weights(c) * mat(i,j) extends each cell's partial weighted sum by classifier c |
| `CombineData.WeightedComplete` | src/combine_data.cpp:44-51 | after all n classifiers, a cell holding m holds the sum of the weights times m |
| `CombineData.AverageIgnoresLaterMatrices` | src/combine_data.cpp:19-22 | two lists whose first matrices agree average to equal results, whatever the later matrices hold |
| `CombineData.WeightedIgnoresLaterMatrices` | src/combine_data.cpp:45-48 | two lists of equal length whose first matrices agree, with the same weights, give equal results |
| `CombineData.UncertIgnoresLaterMatrices` | src/combine_data.cpp:83-87 | two lists of equal length whose first matrices agree, with the same uncertainties, give equal results |
| `CombineData.Add` | src/combine_data.cpp:86 | floating-point addition: non-finite exactly when an operand is, otherwise the exact sum |
| `CombineData.Mul` | src/combine_data.cpp:86 | floating-point multiplication: non-finite exactly when an operand is, otherwise the exact product |
| `CombineData.Quotient` | src/combine_data.cpp:80 | division is non-finite exactly when the divisor is zero, otherwise the quotient times the divisor gives back the dividend |
| `CombineData.UncertaintyShape` | src/combine_data.cpp:72-78 | the shapes the routine trusts its caller to supply: at least n uncertainty matrices, each with at least nrows rows and a column 0 |
| `CombineData.Certainties` | src/combine_data.cpp:72-74 | sample i's certainties are 1 - unc_c(i,0) for each of the n classifiers; only column 0 is read |
| `CombineData.AddCertainties` | src/combine_data.cpp:73-75 | every sample's mass gains 1 - unc(i,0) of one classifier |
| `CombineData.CertaintyMass` | src/combine_data.cpp:67-76 | fresh vector of length nrows; entry i is the sum over classifiers of 1 - unc_c(i,0) |
| `CombineData.CertaintyStep` | src/combine_data.cpp:71-75 | adding classifier c's certainty 1 - unc_c(i,0) extends every sample's partial mass by one term |
| `CombineData.CertaintyComplete` | src/combine_data.cpp:71-76 | after all n classifiers each sample's partial mass is its whole certainty mass |
| `CombineData.FillWeights` | src/combine_data.cpp:79-81 | column c of the weight table becomes (1 - unc(i,0)) / sum_unc(i); every other column is unchanged |
| `CombineData.ClassifierWeights` | src/combine_data.cpp:68-82 | fresh nrows × n table; weights(i,c) = (1 - unc_c(i,0)) / sum_unc(i), non-finite where sum_unc(i) is zero |
| `CombineData.AddWeightedCells` | src/combine_data.cpp:84-86 | every cell gains weights(i,c) times the first matrix's cell, in floating point |
| `CombineData.AccumulateWeighted` | src/combine_data.cpp:83-87 | from a zeroed matrix, each cell becomes the left-to-right floating-point sum over c of weights(i,c) * mat(i,j) |
| `CombineData.Quotients` | src/combine_data.cpp:79-80 | a sample's weight row: entry c is certainty c divided by the sample's mass, as floating-point division |
| `CombineData.Row` | src/combine_data.cpp:86 | row i of the weight table, entry c being the weights(i,c) the accumulation reads for sample i |
| `CombineData.WeightedSum` | src/combine_data.cpp:83-87 | one cell's left-to-right floating-point accumulation from zero of weights(i,c) * mat(i,j); it is finite exactly when every weight of the row is |
| `CombineData.WeightedSumStep` | src/combine_data.cpp:86 | one more classifier's term extends the accumulated cell |
| `CombineData.Finites` | src/combine_data.cpp:80 | a row of finite weights, one per certainty share |
| `CombineData.WeightedSumFinite` | src/combine_data.cpp:83-87 | with all weights finite, the accumulated cell is the exact sum of the weighted terms |
| `CombineData.WeightedSumNonFinite` | src/combine_data.cpp:80-86 | one non-finite weight makes the accumulated cell non-finite |
| `CombineData.UncertCell` | src/combine_data.cpp:77-87 | with non-zero certainty mass a cell equals the first matrix's value times the sum of the sample's weights, which is the value itself; with zero mass it is non-finite |
| `CombineData.UncertComplete` | src/combine_data.cpp:67-87 | given the mass vector, weight table and accumulated cells of the three phases, each cell is the first matrix's value where the sample's mass is non-zero and non-finite where it is zero |
| `CombineData.WeightRowSumsToOne` | src/combine_data.cpp:77-82 | where the certainty mass is non-zero, a sample's weights (as floating-point values, added up left to right) sum to one |
| `CombineData.WeightedUncertProbs` | src/combine_data.cpp:59-90 | fresh matrix with the first matrix's dimensions; rows with non-zero certainty mass equal the first matrix's row; rows with zero mass are non-finite |
| `Sums.Sum` | src/combine_data.cpp:71-76 | the left-to-right sum behind sum_unc and behind every cell accumulated at lines 18-22 and 44-49; the empty sum is zero and one term is its own sum |
| `Sums.PrefixSum` | src/combine_data.cpp:18-22 | the sum of the first c terms, the value a cell holds after c classifiers; zero before any classifier |
| `Sums.PrefixSumStep` | src/combine_data.cpp:18-22 | extending a prefix by one term adds that term to its sum, the step of every accumulation loop |
| `Sums.PrefixSumWhole` | src/combine_data.cpp:18-23 | the prefix of full length is the whole sum, which holds when an accumulation loop exits |
| `Sums.Repeat` | src/combine_data.cpp:18-22 | the terms added to one cell by average_probs: n copies of the first matrix's cell |
| `Sums.SumRepeat` | src/combine_data.cpp:18-23 | adding a cell up n times gives n times the cell |
| `Sums.RepeatAverage` | src/combine_data.cpp:24-26 | for n >= 1, dividing n copies' sum by n gives the cell back |
| `Sums.Scaled` | src/combine_data.cpp:48 | every weight times the first matrix's cell |
| `Sums.SumScaled` | src/combine_data.cpp:44-49 | the sum of the scaled terms is the weight sum times the cell |
| `Sums.ScaledPrefixWhole` | src/combine_data.cpp:44-49 | all n scaled terms add up to the weight sum times the cell |
| `Sums.Divided` | src/combine_data.cpp:80 | every certainty divided by the sample's mass |
| `Sums.SumDivided` | src/combine_data.cpp:77-82 | dividing every term by d divides the sum by d |
| `Sums.Shares` | src/combine_data.cpp:80 | a sample's weights: one per classifier |
| `Sums.SharesSumToOne` | src/combine_data.cpp:77-82 | where the certainty mass is non-zero, the weights of a sample sum to one |
| `Sums.TermAtMostSum` | src/combine_data.cpp:74 | a sum of non-negative certainties is non-negative and bounds each certainty |
| `Sums.QuotientInUnit` | src/combine_data.cpp:80 | arithmetic helper for `Sums.SharesConvex`: a non-negative dividend at most a positive divisor gives a quotient in [0, 1]; it bounds each weight of line 80 |
| `Sums.SharesConvex` | src/combine_data.cpp:77-82 | with non-negative certainties (every uncertainty at most 1) and non-zero mass, each weight lies in [0, 1] and the weights sum to one; where the mass is zero the weights are non-finite instead |

## Left out

- The Rcpp glue is not modelled: the `List`, `NumericMatrix` and `NumericVector` conversions and the R export bindings. Lists of matrices are `seq<array2<real>>`, and the weight vector is a `seq<real>`.
- IEEE rounding and overflow are not modelled; values are exact reals. Over doubles, n additions followed by a division by n need not return the first matrix bit for bit.
- NaN and the infinities are not told apart; both are `NonFinite`. Non-finite input values are not modelled either: every input cell is a finite real.
- Malformed input appears as preconditions instead of out-of-range access:
  - an empty list (`|data| >= 1`);
  - a weight vector shorter than the list;
  - too few uncertainty matrices, or ones with too few rows or no column.
  The shapes of matrices after the first are not required, since they are never read. A longer weight vector or uncertainty list is allowed; only its first n entries are read.
- integer width: the classifier count is a C `int` converted to double before the division. The model divides by the exact count, so lists longer than 2^31 - 1 are not modelled.
- A "true average" variant that reads the per-iteration matrix is not modelled, because the routines do not compute one.

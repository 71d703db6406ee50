/** The ensemble combiner: three ways of folding a list of per-classifier probability
    matrices (rows are samples, columns are classes) into one consensus matrix.
    As in combine_data.cpp, all three routines add the FIRST matrix of the list:
    average_probs and weighted_probs load the current classifier's matrix as `mat1` and
    never read it, and weighted_uncert_probs never loads a per-classifier prediction
    matrix at all (its per-classifier loads are the uncertainty matrices, which it reads). */
module CombineData {
  import opened Sums

  /** A double-precision value as the uncertainty weighting produces it: either a finite
      value (held exactly, as a real) or a non-finite one (NaN or an infinity). */
  datatype Double = Finite(value: real) | NonFinite

  /** Floating-point addition: a non-finite operand makes the result non-finite. */
  function Add(x: Double, y: Double): (r: Double)
    ensures r.NonFinite? <==> x.NonFinite? || y.NonFinite?
    ensures r.Finite? ==> r.value == x.value + y.value
  {
    if x.Finite? && y.Finite? then Finite(x.value + y.value) else NonFinite
  }

  /** Floating-point multiplication: a non-finite operand makes the result non-finite
      (an infinity times zero is NaN). */
  function Mul(x: Double, y: Double): (r: Double)
    ensures r.NonFinite? <==> x.NonFinite? || y.NonFinite?
    ensures r.Finite? ==> r.value == x.value * y.value
  {
    if x.Finite? && y.Finite? then Finite(x.value * y.value) else NonFinite
  }

  /** Floating-point division of finite values: dividing by zero gives NaN (0/0) or an
      infinity, otherwise the exact quotient. */
  function Quotient(a: real, b: real): (r: Double)
    ensures r.NonFinite? <==> b == 0.0
    ensures r.Finite? ==> r.value * b == a
  {
    if b == 0.0 then NonFinite else Finite(a / b)
  }

  // ---------------------------------------------------------------------------
  // Passes over every cell of an output matrix (the inner loops over i and j)

  /** new_data(i, j) += mat(i, j) for every cell. */
  method AddMatrix(newData: array2<real>, mat: array2<real>)
    requires newData.Length0 == mat.Length0 && newData.Length1 == mat.Length1
    requires newData != mat
    modifies newData
    ensures forall i, j :: 0 <= i < newData.Length0 && 0 <= j < newData.Length1 ==>
              newData[i, j] == old(newData[i, j]) + mat[i, j]
  {
    for i := 0 to newData.Length0
      invariant forall i', j :: 0 <= i' < newData.Length0 && 0 <= j < newData.Length1 ==>
                  newData[i', j] == if i' < i then old(newData[i', j]) + mat[i', j] else old(newData[i', j])
    {
      for j := 0 to newData.Length1
        invariant forall i', j' :: 0 <= i' < newData.Length0 && 0 <= j' < newData.Length1 ==>
                    newData[i', j'] == if i' < i || (i' == i && j' < j) then old(newData[i', j']) + mat[i', j']
                                       else old(newData[i', j'])
      {
        newData[i, j] := newData[i, j] + mat[i, j];
      }
    }
  }

  /** new_data(i, j) += weight * mat(i, j) for every cell. */
  method AddScaledMatrix(newData: array2<real>, mat: array2<real>, weight: real)
    requires newData.Length0 == mat.Length0 && newData.Length1 == mat.Length1
    requires newData != mat
    modifies newData
    ensures forall i, j :: 0 <= i < newData.Length0 && 0 <= j < newData.Length1 ==>
              newData[i, j] == old(newData[i, j]) + weight * mat[i, j]
  {
    for i := 0 to newData.Length0
      invariant forall i', j :: 0 <= i' < newData.Length0 && 0 <= j < newData.Length1 ==>
                  newData[i', j] == if i' < i then old(newData[i', j]) + weight * mat[i', j]
                                    else old(newData[i', j])
    {
      for j := 0 to newData.Length1
        invariant forall i', j' :: 0 <= i' < newData.Length0 && 0 <= j' < newData.Length1 ==>
                    newData[i', j'] == if i' < i || (i' == i && j' < j) then old(newData[i', j']) + weight * mat[i', j']
                                       else old(newData[i', j'])
      {
        newData[i, j] := newData[i, j] + weight * mat[i, j];
      }
    }
  }

  /** new_data(i, j) /= n for every cell. */
  method DivideCells(newData: array2<real>, n: real)
    requires n != 0.0
    modifies newData
    ensures forall i, j :: 0 <= i < newData.Length0 && 0 <= j < newData.Length1 ==>
              newData[i, j] == old(newData[i, j]) / n
  {
    for i := 0 to newData.Length0
      invariant forall i', j :: 0 <= i' < newData.Length0 && 0 <= j < newData.Length1 ==>
                  newData[i', j] == if i' < i then old(newData[i', j]) / n else old(newData[i', j])
    {
      for j := 0 to newData.Length1
        invariant forall i', j' :: 0 <= i' < newData.Length0 && 0 <= j' < newData.Length1 ==>
                    newData[i', j'] == if i' < i || (i' == i && j' < j) then old(newData[i', j']) / n
                                       else old(newData[i', j'])
      {
        newData[i, j] := newData[i, j] / n;
      }
    }
  }

  // ---------------------------------------------------------------------------
  // average_probs

  /** Sums the first matrix once per classifier, then divides every cell by the number
      of classifiers: the result is the first matrix. */
  method AverageProbs(data: seq<array2<real>>) returns (newData: array2<real>)
    requires |data| >= 1
    ensures fresh(newData)
    ensures newData.Length0 == data[0].Length0 && newData.Length1 == data[0].Length1
    ensures forall i, j :: 0 <= i < newData.Length0 && 0 <= j < newData.Length1 ==>
              newData[i, j] == data[0][i, j]
  {
    var nClassifiers := |data|;
    var mat := data[0];
    var nrows, ncols := mat.Length0, mat.Length1;
    newData := new real[nrows, ncols]((_, _) => 0.0);
    // after classifier c, cell (i, j) holds mat(i, j) added up c times
    for c := 0 to nClassifiers
      modifies newData
      invariant forall i, j :: 0 <= i < nrows && 0 <= j < ncols ==>
                  newData[i, j] == PrefixSum(Repeat(mat[i, j], nClassifiers), c)
    {
      var mat1 := data[c];  // loaded and never read, as in combine_data.cpp
      forall i, j | 0 <= i < nrows && 0 <= j < ncols
        ensures PrefixSum(Repeat(mat[i, j], nClassifiers), c + 1)
                == PrefixSum(Repeat(mat[i, j], nClassifiers), c) + mat[i, j]
      {
        PrefixSumStep(Repeat(mat[i, j], nClassifiers), c);
      }
      AddMatrix(newData, mat);
    }
    forall i, j | 0 <= i < nrows && 0 <= j < ncols
      ensures PrefixSum(Repeat(mat[i, j], nClassifiers), nClassifiers) / (nClassifiers as real) == mat[i, j]
    {
      PrefixSumWhole(Repeat(mat[i, j], nClassifiers));
      RepeatAverage(mat[i, j], nClassifiers);
    }
    DivideCells(newData, nClassifiers as real);
  }

  // ---------------------------------------------------------------------------
  // weighted_probs

  /** Adds the first matrix scaled by each classifier's weight: the result is the first
      matrix times the sum of the weights. */
  method WeightedProbs(data: seq<array2<real>>, weights: seq<real>) returns (newData: array2<real>)
    requires |data| >= 1
    requires |weights| >= |data|
    ensures fresh(newData)
    ensures newData.Length0 == data[0].Length0 && newData.Length1 == data[0].Length1
    ensures forall i, j :: 0 <= i < newData.Length0 && 0 <= j < newData.Length1 ==>
              newData[i, j] == Sum(weights[..|data|]) * data[0][i, j]
  {
    var nClassifiers := |data|;
    var mat := data[0];
    var nrows, ncols := mat.Length0, mat.Length1;
    ghost var w := weights[..nClassifiers];
    newData := new real[nrows, ncols]((_, _) => 0.0);
    // after classifier c, cell (i, j) holds weights(0) * mat(i, j) + ... + weights(c-1) * mat(i, j)
    for c := 0 to nClassifiers
      modifies newData
      invariant forall i, j :: 0 <= i < nrows && 0 <= j < ncols ==>
                  newData[i, j] == PrefixSum(Scaled(w, mat[i, j]), c)
    {
      var mat1 := data[c];  // loaded and never read, as in combine_data.cpp
      WeightedStep(w, c, mat);
      AddScaledMatrix(newData, mat, weights[c]);
    }
    WeightedComplete(w);
  }

  /** Adding weights(c) * mat(i, j) extends every cell's partial sum by one term. */
  lemma WeightedStep(w: seq<real>, c: nat, mat: array2<real>)
    requires c < |w|
    ensures forall i, j :: 0 <= i < mat.Length0 && 0 <= j < mat.Length1 ==>
              PrefixSum(Scaled(w, mat[i, j]), c + 1) == PrefixSum(Scaled(w, mat[i, j]), c) + w[c] * mat[i, j]
  {
    forall i, j | 0 <= i < mat.Length0 && 0 <= j < mat.Length1
      ensures PrefixSum(Scaled(w, mat[i, j]), c + 1) == PrefixSum(Scaled(w, mat[i, j]), c) + w[c] * mat[i, j]
    {
      var m := mat[i, j];
      PrefixSumStep(Scaled(w, m), c);
      assert PrefixSum(Scaled(w, m), c + 1) == PrefixSum(Scaled(w, m), c) + w[c] * m;
    }
  }

  /** With every weighted term added, a cell holding m holds the sum of the weights times m. */
  lemma WeightedComplete(w: seq<real>)
    ensures forall m :: PrefixSum(Scaled(w, m), |w|) == Sum(w) * m
  {
    forall m
      ensures PrefixSum(Scaled(w, m), |w|) == Sum(w) * m
    {
      ScaledPrefixWhole(w, m);
    }
  }

  // ---------------------------------------------------------------------------
  // weighted_uncert_probs

  /** The uncertainty list covers the first n classifiers, each with at least nrows rows
      and a column 0. */
  predicate UncertaintyShape(unc: seq<array2<real>>, n: nat, nrows: nat)
  {
    n <= |unc| && forall c :: 0 <= c < n ==> unc[c].Length0 >= nrows && unc[c].Length1 >= 1
  }

  /** The certainties 1 - unc_c(i, 0) of the first n classifiers for sample i; only
      column 0 of an uncertainty matrix is consulted. */
  function Certainties(unc: seq<array2<real>>, n: nat, i: nat): (cert: seq<real>)
    requires UncertaintyShape(unc, n, i + 1)
    reads unc
    ensures |cert| == n
    ensures forall c :: 0 <= c < n ==> cert[c] == 1.0 - unc[c][i, 0]
  {
    seq(n, c requires 0 <= c < n reads unc => 1.0 - unc[c][i, 0])
  }

  /** sum_unc(i) += 1 - unc(i, 0) for every sample, for one classifier's uncertainties. */
  method AddCertainties(sumUnc: array<real>, u: array2<real>)
    requires u.Length0 >= sumUnc.Length && u.Length1 >= 1
    modifies sumUnc
    ensures forall i :: 0 <= i < sumUnc.Length ==> sumUnc[i] == old(sumUnc[i]) + (1.0 - u[i, 0])
  {
    for i := 0 to sumUnc.Length
      invariant forall i' :: 0 <= i' < sumUnc.Length ==>
                  sumUnc[i'] == if i' < i then old(sumUnc[i']) + (1.0 - u[i', 0]) else old(sumUnc[i'])
    {
      sumUnc[i] := sumUnc[i] + (1.0 - u[i, 0]);
    }
  }

  /** First phase: the per-sample certainty mass sum_unc(i) = sum over c of (1 - unc_c(i, 0)). */
  method CertaintyMass(unc: seq<array2<real>>, n: nat, nrows: nat) returns (sumUnc: array<real>)
    requires UncertaintyShape(unc, n, nrows)
    ensures fresh(sumUnc) && sumUnc.Length == nrows
    ensures forall i :: 0 <= i < nrows ==> sumUnc[i] == Sum(Certainties(unc, n, i))
  {
    sumUnc := new real[nrows](_ => 0.0);
    for c := 0 to n
      modifies sumUnc
      invariant forall i :: 0 <= i < nrows ==> sumUnc[i] == PrefixSum(Certainties(unc, n, i), c)
    {
      var u := unc[c];  // uncertainties of classifier c
      CertaintyStep(unc, n, nrows, c);
      AddCertainties(sumUnc, u);
    }
    CertaintyComplete(unc, n, nrows);
  }

  /** Adding classifier c's certainty extends every sample's partial mass by one term. */
  lemma CertaintyStep(unc: seq<array2<real>>, n: nat, nrows: nat, c: nat)
    requires UncertaintyShape(unc, n, nrows) && c < n
    ensures forall i :: 0 <= i < nrows ==>
              PrefixSum(Certainties(unc, n, i), c + 1) == PrefixSum(Certainties(unc, n, i), c) + (1.0 - unc[c][i, 0])
  {
    forall i | 0 <= i < nrows
      ensures PrefixSum(Certainties(unc, n, i), c + 1) == PrefixSum(Certainties(unc, n, i), c) + (1.0 - unc[c][i, 0])
    {
      PrefixSumStep(Certainties(unc, n, i), c);
    }
  }

  /** With every classifier added, each sample's partial mass is its whole mass. */
  lemma CertaintyComplete(unc: seq<array2<real>>, n: nat, nrows: nat)
    requires UncertaintyShape(unc, n, nrows)
    ensures forall i :: 0 <= i < nrows ==> PrefixSum(Certainties(unc, n, i), n) == Sum(Certainties(unc, n, i))
  {
    forall i | 0 <= i < nrows
      ensures PrefixSum(Certainties(unc, n, i), n) == Sum(Certainties(unc, n, i))
    {
      PrefixSumWhole(Certainties(unc, n, i));
    }
  }

  /** weights(i, c) = (1 - unc(i, 0)) / sum_unc(i) for every sample, for one classifier c. */
  method FillWeights(weights: array2<Double>, c: nat, u: array2<real>, sumUnc: array<real>)
    requires weights.Length0 == sumUnc.Length && c < weights.Length1
    requires u.Length0 >= sumUnc.Length && u.Length1 >= 1
    modifies weights
    ensures forall i, c' :: 0 <= i < weights.Length0 && 0 <= c' < weights.Length1 ==>
              weights[i, c'] == if c' == c then Quotient(1.0 - u[i, 0], sumUnc[i]) else old(weights[i, c'])
  {
    for i := 0 to sumUnc.Length
      invariant forall i', c' :: 0 <= i' < weights.Length0 && 0 <= c' < weights.Length1 ==>
                  weights[i', c'] == if c' == c && i' < i then Quotient(1.0 - u[i', 0], sumUnc[i'])
                                     else old(weights[i', c'])
    {
      weights[i, c] := Quotient(1.0 - u[i, 0], sumUnc[i]);
    }
  }

  /** Second phase: the weight table weights(i, c) = (1 - unc_c(i, 0)) / sum_unc(i),
      non-finite where sum_unc(i) is zero. */
  method ClassifierWeights(unc: seq<array2<real>>, n: nat, sumUnc: array<real>)
    returns (weights: array2<Double>)
    requires UncertaintyShape(unc, n, sumUnc.Length)
    ensures fresh(weights) && weights.Length0 == sumUnc.Length && weights.Length1 == n
    ensures forall i, c :: 0 <= i < sumUnc.Length && 0 <= c < n ==>
              weights[i, c] == Quotient(1.0 - unc[c][i, 0], sumUnc[i])
  {
    var nrows := sumUnc.Length;
    weights := new Double[nrows, n]((_, _) => Finite(0.0));
    for c := 0 to n
      modifies weights
      invariant forall i, c' :: 0 <= i < nrows && 0 <= c' < c ==>
                  weights[i, c'] == Quotient(1.0 - unc[c'][i, 0], sumUnc[i])
    {
      var u := unc[c];  // uncertainties of classifier c
      FillWeights(weights, c, u, sumUnc);
    }
  }

  /** new_data(i, j) += weights(i, c) * mat(i, j) for every cell, for one classifier c. */
  method AddWeightedCells(newData: array2<Double>, weights: array2<Double>, c: nat, mat: array2<real>)
    requires newData.Length0 == mat.Length0 && newData.Length1 == mat.Length1
    requires weights.Length0 == mat.Length0 && c < weights.Length1
    requires newData != weights
    modifies newData
    ensures forall i, j :: 0 <= i < newData.Length0 && 0 <= j < newData.Length1 ==>
              newData[i, j] == Add(old(newData[i, j]), Mul(weights[i, c], Finite(mat[i, j])))
  {
    for i := 0 to newData.Length0
      invariant forall i', j :: 0 <= i' < newData.Length0 && 0 <= j < newData.Length1 ==>
                  newData[i', j] == if i' < i then Add(old(newData[i', j]), Mul(weights[i', c], Finite(mat[i', j])))
                                    else old(newData[i', j])
    {
      for j := 0 to newData.Length1
        invariant forall i', j' :: 0 <= i' < newData.Length0 && 0 <= j' < newData.Length1 ==>
                    newData[i', j'] == if i' < i || (i' == i && j' < j)
                                       then Add(old(newData[i', j']), Mul(weights[i', c], Finite(mat[i', j'])))
                                       else old(newData[i', j'])
      {
        newData[i, j] := Add(newData[i, j], Mul(weights[i, c], Finite(mat[i, j])));
      }
    }
  }

  /** The weight row of a sample: weights(i, c) = cert[c] / total for every classifier c. */
  function Quotients(cert: seq<real>, total: real): (ws: seq<Double>)
    ensures |ws| == |cert|
    ensures forall c :: 0 <= c < |cert| ==> ws[c] == Quotient(cert[c], total)
  {
    seq(|cert|, c requires 0 <= c < |cert| => Quotient(cert[c], total))
  }

  /** ws[0] * m + ... + ws[|ws|-1] * m in floating point, added left to right from zero as
      the final accumulation loop does for one cell. */
  function WeightedSum(ws: seq<Double>, m: real): (r: Double)
    ensures |ws| == 0 ==> r == Finite(0.0)
    ensures r.Finite? <==> forall c :: 0 <= c < |ws| ==> ws[c].Finite?
    decreases |ws|
  {
    if |ws| == 0 then Finite(0.0) else Add(WeightedSum(ws[..|ws| - 1], m), Mul(ws[|ws| - 1], Finite(m)))
  }

  /** One more classifier's weighted contribution extends the accumulated cell. */
  lemma WeightedSumStep(ws: seq<Double>, c: nat, m: real)
    requires c < |ws|
    ensures WeightedSum(ws[..c + 1], m) == Add(WeightedSum(ws[..c], m), Mul(ws[c], Finite(m)))
  {
    assert ws[..c + 1][..c] == ws[..c];
  }

  /** Finite weights, one per classifier. */
  function Finites(w: seq<real>): (ws: seq<Double>)
    ensures |ws| == |w|
    ensures forall c :: 0 <= c < |w| ==> ws[c] == Finite(w[c])
  {
    seq(|w|, c requires 0 <= c < |w| => Finite(w[c]))
  }

  /** With finite weights the accumulated cell is the finite sum of the weighted terms. */
  lemma {:induction false} WeightedSumFinite(w: seq<real>, m: real)
    ensures WeightedSum(Finites(w), m) == Finite(Sum(Scaled(w, m)))
  {
    if |w| > 0 {
      var n := |w| - 1;
      var p := w[..n];
      WeightedSumFinite(p, m);
      assert Finites(w)[..n] == Finites(p);
      forall c | 0 <= c < n
        ensures Scaled(w, m)[..n][c] == Scaled(p, m)[c]
      {
        assert p[c] == w[c];
      }
      assert Scaled(w, m)[..n] == Scaled(p, m);
      assert Finites(w)[n] == Finite(w[n]);
      assert Scaled(w, m)[n] == w[n] * m;
    }
  }

  /** A single non-finite weight makes the accumulated cell non-finite: NaN and the
      infinities absorb every later addition. */
  lemma WeightedSumNonFinite(ws: seq<Double>, k: nat, m: real)
    requires k < |ws| && ws[k] == NonFinite
    ensures WeightedSum(ws, m) == NonFinite
  {
  }

  /** The cell of weighted_uncert_probs after every classifier: where the certainty mass is
      non-zero it is the first-matrix value times the sum of the sample's weights, which is
      the value itself; where the mass is zero it is non-finite. */
  lemma UncertCell(cert: seq<real>, m: real)
    requires |cert| >= 1
    ensures Sum(cert) != 0.0 ==> WeightedSum(Quotients(cert, Sum(cert)), m) == Finite(Sum(Shares(cert)) * m)
    ensures Sum(cert) != 0.0 ==> WeightedSum(Quotients(cert, Sum(cert)), m) == Finite(m)
    ensures Sum(cert) == 0.0 ==> WeightedSum(Quotients(cert, Sum(cert)), m) == NonFinite
  {
    var total := Sum(cert);
    if total != 0.0 {
      var w := Shares(cert);
      assert Quotients(cert, total) == Finites(w);
      WeightedSumFinite(w, m);
      SumScaled(w, m);
      SharesSumToOne(cert);
    } else {
      WeightedSumNonFinite(Quotients(cert, total), 0, m);
    }
  }

  /** A sample's weight row, as the accumulation adds it up, sums to one wherever its
      certainty mass is non-zero. */
  lemma WeightRowSumsToOne(cert: seq<real>)
    requires |cert| >= 1 && Sum(cert) != 0.0
    ensures WeightedSum(Quotients(cert, Sum(cert)), 1.0) == Finite(1.0)
  {
    UncertCell(cert, 1.0);
  }

  /** Row i of a weight table. */
  ghost function Row(weights: array2<Double>, i: nat): (ws: seq<Double>)
    requires i < weights.Length0
    reads weights
    ensures |ws| == weights.Length1
    ensures forall c :: 0 <= c < weights.Length1 ==> ws[c] == weights[i, c]
  {
    seq(weights.Length1, c requires 0 <= c < weights.Length1 reads weights => weights[i, c])
  }

  /** Third phase: new_data(i, j) = sum over c of weights(i, c) * mat(i, j), accumulated
      from zero one classifier at a time. */
  method AccumulateWeighted(newData: array2<Double>, weights: array2<Double>, mat: array2<real>)
    requires newData.Length0 == mat.Length0 && newData.Length1 == mat.Length1
    requires weights.Length0 == mat.Length0
    requires newData != weights
    requires forall i, j :: 0 <= i < newData.Length0 && 0 <= j < newData.Length1 ==> newData[i, j] == Finite(0.0)
    modifies newData
    ensures forall i, j :: 0 <= i < newData.Length0 && 0 <= j < newData.Length1 ==>
              newData[i, j] == WeightedSum(Row(weights, i), mat[i, j])
  {
    for c := 0 to weights.Length1
      invariant forall i, j :: 0 <= i < newData.Length0 && 0 <= j < newData.Length1 ==>
                  newData[i, j] == WeightedSum(Row(weights, i)[..c], mat[i, j])
    {
      forall i, j | 0 <= i < newData.Length0 && 0 <= j < newData.Length1
        ensures Add(WeightedSum(Row(weights, i)[..c], mat[i, j]), Mul(weights[i, c], Finite(mat[i, j])))
                == WeightedSum(Row(weights, i)[..c + 1], mat[i, j])
      {
        WeightedSumStep(Row(weights, i), c, mat[i, j]);
      }
      AddWeightedCells(newData, weights, c, mat);
    }
    forall i, j | 0 <= i < newData.Length0 && 0 <= j < newData.Length1
      ensures newData[i, j] == WeightedSum(Row(weights, i), mat[i, j])
    {
      assert Row(weights, i)[..weights.Length1] == Row(weights, i);
    }
  }

  /** Weights each classifier by its per-sample share of the certainty mass, but applies
      every weight to the first matrix: where a sample's certainty mass is non-zero the
      row is the first matrix's row, and where it is zero the row is non-finite. */
  method WeightedUncertProbs(data: seq<array2<real>>, unc: seq<array2<real>>)
    returns (newData: array2<Double>)
    requires |data| >= 1
    requires UncertaintyShape(unc, |data|, data[0].Length0)
    ensures fresh(newData)
    ensures newData.Length0 == data[0].Length0 && newData.Length1 == data[0].Length1
    ensures forall i, j :: 0 <= i < newData.Length0 && 0 <= j < newData.Length1 ==>
              (Sum(Certainties(unc, |data|, i)) != 0.0 ==> newData[i, j] == Finite(data[0][i, j]))
    ensures forall i, j :: 0 <= i < newData.Length0 && 0 <= j < newData.Length1 ==>
              (Sum(Certainties(unc, |data|, i)) == 0.0 ==> newData[i, j] == NonFinite)
  {
    var nClassifiers := |data|;
    var mat := data[0];
    var nrows, ncols := mat.Length0, mat.Length1;
    newData := new Double[nrows, ncols]((_, _) => Finite(0.0));
    var sumUnc := CertaintyMass(unc, nClassifiers, nrows);
    var weights := ClassifierWeights(unc, nClassifiers, sumUnc);
    AccumulateWeighted(newData, weights, mat);
    UncertComplete(unc, sumUnc, weights, mat, newData);
  }

  /** The three phases together: each accumulated cell is the first matrix's value where the
      sample's certainty mass is non-zero and non-finite where it is zero. */
  lemma UncertComplete(unc: seq<array2<real>>, sumUnc: array<real>, weights: array2<Double>,
                       mat: array2<real>, newData: array2<Double>)
    requires weights.Length0 == sumUnc.Length == mat.Length0 == newData.Length0
    requires newData.Length1 == mat.Length1 && weights.Length1 >= 1
    requires UncertaintyShape(unc, weights.Length1, sumUnc.Length)
    requires forall i :: 0 <= i < sumUnc.Length ==> sumUnc[i] == Sum(Certainties(unc, weights.Length1, i))
    requires forall i, c :: 0 <= i < sumUnc.Length && 0 <= c < weights.Length1 ==>
               weights[i, c] == Quotient(1.0 - unc[c][i, 0], sumUnc[i])
    requires forall i, j :: 0 <= i < newData.Length0 && 0 <= j < newData.Length1 ==>
               newData[i, j] == WeightedSum(Row(weights, i), mat[i, j])
    ensures forall i, j :: 0 <= i < newData.Length0 && 0 <= j < newData.Length1 ==>
              (Sum(Certainties(unc, weights.Length1, i)) != 0.0 ==> newData[i, j] == Finite(mat[i, j]))
    ensures forall i, j :: 0 <= i < newData.Length0 && 0 <= j < newData.Length1 ==>
              (Sum(Certainties(unc, weights.Length1, i)) == 0.0 ==> newData[i, j] == NonFinite)
  {
    forall i, j | 0 <= i < newData.Length0 && 0 <= j < newData.Length1
      ensures Sum(Certainties(unc, weights.Length1, i)) != 0.0 ==> newData[i, j] == Finite(mat[i, j])
      ensures Sum(Certainties(unc, weights.Length1, i)) == 0.0 ==> newData[i, j] == NonFinite
    {
      var cert := Certainties(unc, weights.Length1, i);
      assert Row(weights, i) == Quotients(cert, Sum(cert));
      UncertCell(cert, mat[i, j]);
    }
  }

  // ---------------------------------------------------------------------------
  // Consequences for callers

  /** average_probs does not depend on any matrix after the first: two ensembles whose
      first matrices agree cell by cell combine to equal results. */
  method AverageIgnoresLaterMatrices(data1: seq<array2<real>>, data2: seq<array2<real>>)
    returns (r1: array2<real>, r2: array2<real>)
    requires |data1| >= 1 && |data2| >= 1
    requires data1[0].Length0 == data2[0].Length0 && data1[0].Length1 == data2[0].Length1
    requires forall i, j :: 0 <= i < data1[0].Length0 && 0 <= j < data1[0].Length1 ==>
               data1[0][i, j] == data2[0][i, j]
    ensures r1.Length0 == r2.Length0 && r1.Length1 == r2.Length1
    ensures forall i, j :: 0 <= i < r1.Length0 && 0 <= j < r1.Length1 ==> r1[i, j] == r2[i, j]
  {
    r1 := AverageProbs(data1);
    r2 := AverageProbs(data2);
  }

  /** weighted_probs does not depend on any matrix after the first: with the same first
      matrix and the same weights two ensembles combine to equal results. */
  method WeightedIgnoresLaterMatrices(data1: seq<array2<real>>, data2: seq<array2<real>>,
                                      weights: seq<real>)
    returns (r1: array2<real>, r2: array2<real>)
    requires |data1| >= 1 && |data2| == |data1| && |weights| >= |data1|
    requires data1[0].Length0 == data2[0].Length0 && data1[0].Length1 == data2[0].Length1
    requires forall i, j :: 0 <= i < data1[0].Length0 && 0 <= j < data1[0].Length1 ==>
               data1[0][i, j] == data2[0][i, j]
    ensures r1.Length0 == r2.Length0 && r1.Length1 == r2.Length1
    ensures forall i, j :: 0 <= i < r1.Length0 && 0 <= j < r1.Length1 ==> r1[i, j] == r2[i, j]
  {
    r1 := WeightedProbs(data1, weights);
    r2 := WeightedProbs(data2, weights);
  }

  /** weighted_uncert_probs does not depend on any probability matrix after the first:
      with the same first matrix and the same uncertainties two ensembles of equal size
      combine to equal results. */
  method UncertIgnoresLaterMatrices(data1: seq<array2<real>>, data2: seq<array2<real>>,
                                    unc: seq<array2<real>>)
    returns (r1: array2<Double>, r2: array2<Double>)
    requires |data1| >= 1 && |data2| == |data1|
    requires data1[0].Length0 == data2[0].Length0 && data1[0].Length1 == data2[0].Length1
    requires forall i, j :: 0 <= i < data1[0].Length0 && 0 <= j < data1[0].Length1 ==>
               data1[0][i, j] == data2[0][i, j]
    requires UncertaintyShape(unc, |data1|, data1[0].Length0)
    ensures r1.Length0 == r2.Length0 && r1.Length1 == r2.Length1
    ensures forall i, j :: 0 <= i < r1.Length0 && 0 <= j < r1.Length1 ==> r1[i, j] == r2[i, j]
  {
    r1 := WeightedUncertProbs(data1, unc);
    r2 := WeightedUncertProbs(data2, unc);
  }
}

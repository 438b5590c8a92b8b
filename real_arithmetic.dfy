// Facts about quotients of reals, shared by the averages of the model.
module RealArithmetic {
  /** Dividing by a positive number and multiplying back gives the sum. */
  lemma QuotientTimesDivisor(sum: real, n: real)
    requires n > 0.0
    ensures (sum / n) * n == sum
  {
  }

  /** A sum of n values between lo and hi has its mean between them. */
  lemma MeanBetween(sum: real, n: real, lo: real, hi: real)
    requires n > 0.0 && n * lo <= sum <= n * hi
    ensures lo <= sum / n <= hi
  {
    var mean := sum / n;
    QuotientTimesDivisor(sum, n);
    assert (mean - lo) * n == sum - n * lo;
    assert (hi - mean) * n == n * hi - sum;
  }
}

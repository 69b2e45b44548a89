/** The truth-value probability model: the Beta distribution that fits a
    truth value's mean and evidence count (tv_to_beta). Drawing a variate
    from it is left to the caller of the decision procedure. */
module Beta {

  import opened Atoms

  /** The two shape parameters of a Beta distribution. */
  datatype BetaParams = BetaParams(a: real, b: real)

  /** The positive evidence `count * mean` goes to `a` and the rest of the
      count to `b`, each on top of its prior (1 and 1, the uniform prior,
      by default). There is no domain check. */
  function TvToBeta(mean: real, count: real, priorA: real := 1.0, priorB: real := 1.0): (r: BetaParams)
    ensures r.a + r.b == priorA + priorB + count
    ensures count == 0.0 ==> r == BetaParams(priorA, priorB)
    ensures 0.0 <= mean <= 1.0 && 0.0 <= count ==> priorA <= r.a && priorB <= r.b
  {
    var posCount := count * mean;
    BetaParams(priorA + posCount, priorB + count - posCount)
  }

  /** Recovers (mean, count) from Beta parameters and their priors; the
      mean is lost when no evidence was added. */
  function BetaToEvidence(beta: BetaParams, priorA: real := 1.0, priorB: real := 1.0): (r: Option<(real, real)>)
    ensures r.Some? <==> beta.a + beta.b != priorA + priorB
  {
    var count := beta.a + beta.b - priorA - priorB;
    if count == 0.0 then None else Some(((beta.a - priorA) / count, count))
  }

  /** The conversion loses nothing when the count is non-zero. */
  lemma BetaRoundTrip(mean: real, count: real, priorA: real, priorB: real)
    requires count != 0.0
    ensures BetaToEvidence(TvToBeta(mean, count, priorA, priorB), priorA, priorB) == Some((mean, count))
  {
    var r := TvToBeta(mean, count, priorA, priorB);
    assert r.a - priorA == count * mean;
    assert (count * mean) / count == mean;
  }

  /** Every pair of parameters with a non-zero added count comes from
      exactly one (mean, count). */
  lemma EvidenceRoundTrip(beta: BetaParams, priorA: real, priorB: real)
    requires BetaToEvidence(beta, priorA, priorB).Some?
    ensures var e := BetaToEvidence(beta, priorA, priorB).value;
            TvToBeta(e.0, e.1, priorA, priorB) == beta
  {
  }

  /** With the default priors and a valid truth value both parameters are
      at least 1, hence positive. */
  lemma DefaultPriorsAtLeastOne(mean: real, count: real)
    requires 0.0 <= mean <= 1.0 && 0.0 <= count
    ensures TvToBeta(mean, count).a >= 1.0 && TvToBeta(mean, count).b >= 1.0
  {
  }

  /** Adding evidence `count * mean` on one side and the rest of the count
      on the other is strictly monotone in the mean for a positive count. */
  lemma EvidenceSplitMonotone(m1: real, m2: real, count: real, priorA: real, priorB: real)
    requires count > 0.0 && m1 < m2
    ensures priorA + count * m1 < priorA + count * m2
    ensures priorB + count - count * m1 > priorB + count - count * m2
  {
    assert count * (m2 - m1) > 0.0;
    assert count * m2 == count * m1 + count * (m2 - m1);
  }

  /** For a fixed positive count, a larger mean gives a strictly larger `a`
      and a strictly smaller `b`. */
  lemma MeanMonotone(m1: real, m2: real, count: real, priorA: real, priorB: real)
    requires count > 0.0 && m1 < m2
    ensures TvToBeta(m1, count, priorA, priorB).a < TvToBeta(m2, count, priorA, priorB).a
    ensures TvToBeta(m1, count, priorA, priorB).b > TvToBeta(m2, count, priorA, priorB).b
  {
    EvidenceSplitMonotone(m1, m2, count, priorA, priorB);
  }
}

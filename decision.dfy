/** The decision procedure: Thompson sampling over an action
    distribution. The first-order variates, one per entry and drawn in
    list order from each entry's Beta distribution, are an input. */
module Decision {

  import opened Atoms

  /** `k` is the first position holding the greatest value of `ps`. */
  predicate IsFirstMax(ps: seq<real>, k: nat)
  {
    && k < |ps|
    && (forall j :: 0 <= j < |ps| ==> ps[j] <= ps[k])
    && (forall j :: 0 <= j < k ==> ps[j] < ps[k])
  }

  /** Python's `max`: scan left to right, replacing the best so far only
      by a strictly greater value, so ties keep the earliest entry. */
  function FirstArgMax(ps: seq<real>): (k: nat)
    requires |ps| > 0
    ensures IsFirstMax(ps, k)
  {
    if |ps| == 1 then 0
    else
      var k := FirstArgMax(ps[..|ps| - 1]);
      if ps[|ps| - 1] > ps[k] then |ps| - 1 else k
  }

  /** At most one position is the first maximum, so the rule is deterministic. */
  lemma FirstMaxUnique(ps: seq<real>, k1: nat, k2: nat)
    requires IsFirstMax(ps, k1) && IsFirstMax(ps, k2)
    ensures k1 == k2
  {
    assert ps[k1] <= ps[k2] && ps[k2] <= ps[k1];
  }

  /** Pairs each action with its variate and returns the pair with the
      greatest variate, the earliest one on ties; an empty distribution
      is an error. */
  function ThompsonSample(actdist: seq<(Atom, TruthValue)>, variates: seq<real>): (r: Result<(Atom, real)>)
    requires |variates| == |actdist|
    ensures r.Err? <==> |actdist| == 0
    ensures r.Err? ==> r.error == EmptyDistribution
    ensures r.Ok? ==> exists k :: 0 <= k < |actdist| && IsFirstMax(variates, k)
                                   && r.value == (actdist[k].0, variates[k])
  {
    if |actdist| == 0 then Err(EmptyDistribution)
    else
      var k := FirstArgMax(variates);
      Ok((actdist[k].0, variates[k]))
  }

  /** The chosen action is one of the distribution's, and its variate
      bounds every drawn variate. */
  lemma ThompsonChoosesMaximum(actdist: seq<(Atom, TruthValue)>, variates: seq<real>)
    requires |variates| == |actdist| > 0
    ensures ThompsonSample(actdist, variates).Ok?
    ensures var (action, p) := ThompsonSample(actdist, variates).value;
            (exists k :: 0 <= k < |actdist| && actdist[k].0 == action)
            && (forall j :: 0 <= j < |variates| ==> variates[j] <= p)
  {
  }

  /** When every variate is equal, the first entry wins. */
  lemma ThompsonTieGoesFirst(actdist: seq<(Atom, TruthValue)>, variates: seq<real>)
    requires |variates| == |actdist| > 0
    requires forall j :: 0 <= j < |variates| ==> variates[j] == variates[0]
    ensures ThompsonSample(actdist, variates) == Ok((actdist[0].0, variates[0]))
  {
  }

  /** decide: the (action, probability) pair of the entry whose variate
      is the first maximum; an empty distribution is an error. */
  function Decide(actdist: seq<(Atom, TruthValue)>, variates: seq<real>): (r: Result<(Atom, real)>)
    requires |variates| == |actdist|
    ensures r.Err? <==> |actdist| == 0
    ensures r.Err? ==> r.error == EmptyDistribution
    ensures r.Ok? ==> exists k :: 0 <= k < |actdist| && IsFirstMax(variates, k)
                                   && r.value == (actdist[k].0, variates[k])
  {
    ThompsonSample(actdist, variates)
  }
}

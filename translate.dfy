/** Translation between the CartPole environment's values and atoms:
    observations, rewards, the goal, timestamps and action codes. */
module Translate {

  import opened Atoms

  /** The four channels of a CartPole observation, in the environment's order. */
  datatype Observation = Observation(cartPosition: real, cartVelocity: real, poleAngle: real, poleVelocityAtTip: real)

  /** The predicate names the four observation channels are reported
      under. The fourth reads "Cart Velocity At Tip" in the code. */
  const ObservationLabels: seq<string> := ["Cart Position", "Cart Velocity", "Pole Angle", "Cart Velocity At Tip"]

  function Channel(obs: Observation, k: nat): real
    requires k < 4
  {
    match k
    case 0 => obs.cartPosition
    case 1 => obs.cartVelocity
    case 2 => obs.poleAngle
    case _ => obs.poleVelocityAtTip
  }

  /** Evaluation(Predicate pred, Number x). */
  function Evaluated(pred: string, x: real): Atom
  {
    Link(Evaluation, [Node(Predicate, pred), Number(x)])
  }

  /** The number an atom of the form Evaluation(Predicate pred, Number x)
      reports under `pred`. */
  function EvaluatedNumber(a: Atom, pred: string): (r: Option<real>)
    ensures r.Some? ==> a == Evaluated(pred, r.value)
    ensures forall x :: a == Evaluated(pred, x) ==> r == Some(x)
  {
    if a.Link? && a.ltype == Evaluation && |a.out| == 2
       && a.out[0] == Node(Predicate, pred) && a.out[1].Number?
    then Some(a.out[1].number)
    else None
  }

  /** Four Evaluation links, one per channel, neither timestamped nor
      carrying a truth value. */
  function ObservationToAtomese(obs: Observation): (r: seq<Atom>)
    ensures |r| == 4
    ensures AtomeseToObservation(r) == Some(obs)
  {
    [Evaluated(ObservationLabels[0], obs.cartPosition),
     Evaluated(ObservationLabels[1], obs.cartVelocity),
     Evaluated(ObservationLabels[2], obs.poleAngle),
     Evaluated(ObservationLabels[3], obs.poleVelocityAtTip)]
  }

  /** Reads an observation back from its four Evaluation links. */
  function AtomeseToObservation(s: seq<Atom>): (r: Option<Observation>)
  {
    if |s| != 4 then None
    else
      match (EvaluatedNumber(s[0], ObservationLabels[0]), EvaluatedNumber(s[1], ObservationLabels[1]),
             EvaluatedNumber(s[2], ObservationLabels[2]), EvaluatedNumber(s[3], ObservationLabels[3]))
      case (Some(cp), Some(cv), Some(pa), Some(pv)) => Some(Observation(cp, cv, pa, pv))
      case _ => None
  }

  /** The k-th atom reports the k-th channel under the k-th label. */
  lemma ObservationChannels(obs: Observation, k: nat)
    requires k < 4
    ensures EvaluatedNumber(ObservationToAtomese(obs)[k], ObservationLabels[k]) == Some(Channel(obs, k))
  {
  }

  /** The translation loses nothing ... */
  lemma ObservationRoundTrip(obs: Observation)
    ensures AtomeseToObservation(ObservationToAtomese(obs)) == Some(obs)
  {
  }

  /** ... and every four atoms that read back as an observation are its translation. */
  lemma AtomeseRoundTrip(s: seq<Atom>)
    requires AtomeseToObservation(s).Some?
    ensures ObservationToAtomese(AtomeseToObservation(s).value) == s
  {
  }

  /** The four observation atoms are pairwise distinct, whatever the values. */
  lemma ObservationAtomsDistinct(obs: Observation, i: nat, j: nat)
    requires i < j < 4
    ensures ObservationToAtomese(obs)[i] != ObservationToAtomese(obs)[j]
  {
  }

  /** Evaluation(Predicate "Reward", Number reward), neither timestamped
      nor carrying a truth value. */
  function RewardToAtomese(reward: real): (r: Atom)
    ensures EvaluatedNumber(r, "Reward") == Some(reward)
  {
    Evaluated("Reward", reward)
  }

  /** The goal of every iteration: a reward of 1. The iteration is not used. */
  function MakeGoal(ci: int): (r: Atom)
    ensures EvaluatedNumber(r, "Reward") == Some(1.0)
  {
    RewardToAtomese(1.0)
  }

  /** AtTime(atom, Time i), with the truth value `tv` when one is given. */
  function Timestamp(atom: Atom, i: int, tv: Option<TruthValue> := None): (r: Annotated)
    ensures Untimestamp(r.atom) == Some((atom, i))
    ensures r.tv == tv
  {
    Annotated(Link(AtTime, [atom, Time(i)]), tv)
  }

  /** The atom and time of an AtTime link. */
  function Untimestamp(a: Atom): Option<(Atom, int)>
  {
    if a.Link? && a.ltype == AtTime && |a.out| == 2 && a.out[1].Time?
    then Some((a.out[0], a.out[1].tick))
    else None
  }

  /** Timestamps each atom of `atoms` with the same time and truth value. */
  function TimestampAll(atoms: seq<Atom>, i: int, tv: Option<TruthValue>): (r: seq<Annotated>)
    ensures |r| == |atoms|
    ensures forall k :: 0 <= k < |r| ==> Untimestamp(r[k].atom) == Some((atoms[k], i)) && r[k].tv == tv
  {
    seq(|atoms|, k requires 0 <= k < |atoms| => Timestamp(atoms[k], i, tv))
  }

  /** The CartPole-v1 action code of an action: "Go Right" is 0,
      "Go Left" is 1, and any other action has none. */
  function ActionToGym(action: Atom): (r: Option<int>)
    ensures r == Some(0) <==> action == GoRight
    ensures r == Some(1) <==> action == GoLeft
    ensures r.None? <==> action != GoRight && action != GoLeft
  {
    if GoRight == action then Some(0)
    else if GoLeft == action then Some(1)
    else None
  }

  /** The action table read from codes to actions. */
  function GymToAction(code: int): Option<Atom>
  {
    if code == 0 then Some(GoRight)
    else if code == 1 then Some(GoLeft)
    else None
  }

  /** The two tables are inverse: the mapping is a bijection between the
      two actions and the codes {0, 1}. */
  lemma ActionCodeRoundTrip(action: Atom, code: int)
    ensures ActionToGym(action) == Some(code) <==> GymToAction(code) == Some(action)
  {
  }

  /** Distinct actions never share a code. */
  lemma ActionToGymInjective(a1: Atom, a2: Atom)
    requires ActionToGym(a1).Some? && ActionToGym(a1) == ActionToGym(a2)
    ensures a1 == a2
  {
  }
}

/** The timestep controller (cartpole_step): one tick of the agent over
    the episode state, the last observation and the step count. The
    environment's step and the sampler's variates are parameters. */
module Controller {

  import opened Atoms
  import opened Translate
  import opened Schematics
  import opened Decision

  /** What the environment's step returns: the new observation, the
      reward and whether the episode is over. */
  datatype Transition = Transition(observation: Observation, reward: real, done: bool)

  /** What one tick builds on the way: the timestamped atoms it adds,
      the goal, the schematics, the distribution and the choice made. */
  datatype Tick = Tick(
    stampedObservations: seq<Annotated>,
    goal: Atom,
    schematics: seq<Annotated>,
    distribution: seq<(Atom, TruthValue)>,
    action: Atom,
    probability: real,
    gymAction: int,
    stampedReward: Annotated)

  /** The agent always plans one tick ahead. */
  const Expiry := 1
  const ContinueTv := TruthValue(1.0, 1.0)
  const StopTv := TruthValue(0.0, 1.0)

  /** With the stub planner and deduction engine, the decision is between
      Go Left and Go Right alone: Go Right only when its variate is
      strictly greater, Go Left on a tie. */
  lemma StubDecision(goal: Atom, expiry: int, variates: seq<real>)
    requires |variates| == 2
    ensures Deduce(Plan(goal, expiry)).Ok?
    ensures |Deduce(Plan(goal, expiry)).value| == 2
    ensures Decide(Deduce(Plan(goal, expiry)).value, variates)
              == Ok(if variates[1] > variates[0] then (GoRight, variates[1]) else (GoLeft, variates[0]))
  {
    DeducePlan(goal, expiry);
    var dist := Deduce(Plan(goal, expiry)).value;
    var r := ThompsonSample(dist, variates);
    var k :| 0 <= k < |dist| && IsFirstMax(variates, k) && r.value == (dist[k].0, variates[k]);
    if variates[1] > variates[0] {
      assert k == 1;
    } else {
      assert k == 0;
    }
  }

  /** Every action the stub decision can take has a CartPole code. */
  lemma StubActionHasCode(goal: Atom, expiry: int, variates: seq<real>)
    requires |variates| == 2
    ensures Deduce(Plan(goal, expiry)).Ok? && |Deduce(Plan(goal, expiry)).value| == 2
    ensures ActionToGym(Decide(Deduce(Plan(goal, expiry)).value, variates).value.0)
              == Some(if variates[1] > variates[0] then 0 else 1)
  {
    StubDecision(goal, expiry, variates);
  }

  class CartPole {
    var observation: Observation
    var stepCount: nat

    /** A new episode, from the environment's initial observation. */
    constructor (initial: Observation)
      ensures observation == initial && stepCount == 0
    {
      observation := initial;
      stepCount := 0;
    }

    /** One tick: timestamp the current observation with the current step
        count, plan against the goal "reward 1" one tick ahead, deduce the
        distribution, Thompson-sample an action with `variates`, send its
        code to `env`, record the reward, advance the count and store the
        new observation. The result says whether to go on. */
    method Step(variates: seq<real>, env: int -> Transition) returns (signal: TruthValue, tick: Tick)
      requires |variates| == 2
      modifies this
      ensures stepCount == old(stepCount) + 1
      ensures observation == env(tick.gymAction).observation
      ensures signal == if env(tick.gymAction).done then StopTv else ContinueTv
      ensures tick.stampedObservations == TimestampAll(ObservationToAtomese(old(observation)), old(stepCount), Some(TrueTv))
      ensures tick.goal == MakeGoal(old(stepCount))
      ensures tick.schematics == Plan(tick.goal, Expiry)
      ensures Deduce(tick.schematics) == Ok(tick.distribution) && |tick.distribution| == 2
      ensures Decide(tick.distribution, variates) == Ok((tick.action, tick.probability))
      ensures ActionToGym(tick.action) == Some(tick.gymAction)
      ensures tick.gymAction == if variates[1] > variates[0] then 0 else 1
      ensures tick.stampedReward == Timestamp(RewardToAtomese(env(tick.gymAction).reward), old(stepCount), Some(TrueTv))
    {
      var i := stepCount;
      var stampedObs := TimestampAll(ObservationToAtomese(observation), i, Some(TrueTv));
      var goal := MakeGoal(i);
      var css := Plan(goal, Expiry);
      StubActionHasCode(goal, Expiry, variates);
      var actdist := Deduce(css).value;
      var (action, pblty) := Decide(actdist, variates).value;
      var gymAction := ActionToGym(action).value;
      var t := env(gymAction);
      observation := t.observation;
      var stampedReward := Timestamp(RewardToAtomese(t.reward), i, Some(TrueTv));
      stepCount := stepCount + 1;
      signal := if t.done then StopTv else ContinueTv;
      tick := Tick(stampedObs, goal, css, actdist, action, pblty, gymAction, stampedReward);
    }
  }
}

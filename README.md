# CartPole decision loop of the OpenCog Gym wrapper, in Dafny

This project models the decision loop of `opencog-gym.py`, an OpenCog
agent that plays the CartPole-v1 environment. Each tick the agent:

1. turns the last observation into four timestamped Evaluation atoms;
2. sets its goal, a reward of 1;
3. plans two hardwired cognitive schematics ("go left if the pole angle
   is negative", "go right if it is positive");
4. deduces an action distribution from them, with a placeholder truth
   value;
5. picks an action by Thompson sampling;
6. translates the action into a CartPole action code and steps the
   environment;
7. records the reward, advances its step counter and tells the scheduler
   whether to go on.

Modules, leaves first:

- `Atoms` (`atoms.dfy`): atoms as a datatype of nodes and links, compared
  by structure. It also holds truth values, the `Annotated` pair of an
  atom with the truth value its construction sets, and the `Result` type
  for the exceptions the code lets propagate.
- `Beta` (`beta.dfy`): `tv_to_beta`, with its inverse.
- `Decision` (`decision.dfy`): `thompson_sample` and `decide`, with
  Python's first-maximum rule for `max`.
- `Translate` (`translate.dfy`): `observation_to_atomese`,
  `reward_to_atomese`, `make_goal`, `timestamp` and `action_to_gym`, each
  with an inverse.
- `Schematics` (`schematics.dfy`): `get_action`, `plan` and `deduce`.
- `Controller` (`controller.dfy`): `cartpole_step`, as the `Step` method
  of class `CartPole`. The class's two fields are the global
  `observation` and `cartpole_step_count`.

Modelling decisions:

- An OpenCog `TruthValue(s, c)` takes a strength and a confidence. The
  evidence count that `tv_to_beta` reads (`tv.count`) is derived from the
  confidence by AtomSpace code that is not part of this model. So
  `Beta.TvToBeta` takes the mean and the count as two reals, and
  `Atoms.TruthValue` keeps the constructor's two arguments.
- `NumberNode(str(x))` is `Number(x)` and `TimeNode(str(i))` is `Time(i)`.
  Decimal formatting is not modelled.
- The truth value a constructor sets (`tv=`) is carried beside the atom
  in `Annotated`. In the AtomSpace it is an attribute of the atom, not
  part of the atom's identity.
- `deduce` builds a Python set, whose iteration order depends on hashes.
  The model keeps first-occurrence order. `Deduce`'s own contract states
  only order-independent facts. The contracts that depend on the order the
  model picks are `DeducePlan`, `StubDecision`, `StubActionHasCode` and the
  `gymAction` clause of `CartPole.Step`: they pair the first variate with
  Go Left and give Go Left a tie.
- An AndLink is unordered in the AtomSpace, which stores its outgoing set
  in a canonical order. The model keeps the written order of an And body.
- The random variates that `thompson_sample` draws (one per entry, in
  list order) are an input. So is the environment's step, a function
  from action code to `(observation, reward, done)`.

The code validates little and fails only where Python raises:

- `tv_to_beta` does no domain check.
- `deduce` of an empty list returns an empty distribution.
- `action_to_gym` returns `None` for an unknown action.
- `get_action` takes the first Execution clause and does not reject a
  second one.
- `plan` ignores its goal argument.
- The fourth observation predicate is named "Cart Velocity At Tip"
  (opencog-gym.py:139), while the function's docstring calls it "Pole
  Velocity At Tip". The model uses the name in the code.
- "Go Right" maps to 0 and "Go Left" to 1, as the code and its docstring
  say (opencog-gym.py:163-171). The comment in `plan`
  (opencog-gym.py:254-255) gives the opposite codes; the model follows
  the code.

## Model

| member | source | states |
|---|---|---|
| Beta.TvToBeta | opencog-gym.py:50-63 | a + b = prior_a + prior_b + count. A zero count gives exactly the priors, whatever the mean. With mean in [0,1] and count >= 0, each parameter is at least its prior. |
| Beta.BetaRoundTrip | opencog-gym.py:60-63 | with a non-zero count, the mean and the count are recovered from (a, b) and the priors |
| Beta.EvidenceRoundTrip | opencog-gym.py:60-63 | every (a, b) with a non-zero added count is tv_to_beta of the (mean, count) read back from it |
| Beta.BetaToEvidence | opencog-gym.py:60-63 | the inverse is defined exactly when a + b differs from the sum of the priors, i.e. when some evidence was added |
| Beta.DefaultPriorsAtLeastOne | opencog-gym.py:50-63 | with the default priors 1 and 1, mean in [0,1] and count >= 0, both a >= 1 and b >= 1 |
| Beta.MeanMonotone | opencog-gym.py:60-63 | for a fixed count > 0, a larger mean gives a strictly larger a and a strictly smaller b |
| Decision.FirstArgMax | opencog-gym.py:90 | Python's max with a key: the result holds the greatest value, and every earlier position holds a strictly smaller one |
| Decision.FirstMaxUnique | opencog-gym.py:90 | at most one position is the first maximum, so the tie-break is deterministic |
| Decision.ThompsonSample | opencog-gym.py:79-90 | fails exactly on an empty distribution. Otherwise it returns (action, variate) of some entry whose variate is the greatest, with every earlier variate strictly smaller. |
| Decision.ThompsonChoosesMaximum | opencog-gym.py:89-90 | on a non-empty distribution the chosen action comes from the distribution, and its variate bounds every drawn variate |
| Decision.ThompsonTieGoesFirst | opencog-gym.py:90 | when all variates are equal, the first entry is chosen |
| Decision.Decide | opencog-gym.py:382-398 | fails with an empty-distribution error exactly when the distribution is empty. Otherwise it returns (action, probability) of the entry whose variate is the greatest, with every earlier variate strictly smaller. |
| Translate.ObservationToAtomese | opencog-gym.py:93-139 | four atoms that read back as exactly the observation |
| Translate.ObservationChannels | opencog-gym.py:131-139 | the k-th atom is an Evaluation of the k-th predicate on the k-th observation channel |
| Translate.ObservationRoundTrip | opencog-gym.py:131-139 | reading the four atoms back gives the observation |
| Translate.AtomeseRoundTrip | opencog-gym.py:131-139 | any four atoms that read back as an observation are that observation's translation |
| Translate.ObservationAtomsDistinct | opencog-gym.py:136-139 | the four observation atoms are pairwise distinct, whatever the values |
| Translate.RewardToAtomese | opencog-gym.py:154-155 | the atom reports the reward under the predicate "Reward" |
| Translate.MakeGoal | opencog-gym.py:200-211 | whatever the iteration, the goal reports a reward of 1 |
| Translate.Timestamp | opencog-gym.py:214-223 | the AtTime link gives back the atom and the time, and carries the given truth value |
| Translate.TimestampAll | opencog-gym.py:411 | one stamped atom per input atom, in order, each with the same time and truth value |
| Translate.ActionToGym | opencog-gym.py:158-171 | Some(0) exactly for Go Right, Some(1) exactly for Go Left, None exactly for every other atom |
| Translate.ActionCodeRoundTrip | opencog-gym.py:163-171 | action_to_gym and the table read backwards are inverse |
| Translate.ActionToGymInjective | opencog-gym.py:168-171 | two actions with the same code are the same action |
| Schematics.FirstExecution | opencog-gym.py:196 | finds the first ExecutionLink among the conjuncts, and none exactly when no conjunct is one |
| Schematics.GetActionSpec | opencog-gym.py:174-197 | the contract of Schematics.GetAction: get_action succeeds exactly when the schematic has a body whose first Execution clause has an outgoing atom, and then returns that atom. A body with no Execution clause fails the search. A missing body or action is an index error. |
| Schematics.SingleExecutionIsFirst | opencog-gym.py:196 | in a body with exactly one Execution clause, that clause is the one found |
| Schematics.GetActionOfWellFormed | opencog-gym.py:174-197 | on a schematic with exactly one Execution clause, get_action returns that clause's action |
| Schematics.GetActionIgnoresSecondExecution | opencog-gym.py:195-197 | a body with two Execution clauses is not well formed, yet get_action returns the first clause's action |
| Schematics.Plan | opencog-gym.py:226-337 | two well-formed schematics, Go Left then Go Right. Each has truth value (0.9, 0.1), time offset Number(expiry), the goal "reward 1" and the Pole Angle context. Go Left's test is GreaterThan(0, $angle); Go Right's is GreaterThan($angle, 0). |
| Schematics.ActionsOf | opencog-gym.py:377 | the action of every schematic in order, or the error of the first schematic whose action cannot be extracted |
| Schematics.Dedup | opencog-gym.py:377 | the same elements as the input, with no repetition and no more of them |
| Schematics.Deduce | opencog-gym.py:340-379 | fails exactly when some action cannot be extracted, with that error. Otherwise it returns one entry per distinct extracted action, no action twice, each with truth value (1, 0). |
| Schematics.DeducePlan | opencog-gym.py:337-379 | on the planner's output the distribution is Go Left and Go Right, each with (1, 0) |
| Controller.StubDecision | opencog-gym.py:395-398 | on the stub distribution, Go Right is chosen only when its variate is strictly greater; otherwise Go Left, which comes first |
| Controller.StubActionHasCode | opencog-gym.py:433-437 | the chosen action always has a CartPole code, so the environment never receives None |
| Controller.CartPole.constructor | opencog-gym.py:401-402 | the episode starts from the initial observation with step count 0 |
| Controller.CartPole.Step | opencog-gym.py:403-456 | Timestamps the four observation atoms and the reward with the pre-call count and TruthValue(1, 1). Plans with expiry 1, deduces, decides with the variates and sends the action's code to the environment. Stores the new observation and increments the count by exactly 1. Returns (0, 1) if done, else (1, 1). |

## Left out

- `beta(a, b)`, `beta.rvs()` and `tv_rv` (opencog-gym.py:64, 67-76): a foreign floating-point random sampler. The variates are an input to `ThompsonSample`, `Decide` and `Step`, one per entry.
- The confidence-to-count conversion behind `tv.count`: AtomSpace code, not part of this model.
- The gym environment (`gym.make`, `env.reset`, `env.step`): abstracted. The initial observation goes to the constructor, and the step is a function parameter of `Step`. `env.render`, `env.close` and the `DISPLAY` check (opencog-gym.py:35, 44, 419-420, 453) are not modelled.
- AtomSpace and OpenPsi wiring (opencog-gym.py:26-31, 459-470): a foreign runtime and scheduler. Inserting atoms into the AtomSpace is shown only as the `Tick` record that `Step` returns.
- `time.sleep` and the `print` calls (opencog-gym.py:407, 412-448): I/O with no effect on behaviour.
- Decimal formatting of numbers in `NumberNode(str(...))` and `TimeNode(str(i))`: numbers are kept as values.
- A real deduction formula combining context truth with rule truth (opencog-gym.py:370-376): only intent in the source. Only the (1, 0) placeholder is modelled.
- Schematics.Deduce: does not model the hash-dependent iteration order of the Python set; the model fixes first-occurrence order.
- Controller.StubDecision: which variate goes with Go Left and that a tie goes to Go Left come from the model's fixed first-occurrence order; in Python they depend on the atoms' hashes.
- Controller.StubActionHasCode: the code it states for each variate ordering comes from the model's fixed order; in Python the pairing depends on the atoms' hashes.
- Controller.CartPole.Step: the clause that gives `gymAction` from the variates relies on the model's fixed order of the distribution; in Python that order depends on the atoms' hashes.
- Schematics.GetActionSpec: "first Execution clause" means first in the written order of the And body; the AtomSpace stores an AndLink's outgoing set in a canonical order, which the model does not compute.
- Schematics.GetActionIgnoresSecondExecution: the clause it calls first is first in the written order, not in the AtomSpace's canonical order.
- Schematics.Plan: the positions of the context and the action among the conjuncts are those of the written order; an AndLink in the AtomSpace is unordered.
- Schematics.GetActionSpec: a node where a link is expected is treated as having no outgoing atoms; the exact exception type the bindings raise there is not modelled.
- Floating-point arithmetic: truth values, variates, observations and rewards are exact reals.

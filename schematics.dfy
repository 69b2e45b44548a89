/** Cognitive schematics and the two steps that work on them: the stub
    planner (plan) and the stub deduction engine (deduce), together with
    the extraction of a schematic's action (get_action).

    A cognitive schematic is the link
      PredictiveImplicationScope <vardecl> <expiry> (And <context>... Execution(<action>)) <goal>
    annotated with a truth value. */
module Schematics {

  import opened Atoms
  import opened Translate

  /** The conjuncts of a schematic's body, its third outgoing atom. */
  function Conjuncts(cs: Atom): seq<Atom>
  {
    var out := Out(cs);
    if |out| < 3 then [] else Out(out[2])
  }

  /** `j` is the position of the first Execution clause of `cnjs`. */
  predicate IsFirstExecution(cnjs: seq<Atom>, j: int)
  {
    && 0 <= j < |cnjs|
    && IsExecution(cnjs[j])
    && (forall i :: 0 <= i < j ==> !IsExecution(cnjs[i]))
  }

  /** The search `next(x for x in cnjs if x is an ExecutionLink)`. */
  function FirstExecution(cnjs: seq<Atom>): (r: Option<nat>)
    ensures r.Some? ==> IsFirstExecution(cnjs, r.value)
    ensures r.None? <==> forall i :: 0 <= i < |cnjs| ==> !IsExecution(cnjs[i])
  {
    if |cnjs| == 0 then None
    else if IsExecution(cnjs[0]) then Some(0)
    else
      match FirstExecution(cnjs[1..])
      case None => None
      case Some(j) => Some(j + 1)
  }

  /** The number of Execution clauses among `cnjs`. */
  function ExecutionCount(cnjs: seq<Atom>): nat
  {
    if |cnjs| == 0 then 0
    else (if IsExecution(cnjs[0]) then 1 else 0) + ExecutionCount(cnjs[1..])
  }

  /** A schematic in the format get_action's docstring gives
      (opencog-gym.py:177-188): a body with exactly one Execution clause,
      and that clause names an action. */
  predicate WellFormedSchematic(cs: Atom)
  {
    && |Out(cs)| >= 3
    && ExecutionCount(Conjuncts(cs)) == 1
    && forall j :: 0 <= j < |Conjuncts(cs)| && IsExecution(Conjuncts(cs)[j]) ==> |Out(Conjuncts(cs)[j])| > 0
  }

  /** The action of a schematic: the first outgoing atom of the first
      Execution clause of its body. */
  function GetAction(cs: Atom): Result<Atom>
  {
    var out := Out(cs);
    if |out| < 3 then Err(MissingOutgoing)
    else
      var cnjs := Out(out[2]);
      match FirstExecution(cnjs)
      case None => Err(NoExecution)
      case Some(j) => if |Out(cnjs[j])| == 0 then Err(MissingOutgoing) else Ok(Out(cnjs[j])[0])
  }

  /** What get_action computes: the action of the first Execution clause.
      A missing body or action is an index error and a body without an
      Execution clause a failed search; a second Execution clause goes
      unnoticed. */
  lemma GetActionSpec(cs: Atom)
    ensures GetAction(cs).Ok? <==>
              |Out(cs)| >= 3 && exists j :: IsFirstExecution(Conjuncts(cs), j) && |Out(Conjuncts(cs)[j])| > 0
    ensures GetAction(cs).Ok? ==>
              exists j :: IsFirstExecution(Conjuncts(cs), j) && GetAction(cs).value == Out(Conjuncts(cs)[j])[0]
    ensures GetAction(cs) == Err(NoExecution) <==>
              |Out(cs)| >= 3 && forall j :: 0 <= j < |Conjuncts(cs)| ==> !IsExecution(Conjuncts(cs)[j])
    ensures GetAction(cs) == Err(MissingOutgoing) <==>
              |Out(cs)| < 3 || exists j :: IsFirstExecution(Conjuncts(cs), j) && |Out(Conjuncts(cs)[j])| == 0
  {
    var cnjs := Conjuncts(cs);
    if |Out(cs)| >= 3 {
      match FirstExecution(cnjs)
      case None =>
      case Some(j) => FirstExecutionUnique(cnjs, j);
    }
  }

  lemma FirstExecutionUnique(cnjs: seq<Atom>, j: int)
    requires IsFirstExecution(cnjs, j)
    ensures forall k :: IsFirstExecution(cnjs, k) ==> k == j
  {
  }

  lemma {:induction false} ExecutionCountPositive(cnjs: seq<Atom>, j: nat)
    requires j < |cnjs| && IsExecution(cnjs[j])
    ensures ExecutionCount(cnjs) >= 1
  {
    if j > 0 {
      ExecutionCountPositive(cnjs[1..], j - 1);
    }
  }

  /** In a body with a single Execution clause, that clause is the first. */
  lemma {:induction false} SingleExecutionIsFirst(cnjs: seq<Atom>, j: nat)
    requires j < |cnjs| && IsExecution(cnjs[j]) && ExecutionCount(cnjs) == 1
    ensures FirstExecution(cnjs) == Some(j)
  {
    if j > 0 {
      ExecutionCountPositive(cnjs[1..], j - 1);
      SingleExecutionIsFirst(cnjs[1..], j - 1);
    }
  }

  /** On a well-formed schematic, get_action returns the action of its
      one Execution clause. */
  lemma GetActionOfWellFormed(cs: Atom, j: nat)
    requires WellFormedSchematic(cs)
    requires j < |Conjuncts(cs)| && IsExecution(Conjuncts(cs)[j])
    ensures GetAction(cs) == Ok(Out(Conjuncts(cs)[j])[0])
  {
    SingleExecutionIsFirst(Conjuncts(cs), j);
  }

  /** get_action does not check that the Execution clause is unique: of
      two, the first one's action is returned. */
  lemma GetActionIgnoresSecondExecution(vardecl: Atom, expiry: Atom, goal: Atom)
    ensures var cs := Link(PredictiveImplicationScope,
                           [vardecl, expiry, Link(And, [Link(Execution, [GoRight]), Link(Execution, [GoLeft])]), goal]);
            !WellFormedSchematic(cs) && GetAction(cs) == Ok(GoRight)
  {
    var cnjs := [Link(Execution, [GoRight]), Link(Execution, [GoLeft])];
    assert ExecutionCount(cnjs) == 1 + ExecutionCount(cnjs[1..]);
    assert ExecutionCount(cnjs[1..]) == 1 + ExecutionCount(cnjs[2..]);
  }

  lemma ExecutionCountOfBody(cnjs: seq<Atom>)
    requires |cnjs| == 3 && !IsExecution(cnjs[0]) && !IsExecution(cnjs[1]) && IsExecution(cnjs[2])
    ensures ExecutionCount(cnjs) == 1
  {
    assert cnjs[1..][1..][1..] == [];
    assert ExecutionCount(cnjs[1..][1..]) == 1;
    assert ExecutionCount(cnjs[1..]) == 1;
  }

  const AngleVar := Node(Variable, "$angle")
  const PoleAngleContext := Link(Evaluation, [Node(Predicate, "Pole Angle"), AngleVar])

  /** The schematic "context, and then execute `action`, lead to a reward
      of 1 after `expiry`", with truth value (0.9, 0.1). */
  function HardwiredSchematic(expiry: int, test: Atom, action: Atom): Annotated
  {
    Annotated(
      Link(PredictiveImplicationScope,
           [Link(TypedVariable, [AngleVar, Node(Type, "NumberNode")]),
            Number(expiry as real),
            Link(And, [PoleAngleContext, test, Link(Execution, [action])]),
            Evaluated("Reward", 1.0)]),
      Some(TruthValue(0.9, 0.1)))
  }

  /** The two hardwired schematics, [go left if 0 > angle, go right if
      angle > 0]; the goal argument is not used. */
  function Plan(goal: Atom, expiry: int): (r: seq<Annotated>)
    ensures |r| == 2
    ensures forall k :: 0 <= k < 2 ==>
              && r[k].tv == Some(TruthValue(0.9, 0.1))
              && r[k].atom.Link? && r[k].atom.ltype == PredictiveImplicationScope && |Out(r[k].atom)| == 4
              && Out(r[k].atom)[1] == Number(expiry as real)
              && EvaluatedNumber(Out(r[k].atom)[3], "Reward") == Some(1.0)
              && WellFormedSchematic(r[k].atom)
              && Conjuncts(r[k].atom)[0] == PoleAngleContext
    ensures GetAction(r[0].atom) == Ok(GoLeft) && Conjuncts(r[0].atom)[1] == Link(GreaterThan, [Number(0.0), AngleVar])
    ensures GetAction(r[1].atom) == Ok(GoRight) && Conjuncts(r[1].atom)[1] == Link(GreaterThan, [AngleVar, Number(0.0)])
  {
    var csR := HardwiredSchematic(expiry, Link(GreaterThan, [AngleVar, Number(0.0)]), GoRight);
    var csL := HardwiredSchematic(expiry, Link(GreaterThan, [Number(0.0), AngleVar]), GoLeft);
    ExecutionCountOfBody(Conjuncts(csL.atom));
    ExecutionCountOfBody(Conjuncts(csR.atom));
    [csL, csR]
  }

  /** The actions of `css`, in order, or the error of the first schematic
      whose action cannot be extracted. */
  function ActionsOf(css: seq<Annotated>): (r: Result<seq<Atom>>)
    ensures r.Ok? <==> forall i :: 0 <= i < |css| ==> GetAction(css[i].atom).Ok?
    ensures r.Ok? ==> |r.value| == |css| && forall i :: 0 <= i < |css| ==> GetAction(css[i].atom) == Ok(r.value[i])
    ensures r.Err? ==> exists i :: 0 <= i < |css| && GetAction(css[i].atom) == Err(r.error)
                                   && forall j :: 0 <= j < i ==> GetAction(css[j].atom).Ok?
  {
    if |css| == 0 then Ok([])
    else
      match GetAction(css[0].atom)
      case Err(e) => Err(e)
      case Ok(a) =>
        match ActionsOf(css[1..])
        case Err(e) =>
          assert forall i :: 1 <= i < |css| ==> css[1..][i - 1] == css[i];
          Err(e)
        case Ok(rest) => Ok([a] + rest)
  }

  predicate Distinct(xs: seq<Atom>)
  {
    forall i, j :: 0 <= i < j < |xs| ==> xs[i] != xs[j]
  }

  /** The distinct elements of `xs`, in order of first occurrence. */
  function Dedup(xs: seq<Atom>): (d: seq<Atom>)
    ensures forall x :: x in d <==> x in xs
    ensures Distinct(d)
    ensures |d| <= |xs|
  {
    if |xs| == 0 then []
    else
      var d := Dedup(xs[..|xs| - 1]);
      assert xs == xs[..|xs| - 1] + [xs[|xs| - 1]];
      if xs[|xs| - 1] in d then d else d + [xs[|xs| - 1]]
  }

  const StubTv := TruthValue(1.0, 0.0)

  /** The actions of an action distribution, in order. */
  function Keys(dist: seq<(Atom, TruthValue)>): seq<Atom>
  {
    seq(|dist|, k requires 0 <= k < |dist| => dist[k].0)
  }

  /** Pairs each action with the placeholder truth value. */
  function StubDistribution(d: seq<Atom>): seq<(Atom, TruthValue)>
  {
    seq(|d|, k requires 0 <= k < |d| => (d[k], StubTv))
  }

  /** The action distribution: one entry per distinct action of `css`,
      each with the placeholder truth value (1, 0). An empty list gives an
      empty distribution; a schematic without an action fails the call
      with that schematic's error. */
  function Deduce(css: seq<Annotated>): (r: Result<seq<(Atom, TruthValue)>>)
    ensures r.Ok? <==> ActionsOf(css).Ok?
    ensures r.Err? ==> r.error == ActionsOf(css).error
    ensures r.Ok? ==> forall a :: a in Keys(r.value) <==> a in ActionsOf(css).value
    ensures r.Ok? ==> Distinct(Keys(r.value)) && |r.value| <= |css|
    ensures r.Ok? ==> forall k :: 0 <= k < |r.value| ==> r.value[k].1 == StubTv
  {
    match ActionsOf(css)
    case Err(e) => Err(e)
    case Ok(acts) =>
      var d := Dedup(acts);
      var dist := StubDistribution(d);
      assert Keys(dist) == d;
      Ok(dist)
  }

  /** On the planner's output the distribution is Go Left then Go Right,
      both with the placeholder truth value. */
  lemma DeducePlan(goal: Atom, expiry: int)
    ensures Deduce(Plan(goal, expiry)) == Ok([(GoLeft, StubTv), (GoRight, StubTv)])
  {
    var css := Plan(goal, expiry);
    var tail := css[1..];
    assert tail[0] == css[1] && tail[1..] == [];
    assert ActionsOf(tail[1..]) == Ok([]);
    assert GetAction(tail[0].atom) == Ok(GoRight);
    assert [GoRight] + [] == [GoRight];
    assert ActionsOf(tail) == Ok([GoRight]);
    assert GetAction(css[0].atom) == Ok(GoLeft);
    assert [GoLeft] + [GoRight] == [GoLeft, GoRight];
    assert ActionsOf(css) == Ok([GoLeft, GoRight]);
    var acts := [GoLeft, GoRight];
    assert acts[..1][..0] == [];
    assert Dedup(acts[..1]) == [GoLeft];
    assert acts[..|acts| - 1] == acts[..1];
    assert Dedup(acts) == acts;
    assert StubDistribution(acts) == [(GoLeft, StubTv), (GoRight, StubTv)];
  }
}

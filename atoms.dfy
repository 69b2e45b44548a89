/** The value vocabulary of the CartPole agent: atoms of the AtomSpace
    (nodes and links, compared structurally), truth values, and the
    outcome type used where the Python code raises. */
module Atoms {

  datatype Option<+T> = None | Some(value: T)

  /** Why an operation of the agent fails; each stands for an exception
      the Python code lets propagate. */
  datatype Error =
    | MissingOutgoing    // indexing past an outgoing set (IndexError)
    | NoExecution        // `next` over conjuncts finds no ExecutionLink (StopIteration)
    | EmptyDistribution  // `max` over an empty list (ValueError)

  datatype Result<+T> = Ok(value: T) | Err(error: Error)

  datatype NodeType = Predicate | Schema | Variable | Type
  datatype LinkType =
    | Evaluation | Execution | And | GreaterThan | TypedVariable
    | PredictiveImplicationScope | AtTime

  /** An atom is identified by its type and its name or outgoing set.
      Numbers and times are kept as values rather than as the decimal
      strings the Python code names them with. */
  datatype Atom =
    | Node(ntype: NodeType, name: string)
    | Number(number: real)
    | Time(tick: int)
    | Link(ltype: LinkType, out: seq<Atom>)

  /** A (strength, confidence) pair, as passed to the TruthValue constructor. */
  datatype TruthValue = TruthValue(mean: real, confidence: real)

  /** An atom together with the truth value its construction sets, if any. */
  datatype Annotated = Annotated(atom: Atom, tv: Option<TruthValue>)

  /** The outgoing set; a node has none. */
  function Out(a: Atom): seq<Atom>
  {
    if a.Link? then a.out else []
  }

  predicate IsExecution(a: Atom)
  {
    a.Link? && a.ltype == Execution
  }

  const TrueTv := TruthValue(1.0, 1.0)
  const GoRight := Node(Schema, "Go Right")
  const GoLeft := Node(Schema, "Go Left")
}

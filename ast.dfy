/**
 * The simulator's syntax tree: one node per gate record, holding the values
 * the parser read. Nodes are built once and never changed, so they are values.
 */
module Ast {
  import opened Wrappers
  import opened Numbers

  /** `gate_type`: the four kinds a node can report. */
  datatype GateType = SingleGate | CnotGate | CzGate | SwapGate

  /** The enumerator value of each kind, in declaration order. */
  function Ordinal(g: GateType): (r: nat)
    ensures r < 4
  {
    match g
    case SingleGate => 0
    case CnotGate => 1
    case CzGate => 2
    case SwapGate => 3
  }

  /** The four kinds are distinct and there are no others. */
  lemma FourKinds()
    ensures forall a: GateType, b: GateType :: Ordinal(a) == Ordinal(b) ==> a == b
    ensures {Ordinal(SingleGate), Ordinal(CnotGate), Ordinal(CzGate), Ordinal(SwapGate)} == {0, 1, 2, 3}
  {
  }

  /**
   * The node classes, each holding its constructor's arguments unchanged.
   * A single gate keeps the theta text that `std::stod` accepted; its
   * floating-point value is not modelled. The measurement node is built by
   * the parser but has no reported kind.
   */
  datatype AstNode =
    | SingleGateNode(gate: string, qubit: SizeT, theta: string)
    | CnotGateNode(control: SizeT, target: SizeT)
    | CzGateNode(control: SizeT, target: SizeT)
    | SwapGateNode(qubit1: SizeT, qubit2: SizeT)
    | MeasureNthNode(qubit: SizeT)

  /** `get_gate_type()`, absent for the measurement node. */
  function GetGateType(n: AstNode): (r: Option<GateType>)
    ensures r == Some(SingleGate) <==> n.SingleGateNode?
    ensures r == Some(CnotGate) <==> n.CnotGateNode?
    ensures r == Some(CzGate) <==> n.CzGateNode?
    ensures r == Some(SwapGate) <==> n.SwapGateNode?
    ensures r == None <==> n.MeasureNthNode?
  {
    match n
    case SingleGateNode(_, _, _) => Some(SingleGate)
    case CnotGateNode(_, _) => Some(CnotGate)
    case CzGateNode(_, _) => Some(CzGate)
    case SwapGateNode(_, _) => Some(SwapGate)
    case MeasureNthNode(_) => None
  }
}

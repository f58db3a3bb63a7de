/**
 * The older circuit extractor behind the "Extract Circuit Data" dialog: the
 * editor's gates as one list sorted by position, the gates touching each
 * qubit (`gatesByQubit`, keyed "Q0", "Q1", ...), and per qubit the
 * operations in execution order (`executionOrder`).
 */
module CircuitDataExtractor {
  import opened Wrappers
  import opened Numbers
  import opened StableSort
  import QuantumCircuit
  import SendToBackEnd

  /** A single-qubit gate `{ x, y, text, theta? }`. */
  datatype SingleInput = SingleInput(x: int, y: int, text: string, theta: Option<string>)

  /** One extracted gate; theta is passed through, absent when the gate has none. */
  datatype Gate =
    | Single(gateType: string, qubit: int, theta: Option<string>, position: int)
    | Cnot(control: int, target: int, position: int)
    | Cz(control: int, target: int, position: int)
    | Swap(qubit1: int, qubit2: int, position: int)

  function Position(g: Gate): int { g.position }

  /** The four mapped lists, concatenated in the order the spread lists them. */
  function AllGates(singles: seq<SingleInput>, cnots: seq<SendToBackEnd.ControlledInput>,
                    czs: seq<SendToBackEnd.ControlledInput>, swaps: seq<SendToBackEnd.SwapInput>): (r: seq<Gate>)
    ensures |r| == |singles| + |cnots| + |czs| + |swaps|
  {
    seq(|singles|, i requires 0 <= i < |singles| =>
          Single(singles[i].text, QuantumCircuit.QubitOfY(singles[i].y), singles[i].theta, singles[i].x))
    + seq(|cnots|, i requires 0 <= i < |cnots| => Cnot(cnots[i].control, cnots[i].target, cnots[i].x))
    + seq(|czs|, i requires 0 <= i < |czs| => Cz(czs[i].control, czs[i].target, czs[i].x))
    + seq(|swaps|, i requires 0 <= i < |swaps| => Swap(swaps[i].qubit1, swaps[i].qubit2, swaps[i].x))
  }

  /** `allGates`: the processed gates, none added or dropped, sorted by position. */
  function SortedGates(singles: seq<SingleInput>, cnots: seq<SendToBackEnd.ControlledInput>,
                       czs: seq<SendToBackEnd.ControlledInput>, swaps: seq<SendToBackEnd.SwapInput>): (r: seq<Gate>)
    ensures multiset(r) == multiset(AllGates(singles, cnots, czs, swaps))
  {
    SortBy(AllGates(singles, cnots, czs, swaps), Position)
  }

  /** `allGates` is nondecreasing by position, ties in concatenation order. */
  lemma SortedGatesOrder(singles: seq<SingleInput>, cnots: seq<SendToBackEnd.ControlledInput>,
                         czs: seq<SendToBackEnd.ControlledInput>, swaps: seq<SendToBackEnd.SwapInput>, p: int)
    ensures SortedBy(SortedGates(singles, cnots, czs, swaps), Position)
    ensures WithKey(SortedGates(singles, cnots, czs, swaps), Position, p)
         == WithKey(AllGates(singles, cnots, czs, swaps), Position, p)
  {
    SortBySorted(AllGates(singles, cnots, czs, swaps), Position);
    SortByStable(AllGates(singles, cnots, czs, swaps), Position, p);
  }

  /** The filter of `gatesByQubit`: the gate acts on qubit i. */
  predicate Touches(g: Gate, i: int)
  {
    match g
    case Single(_, q, _, _) => q == i
    case Cnot(c, t, _) => c == i || t == i
    case Cz(c, t, _) => c == i || t == i
    case Swap(a, b, _) => a == i || b == i
  }

  /** The filter's callback for qubit i. */
  function TouchesQubit(i: int): Gate -> bool
  {
    g => Touches(g, i)
  }

  /** ``gatesByQubit[`Q${i}`]``: the gates on qubit i, sorted again by position. */
  function OnQubit(gates: seq<Gate>, i: int): seq<Gate>
  {
    SortBy(Filter(gates, TouchesQubit(i)), Position)
  }

  /**
   * For a sorted gate list the second sort changes nothing: qubit i's list
   * holds exactly the gates that touch i, in the order of the whole list.
   */
  lemma OnQubitFilters(gates: seq<Gate>, i: int)
    requires SortedBy(gates, Position)
    ensures OnQubit(gates, i) == Filter(gates, TouchesQubit(i))
    ensures forall g :: g in OnQubit(gates, i) <==> g in gates && Touches(g, i)
  {
    SortedFilter(gates, TouchesQubit(i), Position);
    SortSorted(Filter(gates, TouchesQubit(i)), Position);
  }

  /**
   * A two-qubit gate is listed under both of its qubits; a single-qubit gate
   * is listed under its own qubit and no other.
   */
  lemma ListedUnderItsQubits(gates: seq<Gate>, g: Gate, i: int)
    requires SortedBy(gates, Position) && g in gates
    ensures !g.Single? ==>
              g in OnQubit(gates, if g.Swap? then g.qubit1 else g.control)
              && g in OnQubit(gates, if g.Swap? then g.qubit2 else g.target)
    ensures g.Single? ==> (g in OnQubit(gates, i) <==> i == g.qubit)
  {
    OnQubitFilters(gates, i);
    match g
    case Single(_, _, _, _) =>
    case Swap(a, b, _) => OnQubitFilters(gates, a); OnQubitFilters(gates, b);
    case Cnot(c, t, _) => OnQubitFilters(gates, c); OnQubitFilters(gates, t);
    case Cz(c, t, _) => OnQubitFilters(gates, c); OnQubitFilters(gates, t);
  }

  /** The key of qubit i, `Q${i}`. */
  function QubitKey(i: nat): string { "Q" + NatToString(i) }

  lemma QubitKeyInjective(i: nat, j: nat)
    requires QubitKey(i) == QubitKey(j)
    ensures i == j
  {
    assert QubitKey(i)[1..] == NatToString(i);
    assert QubitKey(j)[1..] == NatToString(j);
    NatToStringInjective(i, j);
  }

  /** The keys Q0 .. Q(n-1). */
  ghost function QubitKeys(n: int): set<string>
  {
    if n <= 0 then {} else QubitKeys(n - 1) + {QubitKey(n - 1)}
  }

  /** The keys of n qubits are exactly Q0 .. Q(n-1). */
  lemma {:induction false} QubitKeysExactly(n: int, key: string)
    ensures key in QubitKeys(n) <==> exists j: nat :: j < n && key == QubitKey(j)
  {
    if n > 0 {
      QubitKeysExactly(n - 1, key);
      if key == QubitKey(n - 1) {
        assert exists j: nat :: j < n && key == QubitKey(j);
      }
    }
  }

  lemma {:induction false} KeyBelow(j: nat, n: int)
    requires j < n
    ensures QubitKey(j) in QubitKeys(n)
  {
    if j < n - 1 {
      KeyBelow(j, n - 1);
    }
  }

  lemma {:induction false} KeyNotBelow(i: nat, n: int)
    requires n <= i
    ensures QubitKey(i) !in QubitKeys(n)
  {
    if n > 0 {
      KeyNotBelow(i, n - 1);
      if QubitKey(n - 1) == QubitKey(i) {
        QubitKeyInjective(n - 1, i);
      }
    }
  }

  /** Qubits 0 .. i-1 have their lists, and no other key is present. */
  ghost predicate FilledUpTo(byQubit: map<string, seq<Gate>>, gates: seq<Gate>, i: nat)
  {
    byQubit.Keys == QubitKeys(i) && forall j: nat :: j < i ==> QubitKey(j) in byQubit && byQubit[QubitKey(j)] == OnQubit(gates, j)
  }

  lemma FillStep(byQubit: map<string, seq<Gate>>, gates: seq<Gate>, i: nat)
    requires FilledUpTo(byQubit, gates, i)
    ensures FilledUpTo(byQubit[QubitKey(i) := OnQubit(gates, i)], gates, i + 1)
  {
    var m := byQubit[QubitKey(i) := OnQubit(gates, i)];
    KeyNotBelow(i, i);
    forall j: nat | j < i ensures QubitKey(j) in m && m[QubitKey(j)] == OnQubit(gates, j) {
      KeyBelow(j, i);
    }
  }

  /** The loop that fills `gatesByQubit`, one key per qubit. */
  method GatesByQubit(gates: seq<Gate>, numQubits: int) returns (byQubit: map<string, seq<Gate>>)
    ensures byQubit.Keys == QubitKeys(numQubits)
    ensures forall i: nat :: i < numQubits ==> QubitKey(i) in byQubit && byQubit[QubitKey(i)] == OnQubit(gates, i)
  {
    var n := if numQubits < 0 then 0 else numQubits;
    byQubit := map[];
    for i := 0 to n
      invariant FilledUpTo(byQubit, gates, i)
    {
      FillStep(byQubit, gates, i);
      byQubit := byQubit[QubitKey(i) := OnQubit(gates, i)];
    }
  }

  // ---------------------------------------------------------------------
  // executionOrder

  /** One entry of a qubit's execution order. */
  datatype Step =
    | SingleStep(operation: string, qubit: int, position: int)
    | ControlledStep(operation: string, control: int, target: int, position: int)
    | SwapStep(operation: string, qubit1: int, qubit2: int, position: int)

  /** The operation name: the gate's own type for single gates, else CNOT, CZ or SWAP. */
  function Operation(g: Gate): string
  {
    match g
    case Single(t, _, _, _) => t
    case Cnot(_, _, _) => "CNOT"
    case Cz(_, _, _) => "CZ"
    case Swap(_, _, _) => "SWAP"
  }

  function StepOf(g: Gate): Step
  {
    match g
    case Single(t, q, _, p) => SingleStep(t, q, p)
    case Cnot(c, t, p) => ControlledStep("CNOT", c, t, p)
    case Cz(c, t, p) => ControlledStep("CZ", c, t, p)
    case Swap(a, b, p) => SwapStep("SWAP", a, b, p)
  }

  function Steps(gates: seq<Gate>): seq<Step>
  {
    seq(|gates|, k requires 0 <= k < |gates| => StepOf(gates[k]))
  }

  /**
   * A qubit's steps follow its gates one for one: same length, same order,
   * each naming its gate's operation at its gate's position.
   */
  lemma StepsFollowGates(gates: seq<Gate>)
    ensures |Steps(gates)| == |gates|
    ensures forall k :: 0 <= k < |gates| ==>
              Steps(gates)[k].operation == Operation(gates[k]) && Steps(gates)[k].position == gates[k].position
    ensures SortedBy(gates, Position) ==>
              forall k, m :: 0 <= k < m < |gates| ==> Steps(gates)[k].position <= Steps(gates)[m].position
  {
    var s := Steps(gates);
    forall k | 0 <= k < |gates|
      ensures s[k].operation == Operation(gates[k]) && s[k].position == gates[k].position
    {
      match gates[k]
      case Single(_, _, _, _) =>
      case Cnot(_, _, _) =>
      case Cz(_, _, _) =>
      case Swap(_, _, _) =>
    }
    if SortedBy(gates, Position) {
      forall k, m | 0 <= k < m < |gates| ensures s[k].position <= s[m].position {
        assert Position(gates[k]) <= Position(gates[m]);
      }
    }
  }

  /** The reduce over the keys of `gatesByQubit` (Q0 .. Q(n-1), in insertion order). */
  method ExecutionOrder(byQubit: map<string, seq<Gate>>, numQubits: int) returns (order: map<string, seq<Step>>)
    requires byQubit.Keys == QubitKeys(numQubits)
    ensures order.Keys == byQubit.Keys
    ensures forall k :: k in order ==> order[k] == Steps(byQubit[k])
  {
    var n := if numQubits < 0 then 0 else numQubits;
    order := map[];
    for i := 0 to n
      invariant order.Keys == QubitKeys(i)
      invariant forall k :: k in order ==> k in byQubit && order[k] == Steps(byQubit[k])
    {
      KeyBelow(i, n);
      order := order[QubitKey(i) := Steps(byQubit[QubitKey(i)])];
    }
  }

  /** The object `extractCircuitData` returns. */
  datatype CircuitData = CircuitData(numQubits: int, gates: seq<Gate>,
                                     gatesByQubit: map<string, seq<Gate>>, executionOrder: map<string, seq<Step>>)

  /**
   * `extractCircuitData(gates, cnotGates, czGates, swapGates)` with the qubit
   * count as a parameter: the sorted gates, each qubit's gates and each
   * qubit's steps.
   */
  method Extract(singles: seq<SingleInput>, cnots: seq<SendToBackEnd.ControlledInput>,
                 czs: seq<SendToBackEnd.ControlledInput>, swaps: seq<SendToBackEnd.SwapInput>, numQubits: int)
    returns (data: CircuitData)
    ensures data.numQubits == numQubits
    ensures data.gates == SortedGates(singles, cnots, czs, swaps)
    ensures data.gatesByQubit.Keys == data.executionOrder.Keys == QubitKeys(numQubits)
    ensures forall i: nat :: i < numQubits ==>
              QubitKey(i) in data.gatesByQubit && QubitKey(i) in data.executionOrder
              && data.gatesByQubit[QubitKey(i)] == Filter(data.gates, TouchesQubit(i))
              && data.executionOrder[QubitKey(i)] == Steps(data.gatesByQubit[QubitKey(i)])
  {
    var gates := SortedGates(singles, cnots, czs, swaps);
    SortBySorted(AllGates(singles, cnots, czs, swaps), Position);
    var byQubit := GatesByQubit(gates, numQubits);
    forall i: nat | i < numQubits
      ensures QubitKey(i) in byQubit && byQubit[QubitKey(i)] == Filter(gates, TouchesQubit(i))
    {
      OnQubitFilters(gates, i);
    }
    var order := ExecutionOrder(byQubit, numQubits);
    data := CircuitData(numQubits, gates, byQubit, order);
  }
}

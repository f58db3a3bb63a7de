/**
 * The circuit editor's geometry and state rules: clamping, snapping a
 * dropped gate to a qubit line, the qubit index of a gate's y coordinate,
 * the order numbers drawn on gates per qubit line, and the handlers that
 * add, move and delete gates. Pixel coordinates are integers.
 */
module QuantumCircuit {
  import opened Numbers
  import opened StableSort
  import opened Seqs

  const QubitSpacing: int := 50
  const NumQubits: int := 5
  const GateSize: int := 40
  const CanvasMinX: int := 50
  const CanvasMaxX: int := 750 - GateSize

  /** `Math.max(lo, Math.min(value, hi))`. */
  function Clamp(value: int, lo: int, hi: int): (r: int)
    ensures lo <= hi ==> lo <= r <= hi
    ensures lo <= value <= hi ==> r == value
    ensures lo <= hi && value < lo ==> r == lo
    ensures lo <= hi && hi < value ==> r == hi
  {
    var m := if value < hi then value else hi;
    if lo < m then m else lo
  }

  /**
   * The y at which a gate dropped at pointerY is drawn: its centre is the
   * nearest qubit line, kept between the first and the last line. A drop
   * point halfway between two lines goes to the lower one on screen (the
   * larger y), as `Math.round` rounds halves up.
   */
  function SnapY(pointerY: int): (r: int)
    ensures (r + GateSize / 2) % QubitSpacing == 0
    ensures QubitSpacing <= r + GateSize / 2 <= NumQubits * QubitSpacing
    ensures QubitSpacing / 2 <= pointerY < NumQubits * QubitSpacing + QubitSpacing / 2 ==>
      -QubitSpacing < 2 * (r + GateSize / 2 - pointerY) <= QubitSpacing
    ensures pointerY < QubitSpacing / 2 ==> r + GateSize / 2 == QubitSpacing
    ensures NumQubits * QubitSpacing + QubitSpacing / 2 <= pointerY ==> r + GateSize / 2 == NumQubits * QubitSpacing
  {
    var desiredCenter := RoundDiv(pointerY, QubitSpacing) * QubitSpacing;
    var clampedCenter := Clamp(desiredCenter, QubitSpacing, NumQubits * QubitSpacing);
    clampedCenter - GateSize / 2
  }

  /**
   * `Math.round((y + 20) / 50) - 1`: the qubit line a gate drawn at y sits on;
   * it is the line whose band [50q + 5, 50q + 55) holds y.
   */
  function QubitOfY(y: int): (q: int)
    ensures QubitSpacing * q + 5 <= y < QubitSpacing * q + 55
  {
    RoundDiv(y + GateSize / 2, QubitSpacing) - 1
  }

  /** y is where a gate on a qubit line is drawn: 20 above one of the five lines. */
  ghost predicate Snapped(y: int)
  {
    (y + GateSize / 2) % QubitSpacing == 0 && QubitSpacing <= y + GateSize / 2 <= NumQubits * QubitSpacing
  }

  /** A gate drawn at a snapped y is on one of the five qubit lines, the one its centre is on. */
  lemma SnappedOnLine(y: int)
    requires Snapped(y)
    ensures 0 <= QubitOfY(y) < NumQubits
    ensures QubitOfY(y) == (y + GateSize / 2) / QubitSpacing - 1
  {
    var c := (y + GateSize / 2) / QubitSpacing;
    assert y + GateSize / 2 == QubitSpacing * c;
  }

  /** A snapped gate always sits on one of the five qubit lines. */
  lemma SnappedQubitInRange(pointerY: int)
    ensures 0 <= QubitOfY(SnapY(pointerY)) < NumQubits
    ensures QubitOfY(SnapY(pointerY)) == (SnapY(pointerY) + GateSize / 2) / QubitSpacing - 1
  {
    var y := SnapY(pointerY);
    var q := QubitOfY(y);
    var c := (y + GateSize / 2) / QubitSpacing;
    assert y + GateSize / 2 == QubitSpacing * c;
    assert q == c - 1;
  }

  // ---------------------------------------------------------------------
  // Order numbers per qubit line (combinedGroups / combinedOrders)

  /** A single-qubit gate on the canvas, `{ x, y, text }`. */
  datatype PlacedGate = PlacedGate(x: int, y: int, text: string)

  /** A CNOT on the canvas, `{ x, control, target }`. */
  datatype CnotGate = CnotGate(x: int, control: int, target: int)

  /** An entry of a qubit group: `{ type, index, x }`. */
  datatype OrderItem = SingleItem(index: nat, x: int) | CnotItem(index: nat, x: int)

  function ItemX(it: OrderItem): int { it.x }

  /** The group a single-qubit gate joins: the line it is drawn on. */
  function GroupOfGate(g: PlacedGate): int { QubitOfY(g.y) }

  /** The single-qubit gates of line q, in index order (the first forEach). */
  function SingleItems(gates: seq<PlacedGate>, q: int): seq<OrderItem>
  {
    if gates == [] then []
    else
      var n := |gates| - 1;
      SingleItems(gates[..n], q) + (if GroupOfGate(gates[n]) == q then [SingleItem(n, gates[n].x)] else [])
  }

  /** The CNOTs whose control is line q, in index order (the second forEach). */
  function CnotItems(cnots: seq<CnotGate>, q: int): seq<OrderItem>
  {
    if cnots == [] then []
    else
      var n := |cnots| - 1;
      CnotItems(cnots[..n], q) + (if cnots[n].control == q then [CnotItem(n, cnots[n].x)] else [])
  }

  /** `combinedGroups[q]` before sorting. */
  function Group(gates: seq<PlacedGate>, cnots: seq<CnotGate>, q: int): seq<OrderItem>
  {
    SingleItems(gates, q) + CnotItems(cnots, q)
  }

  /** `combinedGroups[q]` after its stable sort by x. */
  function Ranked(gates: seq<PlacedGate>, cnots: seq<CnotGate>, q: int): seq<OrderItem>
  {
    SortBy(Group(gates, cnots, q), ItemX)
  }

  /** Entry it names a gate of line q (a CNOT by its control), with that gate's x. */
  ghost predicate Belongs(gates: seq<PlacedGate>, cnots: seq<CnotGate>, q: int, it: OrderItem)
  {
    match it
    case SingleItem(i, x) => i < |gates| && GroupOfGate(gates[i]) == q && x == gates[i].x
    case CnotItem(i, x) => i < |cnots| && cnots[i].control == q && x == cnots[i].x
  }

  lemma {:induction false} SingleItemsMembers(gates: seq<PlacedGate>, q: int, it: OrderItem)
    ensures it in SingleItems(gates, q) <==>
      it.SingleItem? && it.index < |gates| && GroupOfGate(gates[it.index]) == q && it.x == gates[it.index].x
  {
    if gates != [] {
      var n := |gates| - 1;
      SingleItemsMembers(gates[..n], q, it);
    }
  }

  lemma {:induction false} CnotItemsMembers(cnots: seq<CnotGate>, q: int, it: OrderItem)
    ensures it in CnotItems(cnots, q) <==>
      it.CnotItem? && it.index < |cnots| && cnots[it.index].control == q && it.x == cnots[it.index].x
  {
    if cnots != [] {
      var n := |cnots| - 1;
      CnotItemsMembers(cnots[..n], q, it);
    }
  }

  /** The entries of a group are exactly the gates that join it, each with its own x. */
  lemma GroupMembers(gates: seq<PlacedGate>, cnots: seq<CnotGate>, q: int, it: OrderItem)
    ensures it in Group(gates, cnots, q) <==> Belongs(gates, cnots, q, it)
  {
    SingleItemsMembers(gates, q, it);
    CnotItemsMembers(cnots, q, it);
  }

  /** Sorting a group keeps exactly its entries. */
  lemma RankedMembers(gates: seq<PlacedGate>, cnots: seq<CnotGate>, q: int)
    ensures forall it :: it in Ranked(gates, cnots, q) <==> Belongs(gates, cnots, q, it)
  {
    var g := Group(gates, cnots, q);
    var r := Ranked(gates, cnots, q);
    forall it ensures it in r <==> Belongs(gates, cnots, q, it) {
      GroupMembers(gates, cnots, q, it);
      assert it in r <==> it in multiset(r);
      assert it in g <==> it in multiset(g);
    }
  }

  /** Entry it is the o-th entry, counting from 1, of r. */
  ghost predicate RankedAt(r: seq<OrderItem>, it: OrderItem, o: int)
  {
    1 <= o <= |r| && r[o - 1] == it
  }

  /** Single gate i has order number o: it is the o-th entry of its sorted group. */
  ghost predicate SingleRanked(gates: seq<PlacedGate>, cnots: seq<CnotGate>, i: nat, o: int)
    requires i < |gates|
  {
    RankedAt(Ranked(gates, cnots, GroupOfGate(gates[i])), SingleItem(i, gates[i].x), o)
  }

  /** CNOT i has order number o: it is the o-th entry of its control line's sorted group. */
  ghost predicate CnotRanked(gates: seq<PlacedGate>, cnots: seq<CnotGate>, i: nat, o: int)
    requires i < |cnots|
  {
    RankedAt(Ranked(gates, cnots, cnots[i].control), CnotItem(i, cnots[i].x), o)
  }

  /** Single gate i exists and sits on one of the lines. */
  ghost predicate SingleOn(gates: seq<PlacedGate>, i: int, lines: set<int>)
  {
    0 <= i < |gates| && GroupOfGate(gates[i]) in lines
  }

  /** CNOT i exists and its control is one of the lines. */
  ghost predicate CnotOn(cnots: seq<CnotGate>, i: int, lines: set<int>)
  {
    0 <= i < |cnots| && cnots[i].control in lines
  }

  /**
   * The gates with an order number are exactly those of the lines in done,
   * and each number is the gate's rank in its line's entry of sorted, the
   * groups sorted so far.
   */
  ghost predicate OrdersCover(gates: seq<PlacedGate>, cnots: seq<CnotGate>, sorted: map<int, seq<OrderItem>>,
                              singleOrder: map<nat, nat>, cnotOrder: map<nat, nat>, done: set<int>)
  {
    && (forall i {:trigger i in singleOrder} :: i in singleOrder ==>
          SingleOn(gates, i, done) && GroupOfGate(gates[i]) in sorted &&
          RankedAt(sorted[GroupOfGate(gates[i])], SingleItem(i, gates[i].x), singleOrder[i]))
    && (forall i :: SingleOn(gates, i, done) ==> i in singleOrder)
    && (forall i {:trigger i in cnotOrder} :: i in cnotOrder ==>
          CnotOn(cnots, i, done) && cnots[i].control in sorted &&
          RankedAt(sorted[cnots[i].control], CnotItem(i, cnots[i].x), cnotOrder[i]))
    && (forall i :: CnotOn(cnots, i, done) ==> i in cnotOrder)
  }

  /** Every group sorted so far is its line's group sorted by x. */
  ghost predicate SortedGroups(gates: seq<PlacedGate>, cnots: seq<CnotGate>, sorted: map<int, seq<OrderItem>>)
  {
    forall q :: q in sorted ==> sorted[q] == Ranked(gates, cnots, q)
  }

  /**
   * The order numbers of `combinedOrders`: each gate's number is its rank, from 1,
   * in the x-sorted group of its line (a CNOT under its control line only).
   */
  method CombinedOrders(gates: seq<PlacedGate>, cnots: seq<CnotGate>)
    returns (singleOrder: map<nat, nat>, cnotOrder: map<nat, nat>)
    ensures forall i :: i in singleOrder <==> 0 <= i < |gates|
    ensures forall i :: i in cnotOrder <==> 0 <= i < |cnots|
    ensures forall i :: 0 <= i < |gates| ==> SingleRanked(gates, cnots, i, singleOrder[i])
    ensures forall i :: 0 <= i < |cnots| ==> CnotRanked(gates, cnots, i, cnotOrder[i])
  {
    var groups := CombinedGroups(gates, cnots);
    ghost var sorted;
    singleOrder, cnotOrder, sorted := NumberGroups(gates, cnots, groups);
    SinglesComplete(gates, cnots, groups, sorted, singleOrder, cnotOrder);
    CnotsComplete(gates, cnots, groups, sorted, singleOrder, cnotOrder);
  }

  /** `Object.keys(combinedGroups).forEach(...)`: sort and number every group. */
  method NumberGroups(gates: seq<PlacedGate>, cnots: seq<CnotGate>, groups: map<int, seq<OrderItem>>)
    returns (singleOrder: map<nat, nat>, cnotOrder: map<nat, nat>, ghost sorted: map<int, seq<OrderItem>>)
    requires forall q :: q in groups ==> groups[q] == Group(gates, cnots, q)
    ensures sorted.Keys == groups.Keys
    ensures SortedGroups(gates, cnots, sorted)
    ensures OrdersCover(gates, cnots, sorted, singleOrder, cnotOrder, groups.Keys)
  {
    singleOrder, cnotOrder := map[], map[];
    sorted := map[];
    var pending := groups.Keys;
    while pending != {}
      invariant pending <= groups.Keys && sorted.Keys == groups.Keys - pending
      invariant SortedGroups(gates, cnots, sorted)
      invariant OrdersCover(gates, cnots, sorted, singleOrder, cnotOrder, sorted.Keys)
      decreases |pending|
    {
      SomeLine(pending);
      var q :| q in pending;
      singleOrder, cnotOrder, sorted := NumberGroup(gates, cnots, q, groups[q], singleOrder, cnotOrder, sorted);
      pending := pending - {q};
    }
  }

  /** A nonempty set of lines has a line to pick. */
  lemma SomeLine(lines: set<int>)
    requires lines != {}
    ensures exists q :: q in lines
  {
    if forall q :: q !in lines {
      assert false;
    }
  }

  /** Once every group is numbered, every single-qubit gate has its rank as its number. */
  lemma SinglesComplete(gates: seq<PlacedGate>, cnots: seq<CnotGate>, groups: map<int, seq<OrderItem>>,
                        sorted: map<int, seq<OrderItem>>, singleOrder: map<nat, nat>, cnotOrder: map<nat, nat>)
    requires forall q :: q !in groups ==> Group(gates, cnots, q) == []
    requires SortedGroups(gates, cnots, sorted)
    requires OrdersCover(gates, cnots, sorted, singleOrder, cnotOrder, groups.Keys)
    ensures forall i :: i in singleOrder <==> 0 <= i < |gates|
    ensures forall i :: 0 <= i < |gates| ==> SingleRanked(gates, cnots, i, singleOrder[i])
  {
    forall i | 0 <= i < |gates| ensures i in singleOrder && SingleRanked(gates, cnots, i, singleOrder[i]) {
      var q := GroupOfGate(gates[i]);
      GroupMembers(gates, cnots, q, SingleItem(i, gates[i].x));
      assert SingleOn(gates, i, groups.Keys);
      assert sorted[q] == Ranked(gates, cnots, q);
    }
  }

  /** Once every group is numbered, every CNOT has its rank as its number. */
  lemma CnotsComplete(gates: seq<PlacedGate>, cnots: seq<CnotGate>, groups: map<int, seq<OrderItem>>,
                      sorted: map<int, seq<OrderItem>>, singleOrder: map<nat, nat>, cnotOrder: map<nat, nat>)
    requires forall q :: q !in groups ==> Group(gates, cnots, q) == []
    requires SortedGroups(gates, cnots, sorted)
    requires OrdersCover(gates, cnots, sorted, singleOrder, cnotOrder, groups.Keys)
    ensures forall i :: i in cnotOrder <==> 0 <= i < |cnots|
    ensures forall i :: 0 <= i < |cnots| ==> CnotRanked(gates, cnots, i, cnotOrder[i])
  {
    forall i | 0 <= i < |cnots| ensures i in cnotOrder && CnotRanked(gates, cnots, i, cnotOrder[i]) {
      var q := cnots[i].control;
      GroupMembers(gates, cnots, q, CnotItem(i, cnots[i].x));
      assert CnotOn(cnots, i, groups.Keys);
      assert sorted[q] == Ranked(gates, cnots, q);
    }
  }

  lemma SingleItemsGrow(gates: seq<PlacedGate>, i: nat)
    requires i < |gates|
    ensures forall q {:trigger SingleItems(gates[..i + 1], q)} ::
              SingleItems(gates[..i + 1], q) ==
              SingleItems(gates[..i], q) + (if q == GroupOfGate(gates[i]) then [SingleItem(i, gates[i].x)] else [])
  {
    assert gates[..i + 1][..i] == gates[..i];
  }

  lemma GroupGrows(gates: seq<PlacedGate>, cnots: seq<CnotGate>, i: nat)
    requires i < |cnots|
    ensures forall q {:trigger Group(gates, cnots[..i + 1], q)} ::
              Group(gates, cnots[..i + 1], q) ==
              Group(gates, cnots[..i], q) + (if q == cnots[i].control then [CnotItem(i, cnots[i].x)] else [])
  {
    assert cnots[..i + 1][..i] == cnots[..i];
  }

  /** `combinedGroups`: a group for every line that some gate joins. */
  method CombinedGroups(gates: seq<PlacedGate>, cnots: seq<CnotGate>) returns (groups: map<int, seq<OrderItem>>)
    ensures forall q :: q in groups ==> groups[q] == Group(gates, cnots, q) && groups[q] != []
    ensures forall q :: q !in groups ==> Group(gates, cnots, q) == []
  {
    groups := GroupSingles(gates);
    groups := GroupCnots(gates, cnots, groups);
  }

  /** The first forEach of `combinedGroups`: each single-qubit gate joins the group of its line. */
  method GroupSingles(gates: seq<PlacedGate>) returns (groups: map<int, seq<OrderItem>>)
    ensures forall q :: q in groups ==> groups[q] == SingleItems(gates, q) && groups[q] != []
    ensures forall q :: q !in groups ==> SingleItems(gates, q) == []
  {
    groups := map[];
    var i := 0;
    while i < |gates|
      invariant 0 <= i <= |gates|
      invariant forall q :: q in groups ==> groups[q] == SingleItems(gates[..i], q) && groups[q] != []
      invariant forall q :: q !in groups ==> SingleItems(gates[..i], q) == []
    {
      var qid := GroupOfGate(gates[i]);
      if qid !in groups {
        groups := groups[qid := []];
      }
      groups := groups[qid := groups[qid] + [SingleItem(i, gates[i].x)]];
      SingleItemsGrow(gates, i);
      i := i + 1;
    }
    assert gates[..i] == gates;
  }

  /** The second forEach of `combinedGroups`: each CNOT joins the group of its control line. */
  method GroupCnots(gates: seq<PlacedGate>, cnots: seq<CnotGate>, groups0: map<int, seq<OrderItem>>)
    returns (groups: map<int, seq<OrderItem>>)
    requires forall q :: q in groups0 ==> groups0[q] == SingleItems(gates, q) && groups0[q] != []
    requires forall q :: q !in groups0 ==> SingleItems(gates, q) == []
    ensures forall q :: q in groups ==> groups[q] == Group(gates, cnots, q) && groups[q] != []
    ensures forall q :: q !in groups ==> Group(gates, cnots, q) == []
  {
    groups := groups0;
    var i := 0;
    assert forall q :: Group(gates, cnots[..0], q) == SingleItems(gates, q);
    while i < |cnots|
      invariant 0 <= i <= |cnots|
      invariant forall q :: q in groups ==> groups[q] == Group(gates, cnots[..i], q) && groups[q] != []
      invariant forall q :: q !in groups ==> Group(gates, cnots[..i], q) == []
    {
      var qid := cnots[i].control;
      if qid !in groups {
        groups := groups[qid := []];
      }
      groups := groups[qid := groups[qid] + [CnotItem(i, cnots[i].x)]];
      GroupGrows(gates, cnots, i);
      i := i + 1;
    }
    assert cnots[..i] == cnots;
  }

  /**
   * Sort one group by x and give its entries the numbers 1, 2, ... in that
   * order; sorted gains that group.
   */
  method NumberGroup(gates: seq<PlacedGate>, cnots: seq<CnotGate>, q: int, group: seq<OrderItem>,
                     singleOrder0: map<nat, nat>, cnotOrder0: map<nat, nat>, ghost sorted0: map<int, seq<OrderItem>>)
    returns (singleOrder: map<nat, nat>, cnotOrder: map<nat, nat>, ghost sorted: map<int, seq<OrderItem>>)
    requires group == Group(gates, cnots, q) && q !in sorted0
    requires SortedGroups(gates, cnots, sorted0)
    requires OrdersCover(gates, cnots, sorted0, singleOrder0, cnotOrder0, sorted0.Keys)
    ensures sorted == sorted0[q := Ranked(gates, cnots, q)]
    ensures SortedGroups(gates, cnots, sorted)
    ensures OrdersCover(gates, cnots, sorted, singleOrder, cnotOrder, sorted.Keys)
  {
    singleOrder, cnotOrder := singleOrder0, cnotOrder0;
    var ranked := SortBy(group, ItemX);
    RankedMembers(gates, cnots, q);
    sorted := sorted0[q := ranked];
    NumberStart(gates, cnots, q, sorted0, ranked, singleOrder, cnotOrder, sorted0.Keys);
    var k := 0;
    while k < |ranked|
      invariant 0 <= k <= |ranked|
      invariant Numbered(gates, cnots, q, sorted, k, singleOrder, cnotOrder, sorted0.Keys)
    {
      NumberStep(gates, cnots, q, sorted, k, singleOrder, cnotOrder, sorted0.Keys);
      match ranked[k] {
        case SingleItem(index, _) =>
          singleOrder := singleOrder[index := k + 1];
        case CnotItem(index, _) =>
          cnotOrder := cnotOrder[index := k + 1];
      }
      k := k + 1;
    }
    NumberFinish(gates, cnots, q, sorted, singleOrder, cnotOrder, sorted0.Keys);
    assert sorted.Keys == sorted0.Keys + {q};
  }

  /**
   * Midway through numbering line q: the first k entries of its sorted group
   * have their numbers, and every number given so far is a correct rank.
   */
  ghost predicate Numbered(gates: seq<PlacedGate>, cnots: seq<CnotGate>, q: int, sorted: map<int, seq<OrderItem>>,
                           k: nat, singleOrder: map<nat, nat>, cnotOrder: map<nat, nat>, done: set<int>)
  {
    && q in sorted && k <= |sorted[q]|
    && (forall it :: it in sorted[q] <==> Belongs(gates, cnots, q, it))
    && (forall i :: i in singleOrder ==>
          SingleOn(gates, i, done + {q}) && GroupOfGate(gates[i]) in sorted &&
          RankedAt(sorted[GroupOfGate(gates[i])], SingleItem(i, gates[i].x), singleOrder[i]))
    && (forall i :: SingleOn(gates, i, done) ==> i in singleOrder)
    && (forall p :: 0 <= p < k && sorted[q][p].SingleItem? ==> sorted[q][p].index in singleOrder)
    && (forall i :: i in cnotOrder ==>
          CnotOn(cnots, i, done + {q}) && cnots[i].control in sorted &&
          RankedAt(sorted[cnots[i].control], CnotItem(i, cnots[i].x), cnotOrder[i]))
    && (forall i :: CnotOn(cnots, i, done) ==> i in cnotOrder)
    && (forall p :: 0 <= p < k && sorted[q][p].CnotItem? ==> sorted[q][p].index in cnotOrder)
  }

  /** Before line q is numbered, the numbers of the lines in done already satisfy the loop invariant. */
  lemma NumberStart(gates: seq<PlacedGate>, cnots: seq<CnotGate>, q: int, sorted: map<int, seq<OrderItem>>,
                    ranked: seq<OrderItem>, singleOrder: map<nat, nat>, cnotOrder: map<nat, nat>, done: set<int>)
    requires q !in done && sorted.Keys == done
    requires forall it :: it in ranked <==> Belongs(gates, cnots, q, it)
    requires OrdersCover(gates, cnots, sorted, singleOrder, cnotOrder, done)
    ensures Numbered(gates, cnots, q, sorted[q := ranked], 0, singleOrder, cnotOrder, done)
  {
  }

  /** Giving the k-th entry its number k + 1 keeps the numbering correct. */
  lemma NumberStep(gates: seq<PlacedGate>, cnots: seq<CnotGate>, q: int, sorted: map<int, seq<OrderItem>>,
                   k: nat, singleOrder: map<nat, nat>, cnotOrder: map<nat, nat>, done: set<int>)
    requires Numbered(gates, cnots, q, sorted, k, singleOrder, cnotOrder, done) && k < |sorted[q]|
    ensures match sorted[q][k]
      case SingleItem(i, _) => Numbered(gates, cnots, q, sorted, k + 1, singleOrder[i := k + 1], cnotOrder, done)
      case CnotItem(i, _) => Numbered(gates, cnots, q, sorted, k + 1, singleOrder, cnotOrder[i := k + 1], done)
  {
    assert Belongs(gates, cnots, q, sorted[q][k]);
    match sorted[q][k] {
      case SingleItem(i, _) => NumberSingle(gates, cnots, q, sorted, k, i, singleOrder, cnotOrder, done);
      case CnotItem(i, _) => NumberCnot(gates, cnots, q, sorted, k, i, singleOrder, cnotOrder, done);
    }
  }

  lemma NumberSingle(gates: seq<PlacedGate>, cnots: seq<CnotGate>, q: int, sorted: map<int, seq<OrderItem>>,
                     k: nat, index: nat, singleOrder: map<nat, nat>, cnotOrder: map<nat, nat>, done: set<int>)
    requires Numbered(gates, cnots, q, sorted, k, singleOrder, cnotOrder, done)
    requires k < |sorted[q]| && SingleOn(gates, index, {q}) && sorted[q][k] == SingleItem(index, gates[index].x)
    ensures Numbered(gates, cnots, q, sorted, k + 1, singleOrder[index := k + 1], cnotOrder, done)
  {
    var next := singleOrder[index := k + 1];
    forall i | i in next
      ensures SingleOn(gates, i, done + {q}) && GroupOfGate(gates[i]) in sorted &&
              RankedAt(sorted[GroupOfGate(gates[i])], SingleItem(i, gates[i].x), next[i])
    {
      if i != index {
        assert next[i] == singleOrder[i];
      }
    }
    forall p | 0 <= p < k + 1 && sorted[q][p].CnotItem? ensures sorted[q][p].index in cnotOrder {
      assert p != k;
    }
  }

  lemma NumberCnot(gates: seq<PlacedGate>, cnots: seq<CnotGate>, q: int, sorted: map<int, seq<OrderItem>>,
                   k: nat, index: nat, singleOrder: map<nat, nat>, cnotOrder: map<nat, nat>, done: set<int>)
    requires Numbered(gates, cnots, q, sorted, k, singleOrder, cnotOrder, done)
    requires k < |sorted[q]| && CnotOn(cnots, index, {q}) && sorted[q][k] == CnotItem(index, cnots[index].x)
    ensures Numbered(gates, cnots, q, sorted, k + 1, singleOrder, cnotOrder[index := k + 1], done)
  {
    var next := cnotOrder[index := k + 1];
    forall i | i in next
      ensures CnotOn(cnots, i, done + {q}) && cnots[i].control in sorted &&
              RankedAt(sorted[cnots[i].control], CnotItem(i, cnots[i].x), next[i])
    {
      if i != index {
        assert next[i] == cnotOrder[i];
      }
    }
    forall p | 0 <= p < k + 1 && sorted[q][p].SingleItem? ensures sorted[q][p].index in singleOrder {
      assert p != k;
    }
  }

  /** Once every entry of line q is numbered, the lines done + {q} are covered. */
  lemma NumberFinish(gates: seq<PlacedGate>, cnots: seq<CnotGate>, q: int, sorted: map<int, seq<OrderItem>>,
                     singleOrder: map<nat, nat>, cnotOrder: map<nat, nat>, done: set<int>)
    requires q in sorted && Numbered(gates, cnots, q, sorted, |sorted[q]|, singleOrder, cnotOrder, done)
    ensures OrdersCover(gates, cnots, sorted, singleOrder, cnotOrder, done + {q})
  {
    var r := sorted[q];
    forall i | SingleOn(gates, i, {q}) ensures i in singleOrder {
      assert Belongs(gates, cnots, q, SingleItem(i, gates[i].x));
      var p :| 0 <= p < |r| && r[p] == SingleItem(i, gates[i].x);
    }
    forall i | CnotOn(cnots, i, {q}) ensures i in cnotOrder {
      assert Belongs(gates, cnots, q, CnotItem(i, cnots[i].x));
      var p :| 0 <= p < |r| && r[p] == CnotItem(i, cnots[i].x);
    }
  }

  // ---------------------------------------------------------------------
  // The editor's state and its handlers

  /** `prev.filter((_, i) => i !== index)`. */
  function WithoutIndex<T>(s: seq<T>, index: int): seq<T>
  {
    if s == [] then []
    else
      var n := |s| - 1;
      WithoutIndex(s[..n], index) + (if n != index then [s[n]] else [])
  }

  /** Deleting index removes exactly that element, if there is one, and keeps the others in order. */
  lemma {:induction false} WithoutIndexRemoves<T>(s: seq<T>, index: int)
    ensures WithoutIndex(s, index) == if 0 <= index < |s| then s[..index] + s[index + 1..] else s
  {
    if s != [] {
      var n := |s| - 1;
      WithoutIndexRemoves(s[..n], index);
      if index == n {
        assert s[..n] == s[..index] + s[index + 1..] by {
          assert s[index + 1..] == [];
        }
      } else if 0 <= index < n {
        DropBeforeLast(s, index);
      } else {
        InitLast(s);
      }
    }
  }

  /** Dropping i from the front and then appending the last element is dropping i from the whole. */
  lemma DropBeforeLast<T>(s: seq<T>, i: nat)
    requires i < |s| - 1
    ensures s[..|s| - 1][..i] + s[..|s| - 1][i + 1..] + [s[|s| - 1]] == s[..i] + s[i + 1..]
  {
    var n := |s| - 1;
    assert s[..n][..i] == s[..i];
    assert s[..n][i + 1..] + [s[n]] == s[i + 1..];
  }

  /**
   * The state of the circuit editor: the placed gates, the CNOTs and the
   * CNOT selection dialog (open or not, its x and the chosen lines).
   */
  class CircuitEditor {
    var gates: seq<PlacedGate>
    var cnotGates: seq<CnotGate>
    var cnotModalOpen: bool
    var cnotX: int
    var cnotControl: int
    var cnotTarget: int

    /**
     * Every single-qubit gate is drawn on a qubit line, every CNOT joins two
     * different lines, and the dialog's choices are lines.
     */
    ghost predicate Valid()
      reads this
    {
      && (forall i :: 0 <= i < |gates| ==> Snapped(gates[i].y))
      && (forall i :: 0 <= i < |cnotGates| ==> OnCircuit(cnotGates[i]))
      && 0 <= cnotControl < NumQubits && 0 <= cnotTarget < NumQubits
    }

    ghost predicate OnCircuit(c: CnotGate)
    {
      0 <= c.control < NumQubits && 0 <= c.target < NumQubits && c.control != c.target
    }

    constructor ()
      ensures Valid()
      ensures gates == [] && cnotGates == [] && !cnotModalOpen
      ensures cnotX == 0 && cnotControl == 0 && cnotTarget == 1
    {
      gates, cnotGates := [], [];
      cnotModalOpen, cnotX := false, 0;
      cnotControl, cnotTarget := 0, 1;
    }

    /**
     * A gate dropped on the canvas: nothing for an empty type, the CNOT dialog
     * at pointerX for "CNOT", else a gate of that type at pointerX on the
     * nearest qubit line.
     */
    method Drop(pointerX: int, pointerY: int, gateType: string)
      requires Valid()
      modifies this
      ensures Valid()
      ensures gateType == "" ==> unchanged(this)
      ensures gateType == "CNOT" ==>
        cnotModalOpen && cnotX == pointerX && gates == old(gates) && cnotGates == old(cnotGates) &&
        cnotControl == old(cnotControl) && cnotTarget == old(cnotTarget)
      ensures gateType != "" && gateType != "CNOT" ==>
        gates == old(gates) + [PlacedGate(pointerX, SnapY(pointerY), gateType)] &&
        cnotGates == old(cnotGates) && cnotModalOpen == old(cnotModalOpen) && cnotX == old(cnotX) &&
        cnotControl == old(cnotControl) && cnotTarget == old(cnotTarget)
    {
      if gateType == "" {
        return;
      }
      if gateType == "CNOT" {
        cnotModalOpen := true;
        cnotX := pointerX;
      } else {
        gates := gates + [PlacedGate(pointerX, SnapY(pointerY), gateType)];
      }
    }

    /** End of dragging gate index to x: only its x changes, clamped to the canvas. */
    method GateDragEnd(index: nat, x: int)
      requires Valid() && index < |gates|
      modifies this
      ensures Valid()
      ensures gates == old(gates)[index := old(gates)[index].(x := Clamp(x, CanvasMinX, CanvasMaxX))]
      ensures cnotGates == old(cnotGates) && cnotModalOpen == old(cnotModalOpen) && cnotX == old(cnotX)
      ensures cnotControl == old(cnotControl) && cnotTarget == old(cnotTarget)
    {
      var newGates := gates;
      newGates := newGates[index := newGates[index].(x := Clamp(x, CanvasMinX, CanvasMaxX))];
      gates := newGates;
    }

    /** End of dragging CNOT index to x: only its x changes, clamped to the canvas. */
    method CnotDragEnd(index: nat, x: int)
      requires Valid() && index < |cnotGates|
      modifies this
      ensures Valid()
      ensures cnotGates == old(cnotGates)[index := old(cnotGates)[index].(x := Clamp(x, CanvasMinX, CanvasMaxX))]
      ensures gates == old(gates) && cnotModalOpen == old(cnotModalOpen) && cnotX == old(cnotX)
      ensures cnotControl == old(cnotControl) && cnotTarget == old(cnotTarget)
    {
      var newArr := cnotGates;
      newArr := newArr[index := newArr[index].(x := Clamp(x, CanvasMinX, CanvasMaxX))];
      cnotGates := newArr;
    }

    /** Right-click on gate index: that gate, and no other, is removed. */
    method DeleteGate(index: int)
      requires Valid()
      modifies this
      ensures Valid()
      ensures gates == WithoutIndex(old(gates), index)
      ensures cnotGates == old(cnotGates) && cnotModalOpen == old(cnotModalOpen) && cnotX == old(cnotX)
      ensures cnotControl == old(cnotControl) && cnotTarget == old(cnotTarget)
    {
      WithoutIndexRemoves(gates, index);
      gates := WithoutIndex(gates, index);
    }

    /** Right-click on CNOT index: that CNOT, and no other, is removed. */
    method DeleteCnot(index: int)
      requires Valid()
      modifies this
      ensures Valid()
      ensures cnotGates == WithoutIndex(old(cnotGates), index)
      ensures gates == old(gates) && cnotModalOpen == old(cnotModalOpen) && cnotX == old(cnotX)
      ensures cnotControl == old(cnotControl) && cnotTarget == old(cnotTarget)
    {
      WithoutIndexRemoves(cnotGates, index);
      cnotGates := WithoutIndex(cnotGates, index);
    }

    /** The control line chosen in the dialog (its options are the lines 0 to 4). */
    method SelectControl(q: int)
      requires Valid() && 0 <= q < NumQubits
      modifies this
      ensures Valid()
      ensures cnotControl == q
      ensures gates == old(gates) && cnotGates == old(cnotGates) && cnotModalOpen == old(cnotModalOpen)
      ensures cnotX == old(cnotX) && cnotTarget == old(cnotTarget)
    {
      cnotControl := q;
    }

    /** The target line chosen in the dialog (its options are the lines 0 to 4). */
    method SelectTarget(q: int)
      requires Valid() && 0 <= q < NumQubits
      modifies this
      ensures Valid()
      ensures cnotTarget == q
      ensures gates == old(gates) && cnotGates == old(cnotGates) && cnotModalOpen == old(cnotModalOpen)
      ensures cnotX == old(cnotX) && cnotControl == old(cnotControl)
    {
      cnotTarget := q;
    }

    /**
     * Confirm in the CNOT dialog: with control equal to target nothing changes
     * and rejected is set (the alert); otherwise exactly one CNOT is appended
     * and the dialog closes.
     */
    method CnotConfirm() returns (rejected: bool)
      requires Valid()
      modifies this
      ensures Valid()
      ensures rejected <==> old(cnotControl) == old(cnotTarget)
      ensures rejected ==> unchanged(this)
      ensures !rejected ==>
        cnotGates == old(cnotGates) + [CnotGate(cnotX, cnotControl, cnotTarget)] && !cnotModalOpen &&
        gates == old(gates) && cnotX == old(cnotX) &&
        cnotControl == old(cnotControl) && cnotTarget == old(cnotTarget)
    {
      if cnotControl == cnotTarget {
        return true;
      }
      cnotGates := cnotGates + [CnotGate(cnotX, cnotControl, cnotTarget)];
      cnotModalOpen := false;
      return false;
    }

    /** Cancel in the CNOT dialog: it closes and nothing else changes. */
    method CnotCancel()
      requires Valid()
      modifies this
      ensures Valid()
      ensures !cnotModalOpen
      ensures gates == old(gates) && cnotGates == old(cnotGates) && cnotX == old(cnotX)
      ensures cnotControl == old(cnotControl) && cnotTarget == old(cnotTarget)
    {
      cnotModalOpen := false;
    }
  }
}

/**
 * The visualizer's request encoder: `extractCircuitData` turns the editor's
 * gate lists into one list of wire records stably sorted by position, and
 * `quantum_encode` writes that list as the text the simulator reads: a
 * header line `<mode>n:<N>`, then one `key:value` line per field of each
 * record, each record closed by a line `@`.
 */
module SendToBackEnd {
  import opened Wrappers
  import opened Numbers
  import opened Text
  import opened StableSort
  import QuantumCircuit

  // ---------------------------------------------------------------------
  // The editor's gate records, as the encoder receives them

  /** `gate.params` of a parameterised gate; its `theta` may be missing. */
  datatype Params = Params(theta: Option<string>)

  /** A single-qubit gate `{ x, y, text, params? }`. */
  datatype SingleInput = SingleInput(x: int, y: int, text: string, params: Option<Params>)

  /** A CNOT or CZ gate `{ x, control, target }`. */
  datatype ControlledInput = ControlledInput(x: int, control: int, target: int)

  /** A SWAP gate `{ x, qubit1, qubit2 }`. */
  datatype SwapInput = SwapInput(x: int, qubit1: int, qubit2: int)

  /** A measurement of one qubit `{ x, y }`. */
  datatype MeasureInput = MeasureInput(x: int, y: int)

  // ---------------------------------------------------------------------
  // Wire records (the objects built by extractCircuitData)

  /**
   * One gate as it is sent, its fields in the order the object literal
   * declares them. theta is kept as the text it renders to.
   */
  datatype WireGate =
    | Single(gateType: string, qubit: int, theta: string, position: int)
    | Cnot(control: int, target: int, position: int)
    | Cz(control: int, target: int, position: int)
    | Swap(qubitA: int, qubitB: int, position: int)
    | MeasureNth(qubit: int, position: int)

  /** `{ numQubits, gates }`. */
  datatype CircuitData = CircuitData(numQubits: int, gates: seq<WireGate>)

  function Position(g: WireGate): int { g.position }

  /**
   * The text that theta contributes to the request: the number -1 when the
   * gate has no params field, otherwise `params.theta`, which renders as
   * "undefined" when params has no theta.
   */
  function ThetaText(params: Option<Params>): string
  {
    match params
    case None => "-1"
    case Some(p) => (match p.theta case None => "undefined" case Some(t) => t)
  }

  function ProcessSingle(g: SingleInput): WireGate
  {
    Single(g.text, QuantumCircuit.QubitOfY(g.y), ThetaText(g.params), g.x)
  }

  function ProcessMeasure(g: MeasureInput): WireGate
  {
    MeasureNth(QuantumCircuit.QubitOfY(g.y), g.x)
  }

  /** The five mapped lists, concatenated in the order the spread lists them. */
  function AllGates(singles: seq<SingleInput>, cnots: seq<ControlledInput>, czs: seq<ControlledInput>,
                    swaps: seq<SwapInput>, measures: seq<MeasureInput>): (r: seq<WireGate>)
    ensures |r| == |singles| + |cnots| + |czs| + |swaps| + |measures|
  {
    seq(|singles|, i requires 0 <= i < |singles| => ProcessSingle(singles[i]))
    + seq(|cnots|, i requires 0 <= i < |cnots| => Cnot(cnots[i].control, cnots[i].target, cnots[i].x))
    + seq(|czs|, i requires 0 <= i < |czs| => Cz(czs[i].control, czs[i].target, czs[i].x))
    + seq(|swaps|, i requires 0 <= i < |swaps| => Swap(swaps[i].qubit1, swaps[i].qubit2, swaps[i].x))
    + seq(|measures|, i requires 0 <= i < |measures| => ProcessMeasure(measures[i]))
  }

  /**
   * `extractCircuitData(gates, cnotGates, czGates, swapGates, measureNthQ, nQ)`:
   * numQubits is nQ, and the gates are the processed records, none added or
   * dropped, sorted by position.
   */
  function Extract(singles: seq<SingleInput>, cnots: seq<ControlledInput>, czs: seq<ControlledInput>,
                   swaps: seq<SwapInput>, measures: seq<MeasureInput>, nQ: int): (c: CircuitData)
    ensures c.numQubits == nQ
    ensures multiset(c.gates) == multiset(AllGates(singles, cnots, czs, swaps, measures))
    ensures |c.gates| == |singles| + |cnots| + |czs| + |swaps| + |measures|
  {
    var all := AllGates(singles, cnots, czs, swaps, measures);
    var sorted := SortBy(all, Position);
    assert |sorted| == |multiset(sorted)| == |multiset(all)| == |all|;
    CircuitData(nQ, sorted)
  }

  /** The extracted gates are nondecreasing by position. */
  lemma ExtractSorted(singles: seq<SingleInput>, cnots: seq<ControlledInput>, czs: seq<ControlledInput>,
                      swaps: seq<SwapInput>, measures: seq<MeasureInput>, nQ: int)
    ensures SortedBy(Extract(singles, cnots, czs, swaps, measures, nQ).gates, Position)
  {
    SortBySorted(AllGates(singles, cnots, czs, swaps, measures), Position);
  }

  /** Gates at the same position keep their concatenation order. */
  lemma ExtractStable(singles: seq<SingleInput>, cnots: seq<ControlledInput>, czs: seq<ControlledInput>,
                      swaps: seq<SwapInput>, measures: seq<MeasureInput>, nQ: int, p: int)
    ensures WithKey(Extract(singles, cnots, czs, swaps, measures, nQ).gates, Position, p)
         == WithKey(AllGates(singles, cnots, czs, swaps, measures), Position, p)
  {
    SortByStable(AllGates(singles, cnots, czs, swaps, measures), Position, p);
  }

  /**
   * Every single-qubit gate is sent with its text, the qubit of its y, its
   * theta text and its x.
   */
  lemma ExtractedSingle(singles: seq<SingleInput>, cnots: seq<ControlledInput>, czs: seq<ControlledInput>,
                        swaps: seq<SwapInput>, measures: seq<MeasureInput>, nQ: int, i: nat)
    requires i < |singles|
    ensures Single(singles[i].text, QuantumCircuit.QubitOfY(singles[i].y), ThetaText(singles[i].params), singles[i].x)
         in Extract(singles, cnots, czs, swaps, measures, nQ).gates
  {
    var all := AllGates(singles, cnots, czs, swaps, measures);
    assert all[i] == ProcessSingle(singles[i]);
    assert all[i] in multiset(all);
  }

  /** Every measurement is sent as a measurenth record on the qubit of its y. */
  lemma ExtractedMeasure(singles: seq<SingleInput>, cnots: seq<ControlledInput>, czs: seq<ControlledInput>,
                         swaps: seq<SwapInput>, measures: seq<MeasureInput>, nQ: int, i: nat)
    requires i < |measures|
    ensures MeasureNth(QuantumCircuit.QubitOfY(measures[i].y), measures[i].x)
         in Extract(singles, cnots, czs, swaps, measures, nQ).gates
  {
    var all := AllGates(singles, cnots, czs, swaps, measures);
    var k := |singles| + |cnots| + |czs| + |swaps| + i;
    assert all[k] == ProcessMeasure(measures[i]);
    assert all[k] in multiset(all);
  }

  // ---------------------------------------------------------------------
  // The request text (quantum_encode)

  /**
   * The own fields of a wire record in insertion order, each with the text
   * that `+` renders its value to.
   */
  function Fields(g: WireGate): (fs: seq<(string, string)>)
    ensures |fs| >= 3 && fs[0].0 == "type" && fs[|fs| - 1] == ("position", IntToString(g.position))
  {
    match g
    case Single(t, q, th, p) =>
      [("type", "single"), ("gateType", t), ("qubit", IntToString(q)), ("theta", th), ("position", IntToString(p))]
    case Cnot(c, t, p) =>
      [("type", "cnot"), ("control", IntToString(c)), ("target", IntToString(t)), ("position", IntToString(p))]
    case Cz(c, t, p) =>
      [("type", "cz"), ("control", IntToString(c)), ("target", IntToString(t)), ("position", IntToString(p))]
    case Swap(a, b, p) =>
      [("type", "swap"), ("qubitA", IntToString(a)), ("qubitB", IntToString(b)), ("position", IntToString(p))]
    case MeasureNth(q, p) =>
      [("type", "measurenth"), ("qubit", IntToString(q)), ("position", IntToString(p))]
  }

  /** The line `key:value` of one field. */
  function Row(f: (string, string)): string { f.0 + ":" + f.1 }

  function FieldRows(fs: seq<(string, string)>): (rows: seq<string>)
    ensures |rows| == |fs|
  {
    seq(|fs|, k requires 0 <= k < |fs| => Row(fs[k]))
  }

  /** The lines of one record: its fields, then `@`. */
  function GateRows(g: WireGate): seq<string>
  {
    FieldRows(Fields(g)) + ["@"]
  }

  /** The lines of all records, in list order. */
  function BodyRows(gates: seq<WireGate>): seq<string>
  {
    if gates == [] then [] else BodyRows(gates[..|gates| - 1]) + GateRows(gates[|gates| - 1])
  }

  function Header(feature: string, numQubits: int): string
  {
    feature + "n:" + IntToString(numQubits)
  }

  /** The lines of the request, without their terminators. */
  function Rows(c: CircuitData, feature: string): seq<string>
  {
    [Header(feature, c.numQubits)] + BodyRows(c.gates)
  }

  /** Each line followed by a line feed. */
  function Terminated(rows: seq<string>): string
  {
    if rows == [] then "" else rows[0] + "\n" + Terminated(rows[1..])
  }

  /** `quantum_encode(cktData, feature)`: the header line, then every record's lines. */
  function Encoded(c: CircuitData, feature: string): string
  {
    Terminated(Rows(c, feature))
  }

  /** The request opens with its header line; with no gates that line is all of it. */
  lemma EncodedStart(c: CircuitData, feature: string)
    ensures |Encoded(c, feature)| > |Header(feature, c.numQubits)|
    ensures Encoded(c, feature)[..|Header(feature, c.numQubits)| + 1] == Header(feature, c.numQubits) + "\n"
    ensures c.gates == [] <==> Encoded(c, feature) == Header(feature, c.numQubits) + "\n"
  {
    var h := Header(feature, c.numQubits);
    var rows := Rows(c, feature);
    assert rows[1..] == BodyRows(c.gates);
    assert Encoded(c, feature) == h + "\n" + Terminated(BodyRows(c.gates));
    if c.gates != [] {
      var n := |c.gates|;
      TerminatedConcat(BodyRows(c.gates[..n - 1]), GateRows(c.gates[n - 1]));
      assert GateRows(c.gates[n - 1])[0] == Row(Fields(c.gates[n - 1])[0]);
      assert |Terminated(GateRows(c.gates[n - 1]))| > 0;
    }
  }

  lemma {:induction false} TerminatedAppend(rows: seq<string>, row: string)
    ensures Terminated(rows + [row]) == Terminated(rows) + row + "\n"
  {
    if rows != [] {
      assert (rows + [row])[1..] == rows[1..] + [row];
      TerminatedAppend(rows[1..], row);
    }
  }

  lemma {:induction false} TerminatedConcat(a: seq<string>, b: seq<string>)
    ensures Terminated(a + b) == Terminated(a) + Terminated(b)
  {
    if a == [] {
      assert a + b == b;
    } else {
      assert (a + b)[1..] == a[1..] + b;
      TerminatedConcat(a[1..], b);
    }
  }

  /** Appending record i's lines extends the text of records 0..i-1 to that of 0..i. */
  lemma EncodeStep(header: string, gates: seq<WireGate>, i: nat)
    requires i < |gates|
    ensures Terminated([header] + BodyRows(gates[..i + 1]))
         == Terminated([header] + BodyRows(gates[..i])) + Terminated(FieldRows(Fields(gates[i]))) + "@\n"
  {
    var fs := FieldRows(Fields(gates[i]));
    assert gates[..i + 1][..i] == gates[..i];
    assert [header] + BodyRows(gates[..i + 1]) == ([header] + BodyRows(gates[..i])) + (fs + ["@"]);
    TerminatedConcat([header] + BodyRows(gates[..i]), fs + ["@"]);
    TerminatedAppend(fs, "@");
  }

  /** `quantum_encode`, appending line by line as the source's nested loops do. */
  method Encode(c: CircuitData, feature: string) returns (s: string)
    ensures s == Encoded(c, feature)
  {
    var header := Header(feature, c.numQubits);
    s := header + "\n";
    assert s == Terminated([header]);
    for i := 0 to |c.gates|
      invariant s == Terminated([header] + BodyRows(c.gates[..i]))
    {
      s := AppendFields(s, Fields(c.gates[i]));
      s := s + "@\n";
      EncodeStep(header, c.gates, i);
    }
    assert c.gates[..|c.gates|] == c.gates;
  }

  /** The inner loop of `quantum_encode`: one `key:value` line per own field. */
  method AppendFields(s0: string, fields: seq<(string, string)>) returns (s: string)
    ensures s == s0 + Terminated(FieldRows(fields))
  {
    s := s0;
    assert FieldRows(fields[..0]) == [];
    for j := 0 to |fields|
      invariant s == s0 + Terminated(FieldRows(fields[..j]))
    {
      assert FieldRows(fields[..j + 1]) == FieldRows(fields[..j]) + [Row(fields[j])];
      TerminatedAppend(FieldRows(fields[..j]), Row(fields[j]));
      s := s + fields[j].0 + ":" + fields[j].1 + "\n";
    }
    assert fields[..|fields|] == fields;
  }

  /** No field line reads `@`: it holds a ':'. */
  lemma RowNotSeparator(f: (string, string))
    ensures Row(f) != "@"
  {
    assert Row(f)[|f.0|] == ':';
  }

  /** The `@` lines of the body are one per record. */
  lemma {:induction false} BodySeparators(gates: seq<WireGate>)
    ensures multiset(BodyRows(gates))["@"] == |gates|
  {
    if gates != [] {
      var g := gates[|gates| - 1];
      BodySeparators(gates[..|gates| - 1]);
      var fs := FieldRows(Fields(g));
      forall k | 0 <= k < |fs| ensures fs[k] != "@" {
        RowNotSeparator(Fields(g)[k]);
      }
      assert "@" !in fs;
      assert multiset(GateRows(g))["@"] == 1;
    }
  }

  /** Text whose lines hold no line feed splits back into exactly those lines. */
  lemma {:induction false} SplitTerminatedRows(rows: seq<string>)
    requires forall k :: 0 <= k < |rows| ==> Free(rows[k], '\n')
    ensures Split(Terminated(rows), '\n') == rows + [""]
  {
    if rows != [] {
      SplitTerminated(rows[0], '\n', Terminated(rows[1..]));
      SplitTerminatedRows(rows[1..]);
      assert rows == [rows[0]] + rows[1..];
    }
  }

  /** The texts the encoder copies into the request verbatim hold no line feed. */
  predicate TextsSingleLine(c: CircuitData, feature: string)
  {
    Free(feature, '\n')
    && forall k :: 0 <= k < |c.gates| && c.gates[k].Single? ==>
         Free(c.gates[k].gateType, '\n') && Free(c.gates[k].theta, '\n')
  }

  lemma RowFree(f: (string, string))
    requires Free(f.0, '\n') && Free(f.1, '\n')
    ensures Free(Row(f), '\n')
  {
    var r := Row(f);
    forall k | 0 <= k < |r| ensures r[k] != '\n' {
      if k > |f.0| {
        assert r[k] == f.1[k - |f.0| - 1];
      } else if k < |f.0| {
        assert r[k] == f.0[k];
      }
    }
  }

  lemma HeaderFree(feature: string, n: int)
    requires Free(feature, '\n')
    ensures Free(Header(feature, n), '\n')
  {
    var h := Header(feature, n);
    forall k | 0 <= k < |h| ensures h[k] != '\n' {
      if k >= |feature| + 2 {
        assert h[k] == IntToString(n)[k - |feature| - 2];
      } else if k < |feature| {
        assert h[k] == feature[k];
      }
    }
  }

  /** The keys and type names the encoder writes are plain words. */
  lemma KeyFree(w: string)
    requires w in ["type", "gateType", "qubit", "theta", "position", "control", "target", "qubitA", "qubitB",
                   "single", "cnot", "cz", "swap", "measurenth"]
    ensures Free(w, '\n')
  {
  }

  lemma IntFree(i: int)
    ensures Free(IntToString(i), '\n')
  {
  }

  predicate FieldsSingleLine(fs: seq<(string, string)>)
  {
    forall k :: 0 <= k < |fs| ==> Free(fs[k].0, '\n') && Free(fs[k].1, '\n')
  }

  lemma RowsSingleLine(fs: seq<(string, string)>)
    requires FieldsSingleLine(fs)
    ensures forall k :: 0 <= k < |FieldRows(fs)| ==> Free(FieldRows(fs)[k], '\n')
  {
    forall k | 0 <= k < |fs| ensures Free(Row(fs[k]), '\n') {
      RowFree(fs[k]);
    }
  }

  /** The lines of a record hold no line feed when its text fields hold none. */
  lemma GateRowsSingleLine(g: WireGate)
    requires g.Single? ==> Free(g.gateType, '\n') && Free(g.theta, '\n')
    ensures forall k :: 0 <= k < |GateRows(g)| ==> Free(GateRows(g)[k], '\n')
  {
    IntFree(g.position);
    var fs := Fields(g);
    forall k | 0 <= k < |fs| ensures Free(fs[k].0, '\n') && Free(fs[k].1, '\n') {
      KeyFree(fs[k].0);
      match g {
        case Single(_, q, _, _) => IntFree(q);
        case Cnot(a, b, _) => IntFree(a); IntFree(b);
        case Cz(a, b, _) => IntFree(a); IntFree(b);
        case Swap(a, b, _) => IntFree(a); IntFree(b);
        case MeasureNth(q, _) => IntFree(q);
      }
    }
    RowsSingleLine(Fields(g));
  }

  lemma {:induction false} BodyRowsSingleLine(c: CircuitData, feature: string, n: nat)
    requires TextsSingleLine(c, feature) && n <= |c.gates|
    ensures forall k :: 0 <= k < |BodyRows(c.gates[..n])| ==> Free(BodyRows(c.gates[..n])[k], '\n')
  {
    if n > 0 {
      BodyRowsSingleLine(c, feature, n - 1);
      assert c.gates[..n][..n - 1] == c.gates[..n - 1];
      GateRowsSingleLine(c.gates[n - 1]);
      var a := BodyRows(c.gates[..n - 1]);
      var b := GateRows(c.gates[n - 1]);
      assert BodyRows(c.gates[..n]) == a + b;
      forall k | 0 <= k < |a + b| ensures Free((a + b)[k], '\n') {
        if k >= |a| {
          assert (a + b)[k] == b[k - |a|];
        } else {
          assert (a + b)[k] == a[k];
        }
      }
    }
  }

  /**
   * Split at line feeds, the request is the header, then each record's
   * `key:value` lines and its `@` line, then the empty piece after the last
   * line feed; the `@` lines number exactly the gates.
   */
  lemma EncodedLines(c: CircuitData, feature: string)
    requires TextsSingleLine(c, feature)
    ensures Split(Encoded(c, feature), '\n') == [Header(feature, c.numQubits)] + BodyRows(c.gates) + [""]
    ensures multiset(Split(Encoded(c, feature), '\n'))["@"] == |c.gates|
  {
    var rows := Rows(c, feature);
    BodyRowsSingleLine(c, feature, |c.gates|);
    assert c.gates[..|c.gates|] == c.gates;
    HeaderFree(feature, c.numQubits);
    SplitTerminatedRows(rows);
    BodySeparators(c.gates);
    assert |Header(feature, c.numQubits)| > 1;
  }

  // ---------------------------------------------------------------------
  // The three requests the visualizer sends

  /** The three requests (sendCalculate, sendProbability, sendMeasure). */
  datatype Feature = Calculate | Probability | Measure

  /** The mode digit each request puts in front of the header. */
  function FeatureDigit(f: Feature): (d: string)
    ensures |d| == 1 && IsDigit(d[0])
  {
    match f
    case Calculate => "0"
    case Probability => "1"
    case Measure => "2"
  }

  /** The request starts with its mode digit, so different requests never share a text. */
  lemma FeatureDistinguishes(c: CircuitData, f1: Feature, f2: Feature)
    ensures Encoded(c, FeatureDigit(f1))[0] == FeatureDigit(f1)[0]
    ensures f1 != f2 ==> Encoded(c, FeatureDigit(f1)) != Encoded(c, FeatureDigit(f2))
  {
    var h1 := Header(FeatureDigit(f1), c.numQubits);
    var h2 := Header(FeatureDigit(f2), c.numQubits);
    assert Encoded(c, FeatureDigit(f1))[0] == h1[0];
    assert Encoded(c, FeatureDigit(f2))[0] == h2[0];
  }

  /**
   * The body of a request of the given kind for the editor's gates: the
   * encoding, under that mode's digit, of the extracted circuit.
   */
  method RequestBody(f: Feature, singles: seq<SingleInput>, cnots: seq<ControlledInput>, czs: seq<ControlledInput>,
                     swaps: seq<SwapInput>, measures: seq<MeasureInput>, nQ: int) returns (body: string)
    ensures body == Encoded(Extract(singles, cnots, czs, swaps, measures, nQ), FeatureDigit(f))
  {
    var data := Extract(singles, cnots, czs, swaps, measures, nQ);
    body := Encode(data, FeatureDigit(f));
  }
}

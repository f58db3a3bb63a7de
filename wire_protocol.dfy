/**
 * The request text between the client and the simulator: what the
 * simulator's scanner and parser make of the encoder's output. The
 * encoder puts the mode digit in front of `n:`, where the scanner splits
 * it off as a token of its own; the parser then takes the digit for the
 * qubit count and stops at `n`. With the digit dropped, every record
 * comes back as the node that the gate describes.
 */
module WireProtocol {
  import opened Wrappers
  import opened Numbers
  import opened Tokens
  import opened Lexer
  import opened Ast
  import opened Parser
  import opened Seqs
  import opened SendToBackEnd

  /** A non-empty run of one character class: one IDEN token. */
  predicate IsRun(w: string)
  {
    |w| > 0 && forall k :: 0 <= k < |w| ==> InClass(w[k], IsNumeric(w[0]))
  }

  /** A non-empty run of letters. */
  predicate IsWord(w: string)
  {
    |w| > 0 && forall k :: 0 <= k < |w| ==> IsAlpha(w[k])
  }

  /** A field the scanner reads as `key`, `:`, `value`. */
  predicate Lexable(f: (string, string))
  {
    IsWord(f.0) && IsRun(f.1)
  }

  /** A rendered integer is one run of number characters. */
  lemma IntIsRun(x: int)
    ensures IsRun(IntToString(x))
  {
  }

  predicate InSizeRange(x: int) { -SizeLimit < x < SizeLimit }

  /**
   * A gate whose record lines the simulator's scanner reads as its fields:
   * the gate name is a word, theta is one run, and the indices render to
   * values `std::stoul` can hold.
   */
  predicate Scannable(g: WireGate)
  {
    match g
    case Single(t, q, th, _) => IsWord(t) && IsRun(th) && InSizeRange(q)
    case Cnot(c, t, _) => InSizeRange(c) && InSizeRange(t)
    case Cz(c, t, _) => InSizeRange(c) && InSizeRange(t)
    case Swap(a, b, _) => InSizeRange(a) && InSizeRange(b)
    case MeasureNth(q, _) => InSizeRange(q)
  }

  /** A gate whose record the simulator reads back: scannable, with a theta `std::stod` converts without an exception. */
  predicate Sendable(g: WireGate)
  {
    Scannable(g) && (g.Single? ==> StodAccepts(g.theta) && !StodOutOfRange(g.theta))
  }

  /**
   * A circuit the simulator reads back: its count is read by stoul as a
   * number the gate list can reserve, and every gate is sendable.
   */
  predicate SendableCircuit(c: CircuitData)
  {
    InSizeRange(c.numQubits) && Wrap(c.numQubits) <= MaxGateList
    && forall k :: 0 <= k < |c.gates| ==> Sendable(c.gates[k])
  }

  /** The node the simulator builds for a gate. */
  function Node(g: WireGate): AstNode
  {
    match g
    case Single(t, q, th, _) => SingleGateNode(t, Wrap(q), th)
    case Cnot(c, t, _) => CnotGateNode(Wrap(c), Wrap(t))
    case Cz(c, t, _) => CzGateNode(Wrap(c), Wrap(t))
    case Swap(a, b, _) => SwapGateNode(Wrap(a), Wrap(b))
    case MeasureNth(q, _) => MeasureNthNode(Wrap(q))
  }

  function Nodes(gates: seq<WireGate>): (r: seq<AstNode>)
    ensures |r| == |gates| && forall k :: 0 <= k < |gates| ==> r[k] == Node(gates[k])
  {
    seq(|gates|, k requires 0 <= k < |gates| => Node(gates[k]))
  }

  /** The tokens of fields: key, colon and value for each, in order. */
  function FieldTokens(fs: seq<(string, string)>): (r: seq<Token>)
    ensures |r| == 3 * |fs|
  {
    seq(3 * |fs|, j requires 0 <= j < 3 * |fs| =>
      if j % 3 == 0 then Token(Iden, fs[j / 3].0)
      else if j % 3 == 1 then Token(Colon, ":")
      else Token(Iden, fs[j / 3].1))
  }

  lemma FieldTokensFront(fs: seq<(string, string)>)
    requires fs != []
    ensures FieldTokens(fs) == [Token(Iden, fs[0].0), Token(Colon, ":"), Token(Iden, fs[0].1)] + FieldTokens(fs[1..])
  {
    var a := FieldTokens(fs);
    var b := [Token(Iden, fs[0].0), Token(Colon, ":"), Token(Iden, fs[0].1)] + FieldTokens(fs[1..]);
    forall j | 3 <= j < |a| ensures a[j] == b[j] {
      assert b[j] == FieldTokens(fs[1..])[j - 3];
      assert (j - 3) / 3 == j / 3 - 1 && (j - 3) % 3 == j % 3;
    }
  }

  /** The tokens of one record: its fields, then SEP. */
  function RecordTokens(g: WireGate): seq<Token>
  {
    FieldTokens(Fields(g)) + [Token(Sep, "@")]
  }

  /** The tokens of all records, in list order. */
  function AllTokens(gates: seq<WireGate>): seq<Token>
  {
    if gates == [] then [] else RecordTokens(gates[0]) + AllTokens(gates[1..])
  }

  lemma {:induction false} AllTokensSnoc(gates: seq<WireGate>, g: WireGate)
    ensures AllTokens(gates + [g]) == AllTokens(gates) + RecordTokens(g)
  {
    if gates == [] {
      assert [g][1..] == [];
    } else {
      assert (gates + [g])[1..] == gates[1..] + [g];
      AllTokensSnoc(gates[1..], g);
    }
  }

  lemma AllTokensLast(gates: seq<WireGate>)
    requires gates != []
    ensures AllTokens(gates) == AllTokens(gates[..|gates| - 1]) + RecordTokens(gates[|gates| - 1])
  {
    InitLast(gates);
    AllTokensSnoc(gates[..|gates| - 1], gates[|gates| - 1]);
  }

  /** The end `:value` and line feed of a line lexes to a colon and the value. */
  lemma LexValueTail(v: string, rest: string)
    requires IsRun(v)
    ensures Lex([':'] + (v + (['\n'] + rest))) ==
      Lexed([Token(Colon, ":"), Token(Iden, v)] + Lex(rest).tokens, Lex(rest).ok)
  {
    var s3 := ['\n'] + rest;
    LexBlank('\n', rest);
    LexRun(v, s3);
    LexSymbol(':', v + s3);
    ConsPair(Token(Colon, ":"), Token(Iden, v), Lex(rest).tokens);
  }

  /** One line `key:value` lexes to key, colon and value. */
  lemma LexRowLine(f: (string, string), rest: string)
    requires Lexable(f)
    ensures Lex(Row(f) + "\n" + rest) ==
      Lexed([Token(Iden, f.0), Token(Colon, ":"), Token(Iden, f.1)] + Lex(rest).tokens, Lex(rest).ok)
  {
    var s1 := [':'] + (f.1 + (['\n'] + rest));
    assert Row(f) + "\n" + rest == f.0 + s1;
    LexValueTail(f.1, rest);
    LexRun(f.0, s1);
    ConsTriple(Token(Iden, f.0), Token(Colon, ":"), Token(Iden, f.1), Lex(rest).tokens);
  }

  /** The keys and kinds the encoder writes are words. */
  lemma KeyWords()
    ensures IsWord("n") && IsWord("type") && IsWord("position")
    ensures IsWord("single") && IsWord("gateType") && IsWord("qubit") && IsWord("theta")
    ensures IsWord("cnot") && IsWord("cz") && IsWord("control") && IsWord("target")
    ensures IsWord("swap") && IsWord("qubitA") && IsWord("qubitB") && IsWord("measurenth")
  {
  }

  lemma {:induction false} LexFieldRows(fs: seq<(string, string)>, rest: string)
    requires forall k :: 0 <= k < |fs| ==> Lexable(fs[k])
    ensures Lex(Terminated(FieldRows(fs)) + rest) == Lexed(FieldTokens(fs) + Lex(rest).tokens, Lex(rest).ok)
  {
    if fs == [] {
      assert Terminated(FieldRows(fs)) + rest == rest;
    } else {
      var rows := FieldRows(fs);
      var x, y := Row(fs[0]) + "\n", Terminated(FieldRows(fs[1..]));
      assert Terminated(rows) == x + y by {
        assert rows[0] == Row(fs[0]) && rows[1..] == FieldRows(fs[1..]);
      }
      LexFieldRows(fs[1..], rest);
      LexRowLine(fs[0], y + rest);
      LexChain(x, y, rest, [Token(Iden, fs[0].0), Token(Colon, ":"), Token(Iden, fs[0].1)], FieldTokens(fs[1..]));
      FieldTokensFront(fs);
    }
  }

  /** Every field of a sendable gate lexes as key, colon, value. */
  lemma FieldsLexable(g: WireGate)
    requires Scannable(g)
    ensures forall k :: 0 <= k < |Fields(g)| ==> Lexable(Fields(g)[k])
  {
    KeyWords();
    IntIsRun(g.position);
    match g {
      case Single(t, q, th, p) =>
        IntIsRun(q);
        AllLexable(Fields(g));
      case Cnot(a, b, _) =>
        IntIsRun(a);
        IntIsRun(b);
        AllLexable(Fields(g));
      case Cz(a, b, _) =>
        IntIsRun(a);
        IntIsRun(b);
        AllLexable(Fields(g));
      case Swap(a, b, _) =>
        IntIsRun(a);
        IntIsRun(b);
        AllLexable(Fields(g));
      case MeasureNth(q, _) =>
        IntIsRun(q);
        AllLexable(Fields(g));
    }
  }

  /** Field by field: a list whose every key is a word and every value a run. */
  lemma AllLexable(fs: seq<(string, string)>)
    requires forall k :: 0 <= k < |fs| ==> IsWord(fs[k].0) && IsRun(fs[k].1)
    ensures forall k :: 0 <= k < |fs| ==> Lexable(fs[k])
  {
  }

  /** A record's lines lex to its fields' tokens and SEP. */
  lemma LexGateRows(g: WireGate, rest: string)
    requires Scannable(g)
    ensures Lex(Terminated(GateRows(g)) + rest) == Lexed(RecordTokens(g) + Lex(rest).tokens, Lex(rest).ok)
  {
    var fs := Fields(g);
    var nl := ['\n'] + rest;
    var sep := ['@'] + nl;
    assert Terminated(GateRows(g)) + rest == Terminated(FieldRows(fs)) + sep by {
      TerminatedConcat(FieldRows(fs), ["@"]);
    }
    FieldsLexable(g);
    LexFieldRows(fs, sep);
    LexSymbol('@', nl);
    LexBlank('\n', rest);
    var f, t := FieldTokens(fs), Lex(rest).tokens;
    assert f + ([Token(Sep, "@")] + t) == (f + [Token(Sep, "@")]) + t;
  }

  lemma {:induction false} LexBodyRows(gates: seq<WireGate>, rest: string)
    requires forall k :: 0 <= k < |gates| ==> Scannable(gates[k])
    ensures Lex(Terminated(BodyRows(gates)) + rest) == Lexed(AllTokens(gates) + Lex(rest).tokens, Lex(rest).ok)
  {
    if gates == [] {
      assert Terminated(BodyRows(gates)) + rest == rest;
    } else {
      var init, last := gates[..|gates| - 1], gates[|gates| - 1];
      var x, y := Terminated(BodyRows(init)), Terminated(GateRows(last));
      assert Terminated(BodyRows(gates)) == x + y by {
        TerminatedConcat(BodyRows(init), GateRows(last));
      }
      assert forall k :: 0 <= k < |init| ==> init[k] == gates[k];
      LexBodyRows(init, y + rest);
      LexGateRows(last, rest);
      LexChain(x, y, rest, AllTokens(init), RecordTokens(last));
      AllTokensLast(gates);
    }
  }

  /** The scanner accepts the request without its mode digit and yields the header's and the records' tokens. */
  lemma LexRequest(c: CircuitData)
    requires InSizeRange(c.numQubits) && forall k :: 0 <= k < |c.gates| ==> Scannable(c.gates[k])
    ensures Lex(Encoded(c, "")) ==
      Lexed([Token(Iden, "n"), Token(Colon, ":"), Token(Iden, IntToString(c.numQubits))] + AllTokens(c.gates), true)
  {
    var rows := Rows(c, "");
    assert rows[0] == Row(("n", IntToString(c.numQubits))) && rows[1..] == BodyRows(c.gates);
    var body := Terminated(BodyRows(c.gates));
    assert Encoded(c, "") == Row(("n", IntToString(c.numQubits))) + "\n" + (body + "");
    LexBodyRows(c.gates, "");
    KeyWords();
    IntIsRun(c.numQubits);
    LexRowLine(("n", IntToString(c.numQubits)), body + "");
  }

  /** Field i's key and value are the tokens at 3i and 3i + 2. */
  lemma FieldAt(fs: seq<(string, string)>, rest: seq<Token>, i: nat)
    requires i < |fs|
    ensures (FieldTokens(fs) + rest)[3 * i] == Token(Iden, fs[i].0)
    ensures (FieldTokens(fs) + rest)[3 * i + 2] == Token(Iden, fs[i].1)
  {
    assert (3 * i) / 3 == i && (3 * i) % 3 == 0;
    assert (3 * i + 2) / 3 == i && (3 * i + 2) % 3 == 2;
  }

  /** The parser reads each record's tokens back as that gate's node. */
  lemma RecordOfTokens(g: WireGate, rest: seq<Token>)
    requires Sendable(g)
    ensures Record(RecordTokens(g) + rest) == Read(Node(g), |RecordTokens(g)| - 1)
  {
    var u := [Token(Sep, "@")] + rest;
    assert RecordTokens(g) + rest == FieldTokens(Fields(g)) + u;
    if g.Single? {
      RecordOfSingle(g, u);
      assert |Fields(g)| == 5;
    } else if g.MeasureNth? {
      RecordOfMeasure(g, u);
    } else {
      RecordOfPair(g, u);
    }
  }

  /** A `measurenth` record whose qubit reads as q. */
  lemma RecordMeasureShape(t: seq<Token>, q: SizeT)
    requires |t| > 5 && t[0].val == "type" && t[2].val == "measurenth" && Size(t, 5) == Ok(q)
    ensures Record(t) == Read(MeasureNthNode(q), 9)
  {
  }

  lemma RecordOfMeasure(g: WireGate, u: seq<Token>)
    requires g.MeasureNth? && Sendable(g)
    ensures Record(FieldTokens(Fields(g)) + u) == Read(Node(g), 3 * |Fields(g)|)
  {
    var fs, t := Fields(g), FieldTokens(Fields(g)) + u;
    FieldAt(fs, u, 0);
    FieldAt(fs, u, 1);
    StoulIntToString(g.qubit);
    RecordMeasureShape(t, Wrap(g.qubit));
  }

  lemma RecordOfSingle(g: WireGate, u: seq<Token>)
    requires g.Single? && Sendable(g)
    ensures Record(FieldTokens(Fields(g)) + u) == Read(Node(g), 15)
  {
    var fs, t := Fields(g), FieldTokens(Fields(g)) + u;
    FieldAt(fs, u, 0);
    FieldAt(fs, u, 1);
    FieldAt(fs, u, 2);
    FieldAt(fs, u, 3);
    assert t[0].val == "type" && t[2].val == "single";
    StoulIntToString(g.qubit);
    assert Size(t, 8) == Ok(Wrap(g.qubit));
  }

  lemma RecordOfPair(g: WireGate, u: seq<Token>)
    requires (g.Cnot? || g.Cz? || g.Swap?) && Sendable(g)
    ensures Record(FieldTokens(Fields(g)) + u) == Read(Node(g), 3 * |Fields(g)|)
  {
    var fs, t := Fields(g), FieldTokens(Fields(g)) + u;
    FieldAt(fs, u, 0);
    FieldAt(fs, u, 1);
    FieldAt(fs, u, 2);
    var a, b := if g.Swap? then g.qubitA else g.control, if g.Swap? then g.qubitB else g.target;
    assert t[5].val == IntToString(a) && t[8].val == IntToString(b);
    StoulIntToString(a);
    StoulIntToString(b);
    assert SizePair(t) == Ok((Wrap(a), Wrap(b)));
    assert |fs| == 4 && t[0].val == "type";
    if g.Cnot? {
      assert t[2].val == "cnot";
    } else if g.Cz? {
      assert t[2].val == "cz";
    } else {
      assert t[2].val == "swap";
    }
  }

  /** A record's tokens parse as its node, followed by the records after them. */
  lemma RecordsPrepend(g: WireGate, rest: seq<Token>)
    requires Sendable(g)
    ensures Records(RecordTokens(g) + rest) == Parsed([Node(g)] + Records(rest).nodes, Records(rest).status)
  {
    var r, t := RecordTokens(g), RecordTokens(g) + rest;
    RecordOfTokens(g, rest);
    assert t[|r| - 1] == Token(Sep, "@");
    assert t[|r|..] == rest;
    RecordsUnfold(t);
  }

  /** Every record parses, one node per gate, in list order. */
  lemma {:induction false} ParseAllTokens(gates: seq<WireGate>)
    requires forall k :: 0 <= k < |gates| ==> Sendable(gates[k])
    ensures Records(AllTokens(gates)) == Parsed(Nodes(gates), Accepted)
  {
    if gates != [] {
      var rest := AllTokens(gates[1..]);
      assert AllTokens(gates) == RecordTokens(gates[0]) + rest;
      RecordsPrepend(gates[0], rest);
      ParseAllTokens(gates[1..]);
      NodesFront(gates);
    }
  }

  /** The nodes of a list: its first gate's node, then the nodes of the rest. */
  lemma NodesFront(gates: seq<WireGate>)
    requires gates != []
    ensures Nodes(gates) == [Node(gates[0])] + Nodes(gates[1..])
  {
  }

  /** The request with its mode digit dropped is the request for "". */
  lemma DropModeDigit(c: CircuitData, f: Feature)
    ensures Encoded(c, FeatureDigit(f))[1..] == Encoded(c, "")
  {
    var d, h := FeatureDigit(f), Header("", c.numQubits);
    assert Rows(c, d) == [d + h] + BodyRows(c.gates) by {
      assert Header(d, c.numQubits) == d + h;
    }
    TerminatedPrefixed(d, h, BodyRows(c.gates));
    assert (d + Encoded(c, ""))[1..] == Encoded(c, "");
  }

  /** Text put in front of the first line is put in front of the whole request. */
  lemma TerminatedPrefixed(d: string, h: string, rest: seq<string>)
    ensures Terminated([d + h] + rest) == d + Terminated([h] + rest)
  {
    assert ([d + h] + rest)[1..] == rest;
    assert ([h] + rest)[1..] == rest;
  }

  /**
   * Round trip: with the mode digit dropped, the simulator accepts the
   * request, reads numQubits as its qubit count (modulo 2^64, as stoul
   * wraps a negative) and builds one node per gate, in list order, when
   * that count is one the gate list can reserve.
   */
  lemma RoundTrip(c: CircuitData, f: Feature)
    requires SendableCircuit(c)
    ensures Lex(Encoded(c, FeatureDigit(f))[1..]).ok
    ensures Parse(Lex(Encoded(c, FeatureDigit(f))[1..]).tokens) ==
      Outcome(Some(Wrap(c.numQubits)), Parsed(Nodes(c.gates), Accepted))
  {
    DropModeDigit(c, f);
    LexRequest(c);
    var toks := [Token(Iden, "n"), Token(Colon, ":"), Token(Iden, IntToString(c.numQubits))] + AllTokens(c.gates);
    StoulIntToString(c.numQubits);
    assert toks[3..] == AllTokens(c.gates);
    ParseAllTokens(c.gates);
  }

  /**
   * A count the gate list cannot reserve (numQubits = -1 reads as 2^64 - 1)
   * ends the parse in length_error, with the count kept and no node built.
   */
  lemma RoundTripBeyondMaxSize(c: CircuitData, f: Feature)
    requires InSizeRange(c.numQubits) && Wrap(c.numQubits) > MaxGateList
    requires forall k :: 0 <= k < |c.gates| ==> Scannable(c.gates[k])
    ensures Parse(Lex(Encoded(c, FeatureDigit(f))[1..]).tokens) ==
      Outcome(Some(Wrap(c.numQubits)), Parsed([], Faulted(LengthError)))
  {
    DropModeDigit(c, f);
    LexRequest(c);
    StoulIntToString(c.numQubits);
  }

  /** The qubit count the parser reads from the mode digit. */
  function DigitValue(f: Feature): SizeT
  {
    match f
    case Calculate => 0
    case Probability => 1
    case Measure => 2
  }

  /**
   * The request as the encoder sends it is refused: the scanner splits the
   * mode digit from `n`, the parser takes the digit for the qubit count and
   * then finds `n` where a record's `type` must be.
   */
  lemma RawRequestRejected(c: CircuitData, f: Feature)
    ensures Parse(Lex(Encoded(c, FeatureDigit(f))).tokens) == Outcome(Some(DigitValue(f)), Parsed([], Rejected))
  {
    LexModeDigit(c, f);
    ParseDigitFirst(Lex(Encoded(c, FeatureDigit(f))).tokens, f);
  }

  /** The scanner yields the mode digit and then `n` as two IDEN tokens. */
  lemma LexModeDigit(c: CircuitData, f: Feature)
    ensures var toks := Lex(Encoded(c, FeatureDigit(f))).tokens;
      |toks| >= 2 && toks[0] == Token(Iden, FeatureDigit(f)) && toks[1] == Token(Iden, "n")
  {
    var d := FeatureDigit(f);
    var body := Terminated(BodyRows(c.gates));
    var rest := Row(("n", IntToString(c.numQubits))) + "\n" + body;
    EncodedDigitFront(c, d);
    assert Lex(rest).tokens[0] == Token(Iden, "n") by {
      KeyWords();
      IntIsRun(c.numQubits);
      LexRowLine(("n", IntToString(c.numQubits)), body);
    }
    var s := [d[0]] + rest;
    assert Run(s, true) == d by {
      RunStops([d[0]], rest, true);
      assert Run([d[0]], true) == [d[0]] + Run([], true);
    }
    assert s[1..] == rest;
    LexUnfoldRun(s);
  }

  /** A one-character mode prefix stands in front of the `n:` line. */
  lemma EncodedDigitFront(c: CircuitData, d: string)
    requires |d| == 1
    ensures Encoded(c, d) == [d[0]] + (Row(("n", IntToString(c.numQubits))) + "\n" + Terminated(BodyRows(c.gates)))
  {
    var rows := Rows(c, d);
    var head := Row(("n", IntToString(c.numQubits)));
    var body := Terminated(BodyRows(c.gates));
    assert rows[0] == d + head && rows[1..] == BodyRows(c.gates);
    assert Encoded(c, d) == (d + head) + "\n" + body;
    Regroup(d, head, body);
  }

  /** A one-character line start regrouped in front of the rest of the text. */
  lemma Regroup(d: string, head: string, body: string)
    requires |d| == 1
    ensures (d + head) + "\n" + body == [d[0]] + (head + "\n" + body)
  {
    assert d == [d[0]];
  }

  /** Tokens led by a mode digit and then `n`: the digit is the count and `n` is no record. */
  lemma ParseDigitFirst(toks: seq<Token>, f: Feature)
    requires |toks| >= 2 && toks[0] == Token(Iden, FeatureDigit(f)) && toks[1] == Token(Iden, "n")
    ensures Parse(toks) == Outcome(Some(DigitValue(f)), Parsed([], Rejected))
  {
    assert NatToString(DigitValue(f)) == FeatureDigit(f);
    StoulOfNatToString(DigitValue(f));
    assert HeaderAt(toks) == 0;
    assert Record(toks[1..]) == NotARecord by {
      assert toks[1..][0].val == "n";
    }
    assert Records(toks[1..]) == RecordsAt(toks[1..]);
  }
}

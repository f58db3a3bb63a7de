/**
 * The visualizer's decoder of the simulator's reply. The reply is split
 * into lines and scanned with a cursor: `+`, `measureNth` and every other
 * non-empty line open a block of `key=value` lines that becomes one state
 * vertex; `prob` opens a block of probability lines; `measure` takes the
 * measured index from the next line. After the scan a seen measurement
 * collapses the probabilities and the first vertex's values onto the
 * measured index, and the vertices are chained by edges.
 */
module ParseResultData {
  import opened Wrappers
  import opened Numbers
  import opened Text
  import opened Seqs

  /** One `key=value` line of a state block. The value is undefined when the line has no `=`. */
  datatype Entry = Entry(qubit: string, value: Option<string>)

  /** A state vertex; `caption` is the source's `label`. */
  datatype Vertex = Vertex(id: int, caption: string, originalLabel: string, expanded: bool, values: seq<Entry>)

  /**
   * A probability: `Number(text)` of the line's value (its floating-point
   * value is not modelled), or the exact 0 or 1 the collapse writes.
   */
  datatype Amount = NumberOf(text: Option<string>) | Exactly(n: int)

  datatype ProbEntry = ProbEntry(name: string, value: Amount)

  datatype Edge = Edge(from: int, to: int)

  /** What the setters receive; `measured` is absent where the source has NaN. */
  datatype Decoded = Decoded(prob: seq<ProbEntry>, edges: seq<Edge>, vertices: seq<Vertex>,
                             measured: Option<int>, history: seq<int>)

  /** The TypeError the collapse throws on an index with nothing behind it. */
  datatype Failure = NoProbAt | NoVertex | NoValueAt

  /**
   * `Number(s)` for the spellings a trace carries: surrounding white space
   * is ignored, the empty text is 0, an optional sign and decimal digits
   * give that integer; anything else is NaN (absent).
   */
  function JsNumber(s: string): Option<int>
  {
    var t := Trim(s);
    if t == [] then Some(0)
    else if (t[0] == '-' || t[0] == '+') && |t| > 1 && AllDigits(t[1..]) then
      var v: int := DigitsValue(t[1..]);
      Some(if t[0] == '-' then -v else v)
    else if AllDigits(t) then Some(DigitsValue(t))
    else None
  }

  /** `Number(n).toString(2)`: binary digits, a minus sign for a negative, "NaN" when absent. */
  function BinaryText(n: Option<int>): string
  {
    match n
    case None => "NaN"
    case Some(v) => if v >= 0 then NatToBinary(v) else "-" + NatToBinary(-v)
  }

  /** `ParseValueLine`: the line split at every `=`. */
  function ParseValueLine(line: string): (tup: seq<string>)
    ensures |tup| >= 1 && Join(tup, '=') == line
    ensures Free(line, '=') ==> tup == [line]
  {
    JoinSplit(line, '=');
    if Free(line, '=') then
      assert Split(line, '=') == [line] by { SplitFree(line, '='); }
      Split(line, '=')
    else Split(line, '=')
  }

  /** `tup[1]`, undefined when there is no second piece. */
  function Second(tup: seq<string>): Option<string>
  {
    if |tup| >= 2 then Some(tup[1]) else None
  }

  /** The entry a state line becomes: the key, its binary pattern as a ket, and the value. */
  function QubitEntry(line: string): Entry
  {
    var tup := ParseValueLine(line);
    Entry(tup[0] + ": |" + BinaryText(JsNumber(tup[0])) + "\U{3009}\t", Second(tup))
  }

  /** `ParseProbData` on one line. */
  function ProbData(line: string): ProbEntry
  {
    var tup := ParseValueLine(line);
    ProbEntry(tup[0], NumberOf(Second(tup)))
  }

  /**
   * A block ends at a line that is empty, made of letters and spaces only,
   * or past the end (where `lines[i]` is undefined and the pattern test
   * reads the text "undefined").
   */
  predicate EndsBlock(lines: seq<string>, i: int)
  {
    i >= |lines| || (0 <= i && (lines[i] == "" || IsLettersAndSpaces(lines[i])))
  }

  /** The index of the first line at or after i that ends a block. */
  function BlockEnd(lines: seq<string>, i: nat): (e: nat)
    ensures i <= e && EndsBlock(lines, e)
    ensures i < |lines| ==> e <= |lines|
    ensures forall k :: i <= k < e ==> !EndsBlock(lines, k)
    decreases |lines| - i
  {
    if EndsBlock(lines, i) then i else BlockEnd(lines, i + 1)
  }

  /** The lines of the block that starts at i. */
  function Block(lines: seq<string>, i: nat): seq<string>
  {
    if i < |lines| then lines[i..BlockEnd(lines, i)] else []
  }

  function QubitValues(block: seq<string>): (r: seq<Entry>)
    ensures |r| == |block|
  {
    seq(|block|, k requires 0 <= k < |block| => QubitEntry(block[k]))
  }

  function ProbValues(block: seq<string>): (r: seq<ProbEntry>)
    ensures |r| == |block|
  {
    seq(|block|, k requires 0 <= k < |block| => ProbData(block[k]))
  }

  /** The scanner's state: the vertices and probabilities so far and the latest measurement. */
  datatype Scan = Scan(vertices: seq<Vertex>, prob: seq<ProbEntry>, measured: Option<int>, isMeasure: bool)

  /** The vertex that `vertices.push` adds with id `j + 1`, j being the current count. */
  function PushVertex(s: Scan, caption: string, values: seq<Entry>): Scan
  {
    s.(vertices := s.vertices + [Vertex(|s.vertices| + 1, caption, caption, false, values)])
  }

  /** `lines[i]`, undefined past the end. */
  function LineAt(lines: seq<string>, i: nat): Option<string>
  {
    if i < |lines| then Some(lines[i]) else None
  }

  function GateLabel(line: string): string
  {
    "Applying " + Upper(line) + " Gate"
  }

  /**
   * One pass of the `for` loop at cursor i, with its increment: the cursor
   * of the next pass and the new state.
   */
  function Step(lines: seq<string>, i: nat, s: Scan): (r: (nat, Scan))
    requires i < |lines|
    ensures r.0 > i
  {
    var line := lines[i];
    if line == "+" then
      (BlockEnd(lines, i + 1), PushVertex(s, "Initial State", QubitValues(Block(lines, i + 1))))
    else if line == "measureNth" then
      (BlockEnd(lines, i + 1), PushVertex(s, "Measuring the Qubit", QubitValues(Block(lines, i + 1))))
    else if line == "prob" then
      (BlockEnd(lines, i + 1), s.(prob := s.prob + ProbValues(Block(lines, i + 1))))
    else if line == "measure" then
      var m := match LineAt(lines, i + 1) case None => None case Some(t) => JsNumber(t);
      (i + 3, s.(measured := m, isMeasure := true))
    else if line == "" then (i + 1, s)
    else (BlockEnd(lines, i + 1), PushVertex(s, GateLabel(line), QubitValues(Block(lines, i + 1))))
  }

  /** The `for` loop of `ParseResultData` from cursor i on. */
  function ScanFrom(lines: seq<string>, i: nat, s: Scan): Scan
    decreases |lines| - i
  {
    if i >= |lines| then s
    else
      var r := Step(lines, i, s);
      ScanFrom(lines, r.0, r.1)
  }

  const Start := Scan([], [], None, false)

  /** Every probability set to 0 but the one at m, set to 1. */
  function Collapse(prob: seq<ProbEntry>, m: nat): seq<ProbEntry>
  {
    seq(|prob|, k requires 0 <= k < |prob| => prob[k].(value := Exactly(if k == m then 1 else 0)))
  }

  /** The first vertex's entries with every amplitude "(0,0)" but "(1,0)" at m. */
  function OneHot(values: seq<Entry>, m: nat): seq<Entry>
  {
    seq(|values|, k requires 0 <= k < |values| => values[k].(value := Some(if k == m then "(1,0)" else "(0,0)")))
  }

  /** The edges that link vertices 1 .. n in order. */
  function Chain(n: int): seq<Edge>
  {
    if n <= 1 then [] else seq(n - 1, k requires 0 <= k < n - 1 => Edge(k + 1, k + 2))
  }

  /** What `ParseResultData` hands to its setters for a reply and the previous measurement history. */
  function Decode(data: string, hist: seq<int>): Result<Decoded, Failure>
  {
    var s := ScanFrom(Split(data, '\n'), 0, Start);
    if !s.isMeasure then Ok(Decoded(s.prob, Chain(|s.vertices|), s.vertices, s.measured, hist))
    else if s.measured.None? || !(0 <= s.measured.value < |s.prob|) then Err(NoProbAt)
    else if s.vertices == [] then Err(NoVertex)
    else
      var m: nat := s.measured.value;
      var first := s.vertices[0].values;
      if m >= |first| then Err(NoValueAt)
      else
        var vs := s.vertices + [Vertex(|s.vertices| + 1, "Measured State", "Measured State", false, OneHot(first, m))];
        Ok(Decoded(Collapse(s.prob, m), Chain(|vs|), vs, Some(m), hist + [m]))
  }

  /** A line without `=` splits into itself. */
  lemma {:induction false} SplitFree(s: string, sep: char)
    requires Free(s, sep)
    ensures Split(s, sep) == [s]
  {
    if s != [] {
      SplitFree(s[1..], sep);
      assert [s[0]] + s[1..] == s;
    }
  }

  lemma QubitValuesSnoc(block: seq<string>, line: string)
    ensures QubitValues(block + [line]) == QubitValues(block) + [QubitEntry(line)]
  {
    var a, b := QubitValues(block + [line]), QubitValues(block) + [QubitEntry(line)];
    forall k | 0 <= k < |a| ensures a[k] == b[k] {
      assert (block + [line])[k] == if k < |block| then block[k] else line;
    }
  }

  /** Reading one more line of a probability block adds its entry at the end. */
  lemma ProbValuesStep(lines: seq<string>, start: nat, i: nat)
    requires start <= i < |lines|
    ensures ProbValues(lines[start..i + 1]) == ProbValues(lines[start..i]) + [ProbData(lines[i])]
  {
    ProbValuesSnoc(lines[start..i], lines[i]);
    SliceSnoc(lines, start, i + 1);
  }

  /** Reading one more line of the block adds its entry at the end. */
  lemma QubitValuesStep(lines: seq<string>, start: nat, i: nat)
    requires start <= i < |lines|
    ensures QubitValues(lines[start..i + 1]) == QubitValues(lines[start..i]) + [QubitEntry(lines[i])]
  {
    QubitValuesSnoc(lines[start..i], lines[i]);
    SliceSnoc(lines, start, i + 1);
  }

  lemma ProbValuesSnoc(block: seq<string>, line: string)
    ensures ProbValues(block + [line]) == ProbValues(block) + [ProbData(line)]
  {
    var a, b := ProbValues(block + [line]), ProbValues(block) + [ProbData(line)];
    forall k | 0 <= k < |a| ensures a[k] == b[k] {
      assert (block + [line])[k] == if k < |block| then block[k] else line;
    }
  }

  /** `ParseQubitData`: reads the state lines from start to the end of the block. */
  method ParseQubitData(lines: seq<string>, start: nat) returns (values: seq<Entry>, newIndex: nat)
    ensures newIndex == BlockEnd(lines, start)
    ensures values == QubitValues(Block(lines, start))
  {
    values := [];
    newIndex := start;
    ghost var e := BlockEnd(lines, start);
    while !EndsBlock(lines, newIndex)
      invariant start <= newIndex <= e
      invariant start >= |lines| ==> newIndex == start && values == []
      invariant start < |lines| ==> values == QubitValues(lines[start..newIndex])
      decreases |lines| - newIndex
    {
      QubitValuesStep(lines, start, newIndex);
      values := values + [QubitEntry(lines[newIndex])];
      newIndex := newIndex + 1;
    }
  }

  /** `ParseResultData`: the scan, the collapse after a measurement, and the edges. */
  method ParseReply(data: string, hist: seq<int>) returns (r: Result<Decoded, Failure>)
    ensures r == Decode(data, hist)
  {
    var lines := Split(data, '\n');
    var vertices: seq<Vertex>, prob: seq<ProbEntry>, measured: Option<int>, isMeasure := [], [], None, false;
    var i: nat, j: nat := 0, 0;
    while i < |lines|
      invariant j == |vertices|
      invariant ScanFrom(lines, i, Scan(vertices, prob, measured, isMeasure)) == ScanFrom(lines, 0, Start)
      decreases |lines| - i
    {
      var next, nj, t := ScanStep(lines, i, j, Scan(vertices, prob, measured, isMeasure));
      i, j := next, nj;
      vertices, prob, measured, isMeasure := t.vertices, t.prob, t.measured, t.isMeasure;
    }
    var scanned := Scan(vertices, prob, measured, isMeasure);
    assert scanned == ScanFrom(lines, 0, Start);
    if isMeasure {
      var k := 0;
      while k < |prob|
        invariant 0 <= k <= |prob| == |scanned.prob|
        invariant forall t :: 0 <= t < |prob| ==>
          prob[t] == if t < k then scanned.prob[t].(value := Exactly(0)) else scanned.prob[t]
      {
        prob := prob[k := prob[k].(value := Exactly(0))];
        k := k + 1;
      }
      if measured.None? || !(0 <= measured.value < |prob|) {
        return Err(NoProbAt);
      }
      var m: nat := measured.value;
      prob := prob[m := prob[m].(value := Exactly(1))];
      if |vertices| == 0 {
        return Err(NoVertex);
      }
      var copy := vertices[0].values;
      k := 0;
      while k < |copy|
        invariant 0 <= k <= |copy| == |vertices[0].values|
        invariant forall t :: 0 <= t < |copy| ==>
          copy[t] == if t < k then vertices[0].values[t].(value := Some("(0,0)")) else vertices[0].values[t]
      {
        copy := copy[k := copy[k].(value := Some("(0,0)"))];
        k := k + 1;
      }
      if m >= |copy| {
        return Err(NoValueAt);
      }
      copy := copy[m := copy[m].(value := Some("(1,0)"))];
      assert copy == OneHot(vertices[0].values, m);
      assert prob == Collapse(scanned.prob, m);
      vertices := vertices + [Vertex(|vertices| + 1, "Measured State", "Measured State", false, copy)];
      var edges := ChainEdges(|vertices|);
      return Ok(Decoded(prob, edges, vertices, measured, hist + [m]));
    }
    var edges := ChainEdges(|vertices|);
    r := Ok(Decoded(prob, edges, vertices, measured, hist));
  }

  /** The `while` loop of the `prob` branch: reads probability lines to the end of the block. */
  method ParseProbBlock(lines: seq<string>, start: nat) returns (prob: seq<ProbEntry>, e: nat)
    ensures e == BlockEnd(lines, start)
    ensures prob == ProbValues(Block(lines, start))
  {
    prob := [];
    e := start;
    ghost var last := BlockEnd(lines, start);
    while !EndsBlock(lines, e)
      invariant start <= e <= last
      invariant start >= |lines| ==> e == start && prob == []
      invariant start < |lines| ==> prob == ProbValues(lines[start..e])
      decreases |lines| - e
    {
      ProbValuesStep(lines, start, e);
      prob := prob + [ProbData(lines[e])];
      e := e + 1;
    }
  }

  /** The closing loop: one edge from vertex i + 1 to vertex i + 2 for every i below n - 1. */
  method ChainEdges(n: int) returns (edges: seq<Edge>)
    ensures edges == Chain(n)
  {
    edges := [];
    var i := 0;
    while i < n - 1
      invariant 0 <= i <= if n > 1 then n - 1 else 0
      invariant |edges| == i && forall t :: 0 <= t < i ==> edges[t] == Edge(t + 1, t + 2)
    {
      edges := edges + [Edge(i + 1, i + 2)];
      i := i + 1;
    }
    if n > 1 {
      forall t | 0 <= t < n - 1
        ensures edges[t] == Chain(n)[t]
      {
      }
      assert |edges| == |Chain(n)|;
      assert edges == Chain(n);
    }
  }

  /**
   * A block branch of the scanning loop: the state lines after line i
   * become vertex j + 1, and the cursor is set to the last line read.
   */
  method PushBlock(lines: seq<string>, i: nat, j: nat, s: Scan, caption: string) returns (c: nat, nj: nat, t: Scan)
    requires i < |lines| && j == |s.vertices|
    ensures c + 1 == BlockEnd(lines, i + 1) && nj == j + 1 == |t.vertices|
    ensures t == PushVertex(s, caption, QubitValues(Block(lines, i + 1)))
  {
    var values, newIndex := ParseQubitData(lines, i + 1);
    t := s.(vertices := s.vertices + [Vertex(j + 1, caption, caption, false, values)]);
    c := newIndex - 1;
    nj := j + 1;
  }

  /**
   * One pass of the scanning loop at cursor i, with the `for` loop's
   * increment: returns the next cursor, the vertex counter and the new state.
   */
  method ScanStep(lines: seq<string>, i: nat, j: nat, s: Scan) returns (next: nat, nj: nat, t: Scan)
    requires i < |lines| && j == |s.vertices|
    ensures nj == |t.vertices|
    ensures (next, t) == Step(lines, i, s)
  {
    var c: nat;
    if lines[i] == "+" {
      c, nj, t := PushBlock(lines, i, j, s, "Initial State");
      return c + 1, nj, t;
    } else if lines[i] == "measureNth" {
      c, nj, t := PushBlock(lines, i, j, s, "Measuring the Qubit");
      return c + 1, nj, t;
    } else if lines[i] == "prob" {
      var prob, e := ParseProbBlock(lines, i + 1);
      return e, j, s.(prob := s.prob + prob);
    } else if lines[i] == "measure" {
      var m := if i + 1 < |lines| then JsNumber(lines[i + 1]) else None;
      return i + 3, j, s.(measured := m, isMeasure := true);
    } else if lines[i] != "" {
      c, nj, t := PushBlock(lines, i, j, s, GateLabel(lines[i]));
      return c + 1, nj, t;
    }
    return i + 1, j, s;
  }

  /** Vertex k carries id k + 1. */
  predicate NumberedFromOne(vs: seq<Vertex>)
  {
    forall k :: 0 <= k < |vs| ==> vs[k].id == k + 1
  }

  /**
   * The scan only appends: the vertices and probabilities it starts with
   * stay in front, ids keep counting from one, and the measurement is left
   * alone unless a `measure` line is met.
   */
  lemma {:induction false} ScanAppends(lines: seq<string>, i: nat, s: Scan)
    requires NumberedFromOne(s.vertices)
    ensures var r := ScanFrom(lines, i, s);
      s.vertices <= r.vertices && s.prob <= r.prob && NumberedFromOne(r.vertices)
      && (s.isMeasure ==> r.isMeasure) && (!r.isMeasure ==> r.measured == s.measured)
    decreases |lines| - i
  {
    if i < |lines| {
      var n := Step(lines, i, s);
      assert s.vertices <= n.1.vertices && s.prob <= n.1.prob && NumberedFromOne(n.1.vertices)
        && (s.isMeasure ==> n.1.isMeasure) && (!n.1.isMeasure ==> n.1.measured == s.measured);
      ScanAppends(lines, n.0, n.1);
    }
  }

  /** The scan of a reply, from the empty state. */
  function Scanned(data: string): Scan
  {
    ScanFrom(Split(data, '\n'), 0, Start)
  }

  /**
   * Chain invariant: the vertices are numbered 1 .. N and the edges are
   * exactly the links from each vertex to the next, N - 1 of them.
   */
  lemma DecodeChain(data: string, hist: seq<int>)
    requires Decode(data, hist).Ok?
    ensures var d := Decode(data, hist).value;
      NumberedFromOne(d.vertices)
      && |d.edges| == (if d.vertices == [] then 0 else |d.vertices| - 1)
      && forall k :: 0 <= k < |d.edges| ==> d.edges[k] == Edge(d.vertices[k].id, d.vertices[k + 1].id)
  {
    ScanAppends(Split(data, '\n'), 0, Start);
  }

  /**
   * Without a `measure` line the scan is handed over as it is: no
   * measurement (NaN), no collapse and the history unchanged.
   */
  lemma DecodeWithoutMeasure(data: string, hist: seq<int>)
    requires !Scanned(data).isMeasure
    ensures Decode(data, hist) == Ok(Decoded(Scanned(data).prob, Chain(|Scanned(data).vertices|),
                                             Scanned(data).vertices, None, hist))
  {
    ScanAppends(Split(data, '\n'), 0, Start);
  }

  /**
   * Collapse invariant: after a `measure` line with index m, probability m
   * is 1 and every other is 0, names kept; the scanned vertices are kept
   * and followed by a "Measured State" vertex whose entries are the first
   * vertex's, one-hot at m; m is appended to the history.
   */
  lemma DecodeCollapse(data: string, hist: seq<int>)
    requires Scanned(data).isMeasure && Decode(data, hist).Ok?
    ensures var s, d := Scanned(data), Decode(data, hist).value;
      d.measured.Some? && var m := d.measured.value;
      s.measured == Some(m) && d.history == hist + [m]
      && 0 <= m < |d.prob| == |s.prob| && d.prob[m].value == Exactly(1)
      && (forall k :: 0 <= k < |d.prob| && k != m ==> d.prob[k].value == Exactly(0))
      && (forall k :: 0 <= k < |d.prob| ==> d.prob[k].name == s.prob[k].name)
      && |d.vertices| == |s.vertices| + 1 && d.vertices[..|s.vertices|] == s.vertices
      && var last := d.vertices[|s.vertices|];
      last.id == |d.vertices| && last.caption == "Measured State"
      && |last.values| == |s.vertices[0].values| && m < |last.values|
      && last.values[m].value == Some("(1,0)")
      && (forall k :: 0 <= k < |last.values| && k != m ==> last.values[k].value == Some("(0,0)"))
      && (forall k :: 0 <= k < |last.values| ==> last.values[k].qubit == s.vertices[0].values[k].qubit)
  {
    var s, d := Scanned(data), Decode(data, hist).value;
    assert d.vertices[..|s.vertices|] == s.vertices;
  }

  /** An empty reply decodes to nothing: no vertices, edges or probabilities, and NaN. */
  lemma DecodeEmpty(hist: seq<int>)
    ensures Decode("", hist) == Ok(Decoded([], [], [], None, hist))
  {
    assert Split("", '\n') == [""];
    assert Step([""], 0, Start) == (1, Start);
  }

  /** A `key=value` line with no other `=` splits into the key and the value. */
  lemma ValueLineFields(key: string, value: string)
    requires Free(key, '=') && Free(value, '=')
    ensures ParseValueLine(key + "=" + value) == [key, value]
  {
    SplitTerminated(key, '=', value);
    SplitFree(value, '=');
    assert key + "=" + value == key + ['='] + value;
  }

  /** `Number` reads back a rendered natural number. */
  lemma JsNumberOfNat(n: nat)
    ensures JsNumber(NatToString(n)) == Some(n)
  {
    var s := NatToString(n);
    assert Trim(s) == s by {
      assert !IsJsWhitespace(s[0]) && !IsJsWhitespace(s[|s| - 1]);
      assert TrimStart(s) == s;
    }
    DigitsValueOfNatToString(n);
  }

  /** A state line `n=v` becomes the entry labelled `n: |<n in binary>〉` holding v. */
  lemma QubitEntryOfIndex(n: nat, value: string)
    requires Free(value, '=')
    ensures QubitEntry(NatToString(n) + "=" + value) == Entry(NatToString(n) + ": |" + NatToBinary(n) + "\U{3009}\t", Some(value))
  {
    ValueLineFields(NatToString(n), value);
    JsNumberOfNat(n);
  }

  /**
   * A reply with an initial state of two lines and a `measure` line but no
   * `prob` block fails, whatever index follows `measure`: the collapse
   * writes `prob[m]` of an empty table. The reply `+`, `0=(1,0)`,
   * `1=(0,0)`, `measure`, `0` is one of these.
   */
  lemma MeasureWithoutProbFails(a: string, b: string, m: string, hist: seq<int>)
    requires a != [] && IsDigit(a[0]) && Free(a, '\n')
    requires b != [] && IsDigit(b[0]) && Free(b, '\n')
    requires Free(m, '\n')
    ensures Decode("+\n" + (a + "\n" + (b + "\n" + ("measure\n" + (m + "\n")))), hist) == Err(NoProbAt)
  {
    var lines := ["+", a, b, "measure", m, ""];
    ReplyLines(a, b, m);
    assert BlockEnd(lines, 1) == 3 by {
      assert !IsLettersAndSpaces(a) && !IsLettersAndSpaces(b);
      assert IsLettersAndSpaces(lines[3]);
      assert BlockEnd(lines, 3) == 3;
      assert BlockEnd(lines, 2) == 3;
    }
    var s1 := Step(lines, 0, Start).1;
    assert s1.prob == [];
    var s2 := Step(lines, 3, s1).1;
    assert Step(lines, 3, s1).0 == 6 && s2.isMeasure && s2.prob == [];
    assert ScanFrom(lines, 3, s1) == s2;
    assert ScanFrom(lines, 0, Start) == s2;
  }

  lemma ReplyLines(a: string, b: string, m: string)
    requires Free(a, '\n') && Free(b, '\n') && Free(m, '\n')
    ensures Split("+\n" + (a + "\n" + (b + "\n" + ("measure\n" + (m + "\n")))), '\n') == ["+", a, b, "measure", m, ""]
  {
    var r4 := m + "\n";
    var r3 := "measure\n" + r4;
    var r2 := b + "\n" + r3;
    var r1 := a + "\n" + r2;
    assert Split(r4, '\n') == [m, ""] by {
      assert r4 == m + ['\n'] + "";
      SplitTerminated(m, '\n', "");
    }
    assert Split(r3, '\n') == ["measure", m, ""] by {
      assert r3 == "measure" + ['\n'] + r4;
      SplitTerminated("measure", '\n', r4);
    }
    assert Split(r2, '\n') == [b, "measure", m, ""] by { SplitTerminated(b, '\n', r3); }
    assert Split(r1, '\n') == [a, b, "measure", m, ""] by { SplitTerminated(a, '\n', r2); }
    assert "+\n" + r1 == "+" + ['\n'] + r1;
    SplitTerminated("+", '\n', r1);
  }
}

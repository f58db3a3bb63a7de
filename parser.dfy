/**
 * The simulator's parser: a header `n : N` (the `n :` is optional), then
 * gate records read at fixed offsets from the token `type`. Key tokens,
 * colons and the position value are skipped without being looked at. The
 * source indexes the token vector without bound checks; here reading past
 * its end is an explicit fault, as are the exceptions `std::stoul` and
 * `std::stod` throw.
 */
module Parser {
  import opened Wrappers
  import opened Numbers
  import opened Tokens
  import opened Ast
  import opened Seqs

  /** Ways `parser::perform` can fail to return. */
  datatype Fault =
    | IndexOutOfRange          // toks[i] with i >= toks.size(): undefined behaviour
    | StoulFailed(error: ConversionError)
    | StodFailed(error: ConversionError)
    | LengthError              // M_gatelist.reserve(n) with n above max_size()

  /** The outcome of `perform`: true, false, or no return at all. */
  datatype Status = Accepted | Rejected | Faulted(fault: Fault)

  /** The nodes pushed onto the gate list, in order, and how the call ended. */
  datatype Parsed = Parsed(nodes: seq<AstNode>, status: Status)

  function Prepend(n: AstNode, p: Parsed): Parsed { Parsed([n] + p.nodes, p.status) }

  /** c is the letter l, in either case. */
  predicate Letter(c: char, l: char)
    requires 'a' <= l <= 'z'
  {
    c == l || c as int == l as int - 32
  }

  /** The text where `std::stod` reads its number: after blanks and an optional sign. */
  function Unsigned(t: string): string
  {
    var u := SkipSpace(t);
    if u != [] && (u[0] == '+' || u[0] == '-') then u[1..] else u
  }

  /**
   * Whether `std::stod` converts t without throwing invalid_argument: after
   * blanks and an optional sign, a digit, a '.' before a digit, or "inf" or
   * "nan" in any case must follow.
   */
  predicate StodAccepts(t: string)
  {
    var v := Unsigned(t);
    (|v| >= 1 && IsDigit(v[0]))
    || (|v| >= 2 && v[0] == '.' && IsDigit(v[1]))
    || (|v| >= 3 && Letter(v[0], 'i') && Letter(v[1], 'n') && Letter(v[2], 'f'))
    || (|v| >= 3 && Letter(v[0], 'n') && Letter(v[1], 'a') && Letter(v[2], 'n'))
  }

  /** An exponent starts r: 'e' or 'E', an optional sign, then a digit. */
  predicate ExponentFollows(r: string)
  {
    |r| >= 2 && (r[0] == 'e' || r[0] == 'E')
    && (IsDigit(r[1]) || (|r| >= 3 && (r[1] == '+' || r[1] == '-') && IsDigit(r[2])))
  }

  /**
   * The number `std::stod` reads from a plain decimal text, as a fraction:
   * the digits before and after the point as one integer, and the power of
   * ten to divide it by; None when an exponent follows.
   */
  function PlainDecimal(t: string): Option<(nat, nat)>
  {
    var v := Unsigned(t);
    var ip := LeadingDigits(v);
    var r := v[|ip|..];
    var point := r != [] && r[0] == '.';
    var fp := if point then LeadingDigits(r[1..]) else [];
    var after := if point then r[1 + |fp|..] else r;
    if ExponentFollows(after) then None
    else
      assert AllDigits(ip + fp) by {
        assert forall k :: 0 <= k < |ip + fp| ==> (ip + fp)[k] == if k < |ip| then ip[k] else fp[k - |ip|];
      }
      Some((DigitsValue(ip + fp), Pow(10, |fp|)))
  }

  const TwoTo54: nat := 0x40000000000000
  const TwoTo1074: nat := 0x40000000000000000000000000000000000000000000000000000000000000000000000000000000000000000000000000000000000000000000000000000000000000000000000000000000000000000000000000000000000000000000000000000000000000000000000000000000000000000000000000000000000000000000000000000
  const TwoTo1076: nat := 0x100000000000000000000000000000000000000000000000000000000000000000000000000000000000000000000000000000000000000000000000000000000000000000000000000000000000000000000000000000000000000000000000000000000000000000000000000000000000000000000000000000000000000000000000000000

  /**
   * Whether `std::stod` throws out_of_range (strtod sets ERANGE) for a plain
   * decimal text n / s: the value rounds to infinity, or it is non-zero,
   * tiny (below 2^-1022 - 2^-1076, so that it stays below the least normal
   * double when rounded to 53 bits) and not a multiple of the least
   * subnormal 2^-1074 (the conversion is inexact).
   */
  predicate StodOutOfRange(t: string)
  {
    match PlainDecimal(t)
    case None => false
    case Some((n, s)) =>
      n >= DoubleOverflow * s
      || (0 < n && n * TwoTo1076 < (TwoTo54 - 1) * s && (n * TwoTo1074) % s != 0)
  }

  /** A digit run with a fractional part is the fraction of all its digits over 10^|fp|. */
  lemma PlainDecimalOfParts(ip: string, fp: string)
    requires |ip| > 0 && AllDigits(ip) && AllDigits(fp)
    ensures StodAccepts(ip + "." + fp)
    ensures PlainDecimal(ip + "." + fp) == Some((DigitsValue(ip + fp), Pow(10, |fp|)))
  {
    var t, r := ip + "." + fp, "." + fp;
    assert Unsigned(t) == t by {
      assert SkipSpace(t) == t;
    }
    assert LeadingDigits(t) == ip && t[|ip|..] == r by {
      assert t == ip + r;
      LeadingDigitsStop(ip, r);
    }
    assert LeadingDigits(r[1..]) == fp && r[1 + |fp|..] == [] by {
      assert r[1..] == fp;
      AllDigitsLeading(fp);
    }
  }

  /** A digit run alone is its value over 1. */
  lemma PlainDecimalOfDigits(d: string)
    requires |d| > 0 && AllDigits(d)
    ensures StodAccepts(d)
    ensures PlainDecimal(d) == Some((DigitsValue(d), 1))
  {
    assert SkipSpace(d) == d && Unsigned(d) == d;
    AllDigitsLeading(d);
    assert d[|d|..] == [];
    assert d + [] == d;
  }

  /** A theta whose digits a double cannot hold ("1" and 400 zeros) throws out_of_range. */
  lemma ThetaOverflow(d: string)
    requires |d| > 0 && AllDigits(d) && DigitsValue(d) >= DoubleOverflow
    ensures Theta([Token(Iden, d)], 0) == Err(StodFailed(OutOfRange))
  {
    PlainDecimalOfDigits(d);
  }

  /**
   * A theta of digits, with or without a '-', whose value a double holds is
   * converted and kept: the extractor's default "-1" among them.
   */
  lemma ThetaInRange(negative: bool, d: string)
    requires |d| > 0 && AllDigits(d) && DigitsValue(d) < DoubleOverflow
    ensures var t := (if negative then "-" else "") + d;
      Theta([Token(Iden, t)], 0) == Ok(t)
  {
    var t := (if negative then "-" else "") + d;
    UnsignedOfDigits(negative, d);
    UnsignedOfDigits(false, d);
    assert "" + d == d;
    DigitsInRange(d);
    SameUnsigned(t, d);
  }

  /** Blanks and one sign aside, a digit string with an optional '-' is its digits. */
  lemma UnsignedOfDigits(negative: bool, d: string)
    requires |d| > 0 && AllDigits(d)
    ensures Unsigned((if negative then "-" else "") + d) == d
  {
    var t := (if negative then "-" else "") + d;
    assert !IsSpace(t[0]);
    if negative {
      assert t[1..] == d;
    } else {
      assert t == d;
    }
  }

  /** A digit string whose value a double holds converts without an exception. */
  lemma DigitsInRange(d: string)
    requires |d| > 0 && AllDigits(d) && DigitsValue(d) < DoubleOverflow
    ensures StodAccepts(d) && !StodOutOfRange(d)
  {
    PlainDecimalOfDigits(d);
    assert (DigitsValue(d) * TwoTo1074) % 1 == 0;
  }

  /** `std::stod` looks only at the text after the blanks and the sign. */
  lemma SameUnsigned(t: string, u: string)
    requires Unsigned(t) == Unsigned(u)
    ensures StodAccepts(t) == StodAccepts(u) && StodOutOfRange(t) == StodOutOfRange(u)
  {
    assert PlainDecimal(t) == PlainDecimal(u);
  }

  /** The text of token k. */
  function Text(t: seq<Token>, k: nat): (r: Result<string, Fault>)
    ensures r.Ok? <==> k < |t|
    ensures r.Ok? ==> r.value == t[k].val
  {
    if k < |t| then Ok(t[k].val) else Err(IndexOutOfRange)
  }

  /** `std::stoul(toks[k].M_val)`. */
  function Size(t: seq<Token>, k: nat): (r: Result<SizeT, Fault>)
    ensures r.Ok? <==> k < |t| && Stoul(t[k].val).Ok?
    ensures r.Ok? ==> r.value == Stoul(t[k].val).value
  {
    if k >= |t| then Err(IndexOutOfRange)
    else match Stoul(t[k].val)
      case Ok(v) => Ok(v)
      case Err(e) => Err(StoulFailed(e))
  }

  /** `std::stod(toks[k].M_val)`, keeping the accepted text. */
  function Theta(t: seq<Token>, k: nat): (r: Result<string, Fault>)
    ensures r.Ok? <==> k < |t| && StodAccepts(t[k].val) && !StodOutOfRange(t[k].val)
    ensures r.Ok? ==> r.value == t[k].val
    ensures r.Err? ==> r.error == if k < |t| then StodFailed(if StodAccepts(t[k].val) then OutOfRange else InvalidArgument) else IndexOutOfRange
  {
    if k >= |t| then Err(IndexOutOfRange)
    else if !StodAccepts(t[k].val) then Err(StodFailed(InvalidArgument))
    else if StodOutOfRange(t[k].val) then Err(StodFailed(OutOfRange))
    else Ok(t[k].val)
  }

  /** What one record yields: its node and the index of the token after it, or why not. */
  datatype RecordRead = Read(node: AstNode, end: nat) | NotARecord | Failed(fault: Fault)

  /** The value offsets of each record kind, counted from its `type` token. */
  function ValueOffsets(kind: string): set<nat>
  {
    if kind == "single" then {5, 8, 11}
    else if kind == "cnot" || kind == "cz" || kind == "swap" then {5, 8}
    else if kind == "measurenth" then {5}
    else {}
  }

  /** Two size values at offsets 5 and 8, in that order. */
  function SizePair(t: seq<Token>): Result<(SizeT, SizeT), Fault>
  {
    match Size(t, 5)
    case Err(f) => Err(f)
    case Ok(a) =>
      match Size(t, 8)
      case Err(f) => Err(f)
      case Ok(b) => Ok((a, b))
  }

  /**
   * The body of the loop in `parser::perform` for the record at the front
   * of t, up to the optional `@` check: `type : <kind>` and then, per kind,
   * `key : value` pairs ending with `position : <value>`.
   */
  function Record(t: seq<Token>): (r: RecordRead)
    requires t != []
    ensures r.Read? ==> 9 <= r.end
  {
    if t[0].val != "type" then NotARecord
    else if |t| <= 2 then Failed(IndexOutOfRange)
    else
      var kind := t[2].val;
      if kind == "single" then
        match Text(t, 5)
        case Err(f) => Failed(f)
        case Ok(g) =>
          match Size(t, 8)
          case Err(f) => Failed(f)
          case Ok(q) =>
            match Theta(t, 11)
            case Err(f) => Failed(f)
            case Ok(th) => Read(SingleGateNode(g, q, th), 15)
      else if kind == "cnot" || kind == "cz" || kind == "swap" then
        match SizePair(t)
        case Err(f) => Failed(f)
        case Ok(p) =>
          var n := if kind == "cnot" then CnotGateNode(p.0, p.1)
            else if kind == "cz" then CzGateNode(p.0, p.1)
            else SwapGateNode(p.0, p.1);
          Read(n, 12)
      else if kind == "measurenth" then
        match Size(t, 5)
        case Err(f) => Failed(f)
        case Ok(q) => Read(MeasureNthNode(q), 9)
      else NotARecord
  }

  /**
   * The loop of `parser::perform` on the tokens t left after the header:
   * each record's node is pushed, then the token after it is read and
   * skipped when it is a SEP.
   */
  function Records(t: seq<Token>): Parsed
    decreases |t|, 1
  {
    if t == [] then Parsed([], Accepted) else RecordsAt(t)
  }

  /** One pass of the loop on non-empty t: the record at its front, then the rest. */
  function RecordsAt(t: seq<Token>): Parsed
    requires t != []
    decreases |t|, 0
  {
    match Record(t)
    case NotARecord => Parsed([], Rejected)
    case Failed(f) => Parsed([], Faulted(f))
    case Read(n, end) =>
      if end >= |t| then Parsed([n], Faulted(IndexOutOfRange))
      else Prepend(n, Records(t[if t[end].kind == Sep then end + 1 else end..]))
  }

  /** The header's value, if it was read, and what the records yield. */
  datatype Outcome = Outcome(nqubs: Option<SizeT>, parsed: Parsed)

  /** Where the header's value is: after `n :` when token 0 is "n". */
  function HeaderAt(toks: seq<Token>): nat
    requires toks != []
  {
    if toks[0].val == "n" then 2 else 0
  }

  /**
   * `max_size()` of the gate list, a vector of 8-byte pointers under
   * libstdc++ on x86-64: PTRDIFF_MAX / 8, that is 2^60 - 1. Reserving more
   * throws std::length_error.
   */
  const MaxGateList: int := 0x0FFF_FFFF_FFFF_FFFF

  /** `parser::perform(toks)` as a value. */
  function Parse(toks: seq<Token>): Outcome
  {
    if toks == [] then Outcome(None, Parsed([], Faulted(IndexOutOfRange)))
    else
      var h := HeaderAt(toks);
      match Size(toks, h)
      case Err(f) => Outcome(None, Parsed([], Faulted(f)))
      case Ok(n) =>
        if n > MaxGateList then Outcome(Some(n), Parsed([], Faulted(LengthError)))
        else Outcome(Some(n), Records(toks[h + 1..]))
  }

  /** `perform` as the header read followed by the records after it. */
  lemma ParseByHeader(toks: seq<Token>)
    requires toks != []
    ensures Size(toks, HeaderAt(toks)).Err? ==>
      Parse(toks) == Outcome(None, Parsed([], Faulted(Size(toks, HeaderAt(toks)).error)))
    ensures Size(toks, HeaderAt(toks)).Ok? && Size(toks, HeaderAt(toks)).value <= MaxGateList ==>
      Parse(toks) == Outcome(Some(Size(toks, HeaderAt(toks)).value), Records(toks[HeaderAt(toks) + 1..]))
    ensures Size(toks, HeaderAt(toks)).Ok? && Size(toks, HeaderAt(toks)).value > MaxGateList ==>
      Parse(toks) == Outcome(Some(Size(toks, HeaderAt(toks)).value), Parsed([], Faulted(LengthError)))
  {
  }

  /** The header is read at index 2 when token 0 is "n", or else at index 0. */
  lemma ParseHeader(toks: seq<Token>)
    requires toks != []
    ensures var h := if toks[0].val == "n" then 2 else 0;
      Parse(toks).nqubs.Some? <==> h < |toks| && Stoul(toks[h].val).Ok?
    ensures var h := if toks[0].val == "n" then 2 else 0;
      Parse(toks).nqubs.Some? ==>
        Parse(toks).nqubs.value == Stoul(toks[h].val).value
        && Parse(toks).parsed == if Parse(toks).nqubs.value > MaxGateList then Parsed([], Faulted(LengthError))
          else Records(toks[h + 1..])
  {
  }

  /**
   * A count stoul reads but the gate list cannot reserve, such as
   * 2000000000000000000, is kept while `perform` throws length_error before
   * any record is read.
   */
  lemma CountBeyondMaxSize(n: nat, rest: seq<Token>)
    requires MaxGateList < n < SizeLimit
    ensures Parse([Token(Iden, NatToString(n))] + rest) == Outcome(Some(n), Parsed([], Faulted(LengthError)))
  {
    StoulOfNatToString(n);
    var toks := [Token(Iden, NatToString(n))] + rest;
    assert toks[0].val == NatToString(n);
    assert NatToString(n) != "n" by {
      assert IsDigit(NatToString(n)[0]);
    }
  }

  /** Every record must start with "type", and its kind must be one of the five. */
  lemma ParseRejects(t: seq<Token>)
    requires t != []
    ensures t[0].val != "type" ==> Records(t) == Parsed([], Rejected)
    ensures |t| > 2 && !(t[2].val in {"single", "cnot", "cz", "swap", "measurenth"}) ==>
      Records(t) == Parsed([], Rejected)
  {
  }

  /**
   * Only the tokens `type` and the kind, and the value tokens at the kind's
   * offsets, are looked at, and of those only their text: keys, colons and
   * the position value may be anything.
   */
  lemma {:induction false} RecordReadsValuesOnly(t: seq<Token>, u: seq<Token>)
    requires |t| == |u| > 2 && t[0].val == u[0].val && t[2].val == u[2].val
    requires forall k :: k in ValueOffsets(t[2].val) && k < |t| ==> t[k].val == u[k].val
    ensures Record(t) == Record(u)
  {
    var kind := t[2].val;
    if kind == "single" {
      assert 5 in ValueOffsets(kind) && 8 in ValueOffsets(kind) && 11 in ValueOffsets(kind);
      assert Text(t, 5) == Text(u, 5) && Size(t, 8) == Size(u, 8) && Theta(t, 11) == Theta(u, 11);
    } else if kind == "cnot" || kind == "cz" || kind == "swap" {
      assert 5 in ValueOffsets(kind) && 8 in ValueOffsets(kind);
      assert SizePair(t) == SizePair(u);
    } else if kind == "measurenth" {
      assert 5 in ValueOffsets(kind);
      assert Size(t, 5) == Size(u, 5);
    }
  }

  /** A record is read from the tokens before its end alone. */
  lemma {:induction false} RecordPrefix(t: seq<Token>, u: seq<Token>)
    requires t != [] && Record(t).Read? && Record(t).end <= |t|
    requires Record(t).end <= |u| && u[..Record(t).end] == t[..Record(t).end]
    ensures Record(u) == Record(t)
  {
    var e := Record(t).end;
    assert forall k :: 0 <= k < e ==> u[k] == t[k] by {
      forall k | 0 <= k < e ensures u[k] == t[k] {
        assert u[..e][k] == u[k] && t[..e][k] == t[k];
      }
    }
    assert u[0] == t[0] && u[2] == t[2] && u[5] == t[5] && u[8] == t[8];
    if t[2].val == "single" {
      assert u[11] == t[11];
    }
  }

  /**
   * The `@` after a record may be left out when another record follows:
   * removing it changes nothing.
   */
  lemma SepOptional(t: seq<Token>)
    requires t != [] && Record(t).Read?
    requires Record(t).end + 1 < |t| && t[Record(t).end].kind == Sep && t[Record(t).end + 1].kind != Sep
    ensures Records(t[..Record(t).end] + t[Record(t).end + 1..]) == Records(t)
  {
    var e := Record(t).end;
    var u := t[..e] + t[e + 1..];
    assert u[..e] == t[..e];
    RecordPrefix(t, u);
    assert u[e..] == t[e + 1..] && u[e] == t[e + 1];
    RecordsSameRest(t, u);
  }

  /** Two token lists with the same first record and the same tokens after it give the same records. */
  lemma RecordsSameRest(t: seq<Token>, u: seq<Token>)
    requires t != [] && u != [] && Record(t).Read? && Record(u) == Record(t)
    requires Record(t).end < |t| && Record(t).end < |u|
    requires var e := Record(t).end;
      t[if t[e].kind == Sep then e + 1 else e..] == u[if u[e].kind == Sep then e + 1 else e..]
    ensures Records(t) == Records(u)
  {
    RecordsUnfold(t);
    RecordsUnfold(u);
  }

  /** The records of t are its first record's node, then the records after it. */
  lemma RecordsUnfold(t: seq<Token>)
    requires t != [] && Record(t).Read? && Record(t).end < |t|
    ensures var e := Record(t).end;
      Records(t) == Prepend(Record(t).node, Records(t[if t[e].kind == Sep then e + 1 else e..]))
  {
  }

  /**
   * The last record's `@` is not optional: without it the check for a SEP
   * reads past the end of the tokens, after the node has been pushed.
   */
  lemma LastSepRequired(t: seq<Token>)
    requires t != [] && Record(t).Read? && |t| == Record(t).end
    ensures Records(t) == Parsed([Record(t).node], Faulted(IndexOutOfRange))
  {
  }

  /** `parser`: the gate list and the qubit count that `perform` sets. */
  class Parser {
    var gateList: seq<AstNode>
    /** None until a header has been read: the default constructor leaves it indeterminate. */
    var nqubs: Option<SizeT>

    constructor ()
      ensures gateList == [] && nqubs == None
    {
      gateList := [];
      nqubs := None;
    }

    /** `get()`. */
    function Get(): seq<AstNode>
      reads this
    {
      gateList
    }

    /** `get_no_qubits()`. */
    function GetNoQubits(): Option<SizeT>
      reads this
    {
      nqubs
    }

    /**
     * `parser::perform(toks)`: reads the header into nqubs, appends one
     * node per record to the gate list and, on success, clears the tokens.
     */
    method Perform(toks: seq<Token>) returns (status: Status, toksAfter: seq<Token>)
      modifies this
      ensures status == Parse(toks).parsed.status
      ensures nqubs == if Parse(toks).nqubs.Some? then Parse(toks).nqubs else old(nqubs)
      ensures gateList == old(gateList) + Parse(toks).parsed.nodes
      ensures toksAfter == if status == Accepted then [] else toks
    {
      toksAfter := toks;
      if |toks| == 0 {
        return Faulted(IndexOutOfRange), toksAfter;
      }
      var i := 0;
      if toks[i].val == "n" {
        i := i + 2;   // skips `n` and `:`
      }
      assert i == HeaderAt(toks);
      var n := ReadSize(toks, i);
      ParseByHeader(toks);
      if n.Err? {
        return Faulted(n.error), toksAfter;
      }
      nqubs := Some(n.value);
      if n.value > MaxGateList {
        return Faulted(LengthError), toksAfter;   // M_gatelist.reserve throws
      }
      assert Parse(toks) == Outcome(Some(n.value), Records(toks[i + 1..]));
      status := ParseRecords(toks, i + 1);
      if status == Accepted {
        toksAfter := [];
      }
    }

    /**
     * The record loop of `parser::perform` from cursor i: appends one node
     * per record to the gate list and returns the call's result.
     */
    method ParseRecords(toks: seq<Token>, start: nat) returns (status: Status)
      requires start <= |toks|
      modifies this
      ensures nqubs == old(nqubs)
      ensures status == Records(toks[start..]).status
      ensures gateList == old(gateList) + Records(toks[start..]).nodes
    {
      var i := start;
      ghost var whole := Records(toks[start..]);
      while i < |toks|
        invariant start <= i <= |toks| && nqubs == old(nqubs)
        invariant gateList + Records(toks[i..]).nodes == old(gateList) + whole.nodes
        invariant Records(toks[i..]).status == whole.status
      {
        var next, stop := Step(toks, i);
        if stop.Some? {
          return stop.value;
        }
        i := next;
      }
      status := Accepted;
    }

    /**
     * One pass of the loop in `parser::perform`: reads the record at i,
     * pushes its node and skips a SEP after it; stop holds the result when
     * the pass ends the call.
     */
    method Step(toks: seq<Token>, i: nat) returns (next: nat, stop: Option<Status>)
      requires i < |toks|
      modifies this
      ensures nqubs == old(nqubs)
      ensures stop.Some? ==> stop.value == Records(toks[i..]).status && stop.value != Accepted
      ensures stop.Some? ==> gateList == old(gateList) + Records(toks[i..]).nodes
      ensures stop.None? ==> i < next <= |toks| && Records(toks[next..]).status == Records(toks[i..]).status
      ensures stop.None? ==> gateList + Records(toks[next..]).nodes == old(gateList) + Records(toks[i..]).nodes
    {
      next := i;
      var rec := ReadRecord(toks, i);
      match rec {
        case NotARecord =>
          stop := Some(Rejected);
        case Failed(f) =>
          stop := Some(Faulted(f));
        case Read(node, end) =>
          gateList := gateList + [node];
          next := i + end;
          if next >= |toks| {
            stop := Some(Faulted(IndexOutOfRange));
          } else {
            if toks[next].kind == Sep {
              next := next + 1;
            }
            stop := None;
            RecordsStep(toks, i, next);
            AppendShift(old(gateList), node, Records(toks[next..]).nodes);
          }
      }
    }
  }

  /** The records from i are the record at i, then the records from next. */
  lemma RecordsStep(toks: seq<Token>, i: nat, next: nat)
    requires i < |toks| && Record(toks[i..]).Read? && i + Record(toks[i..]).end < |toks|
    requires next == i + Record(toks[i..]).end + (if toks[i + Record(toks[i..]).end].kind == Sep then 1 else 0)
    ensures Records(toks[i..]) == Prepend(Record(toks[i..]).node, Records(toks[next..]))
  {
    var t := toks[i..];
    var e := Record(t).end;
    var k := if t[e].kind == Sep then e + 1 else e;
    assert k == next - i by {
      assert t[e] == toks[i + e];
    }
    assert t[k..] == toks[next..];
    RecordsUnfold(t);
  }

  /** `std::stoul(toks[k].M_val)`, reading toks[k] only when it exists. */
  method ReadSize(toks: seq<Token>, k: nat) returns (r: Result<SizeT, Fault>)
    ensures r == Size(toks, k)
  {
    if k >= |toks| {
      return Err(IndexOutOfRange);
    }
    var v := Stoul(toks[k].val);
    if v.Err? {
      return Err(StoulFailed(v.error));
    }
    return Ok(v.value);
  }

  /**
   * One pass of the loop in `parser::perform` from the `type` token at
   * index r, moving the cursor by the source's fixed steps; the end it
   * reports is counted from r.
   */
  method ReadRecord(toks: seq<Token>, r: nat) returns (rec: RecordRead)
    requires r < |toks|
    ensures rec == Record(toks[r..])
  {
    ShiftedReads(toks, r);
    if toks[r].val != "type" {
      return NotARecord;
    }
    var i := r + 2;   // skips `type` and `:`
    if i >= |toks| {
      return Failed(IndexOutOfRange);
    }
    var kind := toks[i].val;
    i := i + 1;
    if kind == "single" {
      i := i + 2;   // skips `gateType :`
      if i >= |toks| {
        return Failed(IndexOutOfRange);
      }
      var g := toks[i].val;
      i := i + 3;   // skips the value and `qubit :`
      var q := ReadSize(toks, i);
      if q.Err? {
        return Failed(q.error);
      }
      i := i + 3;   // skips the value and `theta :`
      if i >= |toks| {
        return Failed(IndexOutOfRange);
      }
      if !StodAccepts(toks[i].val) {
        return Failed(StodFailed(InvalidArgument));
      }
      if StodOutOfRange(toks[i].val) {
        return Failed(StodFailed(OutOfRange));
      }
      var theta := toks[i].val;
      i := i + 4;   // skips the value, `position :` and its value
      return Read(SingleGateNode(g, q.value, theta), i - r);
    } else if kind == "cnot" || kind == "cz" || kind == "swap" {
      i := i + 2;   // skips the first key and `:`
      var a := ReadSize(toks, i);
      if a.Err? {
        return Failed(a.error);
      }
      i := i + 3;   // skips the value and the second key and `:`
      var b := ReadSize(toks, i);
      if b.Err? {
        return Failed(b.error);
      }
      i := i + 4;   // skips the value, `position :` and its value
      var node := if kind == "cnot" then CnotGateNode(a.value, b.value)
        else if kind == "cz" then CzGateNode(a.value, b.value)
        else SwapGateNode(a.value, b.value);
      return Read(node, i - r);
    } else if kind == "measurenth" {
      i := i + 2;   // skips `qubit :`
      var q := ReadSize(toks, i);
      if q.Err? {
        return Failed(q.error);
      }
      i := i + 4;   // skips the value, `position :` and its value
      return Read(MeasureNthNode(q.value), i - r);
    }
    return NotARecord;
  }

  /** Reading at offset k of the suffix from r is reading at r + k. */
  lemma ShiftedReads(toks: seq<Token>, r: nat)
    requires r <= |toks|
    ensures forall k: nat :: Text(toks[r..], k) == Text(toks, r + k)
    ensures forall k: nat :: Size(toks[r..], k) == Size(toks, r + k)
    ensures forall k: nat :: Theta(toks[r..], k) == Theta(toks, r + k)
  {
  }
}

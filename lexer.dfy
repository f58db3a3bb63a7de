/** The simulator's tokens: a kind (IDEN, COLON or SEP) and the text read. */
module Tokens {

  datatype TokenType = Iden | Colon | Sep

  datatype Token = Token(kind: TokenType, val: string)
}

/**
 * The simulator's character scanner: `@` and `:` are tokens of their own,
 * blanks separate tokens, and a maximal run of letters, or of digits, '-'
 * and '.', is one IDEN token. Any other character stops the scan with
 * failure. The scanner appends to its token list and never clears it.
 */
module Lexer {
  import opened Tokens
  import opened Seqs

  /** `std::isalpha` in the "C" locale. */
  predicate IsAlpha(c: char) { 'a' <= c <= 'z' || 'A' <= c <= 'Z' }

  /** `std::isdigit(c) || c == '-' || c == '.'`: the characters of a number. */
  predicate IsNumeric(c: char) { '0' <= c <= '9' || c == '-' || c == '.' }

  /** Space, tab, carriage return and line feed, which produce no token. */
  predicate IsBlank(c: char) { c == ' ' || c == '\t' || c == '\r' || c == '\n' }

  /** A character after which no IDEN run can continue. */
  predicate IsDelimiter(c: char) { c == '@' || c == ':' || IsBlank(c) }

  /** The characters the scanner accepts. */
  predicate Allowed(c: char) { IsDelimiter(c) || IsAlpha(c) || IsNumeric(c) }

  /** The character class of a run: numbers when numeric, letters otherwise. */
  predicate InClass(c: char, numeric: bool) { if numeric then IsNumeric(c) else IsAlpha(c) }

  /** The longest prefix of s in the class: the text of one IDEN token. */
  function Run(s: string, numeric: bool): (r: string)
    ensures |r| <= |s|
  {
    if s == [] || !InClass(s[0], numeric) then [] else [s[0]] + Run(s[1..], numeric)
  }

  /** The run is a prefix of s, all in the class, and the next character is not. */
  lemma {:induction false} RunIsMaximal(s: string, numeric: bool)
    ensures Run(s, numeric) == s[..|Run(s, numeric)|]
    ensures forall k :: 0 <= k < |Run(s, numeric)| ==> InClass(Run(s, numeric)[k], numeric)
    ensures |Run(s, numeric)| < |s| ==> !InClass(s[|Run(s, numeric)|], numeric)
  {
    if s != [] && InClass(s[0], numeric) {
      RunIsMaximal(s[1..], numeric);
    }
  }

  /** A token as the scanner makes it: SEP "@", COLON ":", or a non-empty one-class IDEN. */
  predicate WellFormed(t: Token)
  {
    match t.kind
    case Sep => t.val == "@"
    case Colon => t.val == ":"
    case Iden =>
      |t.val| > 0
      && ((forall k :: 0 <= k < |t.val| ==> IsAlpha(t.val[k])) || (forall k :: 0 <= k < |t.val| ==> IsNumeric(t.val[k])))
  }

  /** The tokens one scan appends, and whether it succeeded. */
  datatype Lexed = Lexed(tokens: seq<Token>, ok: bool)

  function Prepend(t: Token, r: Lexed): Lexed { Lexed([t] + r.tokens, r.ok) }

  /**
   * `lexer::perform(s)` as a value: the tokens it appends, in input order,
   * and its result. A failing scan keeps the tokens read before the bad
   * character.
   */
  function Lex(s: string): Lexed
    decreases |s|
  {
    if s == [] then Lexed([], true)
    else if s[0] == '@' then Prepend(Token(Sep, "@"), Lex(s[1..]))
    else if s[0] == ':' then Prepend(Token(Colon, ":"), Lex(s[1..]))
    else if IsBlank(s[0]) then Lex(s[1..])
    else if IsAlpha(s[0]) || IsNumeric(s[0]) then
      var run := Run(s, IsNumeric(s[0]));
      Prepend(Token(Iden, run), Lex(s[|run|..]))
    else Lexed([], false)
  }

  /** Every token is SEP "@", COLON ":" or a non-empty run of one class. */
  lemma {:induction false} LexWellFormed(s: string)
    ensures forall k :: 0 <= k < |Lex(s).tokens| ==> WellFormed(Lex(s).tokens[k])
    decreases |s|
  {
    if s != [] {
      if s[0] == '@' || s[0] == ':' || IsBlank(s[0]) {
        LexWellFormed(s[1..]);
      } else if IsAlpha(s[0]) || IsNumeric(s[0]) {
        var run := Run(s, IsNumeric(s[0]));
        RunIsMaximal(s, IsNumeric(s[0]));
        LexWellFormed(s[|run|..]);
        assert WellFormed(Token(Iden, run));
      }
    }
  }

  /** The scan succeeds exactly when every character is one the scanner accepts. */
  lemma {:induction false} LexOkIff(s: string)
    ensures Lex(s).ok <==> forall k :: 0 <= k < |s| ==> Allowed(s[k])
    decreases |s|
  {
    if s != [] {
      if s[0] == '@' || s[0] == ':' || IsBlank(s[0]) {
        LexOkIff(s[1..]);
        assert forall k :: 1 <= k < |s| ==> s[k] == s[1..][k - 1];
      } else if IsAlpha(s[0]) || IsNumeric(s[0]) {
        var run := Run(s, IsNumeric(s[0]));
        RunIsMaximal(s, IsNumeric(s[0]));
        LexOkIff(s[|run|..]);
        assert forall k :: |run| <= k < |s| ==> s[k] == s[|run|..][k - |run|];
        assert forall k :: 0 <= k < |run| ==> s[k] == run[k];
      }
    }
  }

  /** s without its blanks. */
  function NonBlank(s: string): (r: string)
    ensures |r| <= |s|
  {
    if s == [] then [] else (if IsBlank(s[0]) then [] else [s[0]]) + NonBlank(s[1..])
  }

  lemma {:induction false} NonBlankConcat(a: string, b: string)
    ensures NonBlank(a + b) == NonBlank(a) + NonBlank(b)
  {
    if a != [] {
      assert (a + b)[1..] == a[1..] + b;
      NonBlankConcat(a[1..], b);
    } else {
      assert a + b == b;
    }
  }

  lemma {:induction false} NonBlankRun(s: string, numeric: bool)
    ensures NonBlank(Run(s, numeric)) == Run(s, numeric)
  {
    if s != [] && InClass(s[0], numeric) {
      NonBlankRun(s[1..], numeric);
      assert ([s[0]] + Run(s[1..], numeric))[1..] == Run(s[1..], numeric);
    }
  }

  /** The texts of the tokens, joined. */
  function Concat(ts: seq<Token>): string
  {
    if ts == [] then "" else ts[0].val + Concat(ts[1..])
  }

  /**
   * A successful scan loses nothing but blanks: its tokens, joined, are
   * the input with the blanks removed; and no token is empty.
   */
  lemma {:induction false} LexKeepsText(s: string)
    requires Lex(s).ok
    ensures Concat(Lex(s).tokens) == NonBlank(s)
    ensures forall k :: 0 <= k < |Lex(s).tokens| ==> Lex(s).tokens[k].val != ""
    decreases |s|, 1
  {
    if s != [] {
      if s[0] == '@' || s[0] == ':' || IsBlank(s[0]) {
        LexKeepsText(s[1..]);
        var t := Lex(s[1..]).tokens;
        if !IsBlank(s[0]) {
          assert ([Token(if s[0] == '@' then Sep else Colon, [s[0]])] + t)[1..] == t;
        }
      } else {
        LexKeepsTextRun(s);
      }
    }
  }

  lemma {:induction false} LexKeepsTextRun(s: string)
    requires Lex(s).ok && s != [] && (IsAlpha(s[0]) || IsNumeric(s[0]))
    ensures Concat(Lex(s).tokens) == NonBlank(s)
    ensures forall k :: 0 <= k < |Lex(s).tokens| ==> Lex(s).tokens[k].val != ""
    decreases |s|, 0
  {
    var run := Run(s, IsNumeric(s[0]));
    var rest := s[|run|..];
    assert s == run + rest by {
      RunIsMaximal(s, IsNumeric(s[0]));
    }
    LexUnfoldRun(s);
    LexKeepsText(rest);
    assert NonBlank(s) == run + NonBlank(rest) by {
      NonBlankConcat(run, rest);
      NonBlankRun(s, IsNumeric(s[0]));
    }
    assert ([Token(Iden, run)] + Lex(rest).tokens)[1..] == Lex(rest).tokens;
  }

  /** A run cannot continue past a character outside its class. */
  lemma {:induction false} RunStops(a: string, b: string, numeric: bool)
    requires b != [] && !InClass(b[0], numeric)
    ensures Run(a + b, numeric) == Run(a, numeric)
  {
    if a == [] {
      assert a + b == b;
    } else if InClass(a[0], numeric) {
      assert (a + b)[1..] == a[1..] + b;
      RunStops(a[1..], b, numeric);
    }
  }

  /**
   * Scanning a text, then more text that starts with a delimiter, gives the
   * tokens of the first part followed by those of the second, unless the
   * first part already fails.
   */
  lemma {:induction false} LexConcat(a: string, b: string)
    requires b != [] && IsDelimiter(b[0])
    ensures Lex(a + b) == if Lex(a).ok then Lexed(Lex(a).tokens + Lex(b).tokens, Lex(b).ok) else Lex(a)
    decreases |a|, 1
  {
    if a == [] {
      assert a + b == b;
    } else {
      var c := a[0];
      assert (a + b)[0] == c;
      if c == '@' || c == ':' || IsBlank(c) {
        assert (a + b)[1..] == a[1..] + b;
        LexConcat(a[1..], b);
      } else if IsAlpha(c) || IsNumeric(c) {
        LexConcatRun(a, b);
      }
    }
  }

  lemma {:induction false} LexConcatRun(a: string, b: string)
    requires b != [] && IsDelimiter(b[0])
    requires a != [] && (IsAlpha(a[0]) || IsNumeric(a[0]))
    ensures Lex(a + b) == if Lex(a).ok then Lexed(Lex(a).tokens + Lex(b).tokens, Lex(b).ok) else Lex(a)
    decreases |a|, 0
  {
    var run := Run(a, IsNumeric(a[0]));
    var rest := a[|run|..];
    var tok := Token(Iden, run);
    LexHeadRun(a, b);
    LexUnfoldRun(a);
    LexConcat(rest, b);
    if Lex(rest).ok {
      assert [tok] + (Lex(rest).tokens + Lex(b).tokens) == ([tok] + Lex(rest).tokens) + Lex(b).tokens;
    }
  }

  /** The run at the front of a is the first token of a + b when b starts with a delimiter. */
  lemma LexHeadRun(a: string, b: string)
    requires b != [] && IsDelimiter(b[0])
    requires a != [] && (IsAlpha(a[0]) || IsNumeric(a[0]))
    ensures var run := Run(a, IsNumeric(a[0]));
      Lex(a + b) == Prepend(Token(Iden, run), Lex(a[|run|..] + b))
  {
    var numeric := IsNumeric(a[0]);
    var ab := a + b;
    var run := Run(a, numeric);
    assert IsNumeric(ab[0]) == numeric by {
      assert ab[0] == a[0];
    }
    assert Run(ab, numeric) == run by {
      RunStops(a, b, numeric);
    }
    assert ab[|run|..] == a[|run|..] + b;
    LexUnfoldRun(ab);
  }

  /** One step of the scan over a text that starts with a run. */
  lemma LexUnfoldRun(s: string)
    requires s != [] && (IsAlpha(s[0]) || IsNumeric(s[0]))
    ensures Lex(s) == Prepend(Token(Iden, Run(s, IsNumeric(s[0]))), Lex(s[|Run(s, IsNumeric(s[0]))|..]))
  {
  }

  /** A non-empty run of one class followed by a delimiter is one IDEN token. */
  lemma LexRun(w: string, rest: string)
    requires |w| > 0 && forall k :: 0 <= k < |w| ==> InClass(w[k], IsNumeric(w[0]))
    requires rest != [] && IsDelimiter(rest[0])
    ensures Lex(w + rest) == Prepend(Token(Iden, w), Lex(rest))
  {
    LexConcat(w, rest);
    LexSingleRun(w, IsNumeric(w[0]));
  }

  /** `@` and `:` are tokens of their own. */
  lemma LexSymbol(c: char, rest: string)
    requires c == '@' || c == ':'
    ensures Lex([c] + rest) == Prepend(Token(if c == '@' then Sep else Colon, [c]), Lex(rest))
  {
    assert ([c] + rest)[1..] == rest;
  }

  /** Blanks produce no token. */
  lemma LexBlank(c: char, rest: string)
    requires IsBlank(c)
    ensures Lex([c] + rest) == Lex(rest)
  {
    assert ([c] + rest)[1..] == rest;
  }

  /** A non-empty run of one class, alone, is one IDEN token. */
  lemma LexSingleRun(w: string, numeric: bool)
    requires |w| > 0 && forall k :: 0 <= k < |w| ==> InClass(w[k], numeric)
    requires numeric == IsNumeric(w[0])
    ensures Lex(w) == Lexed([Token(Iden, w)], true)
  {
    RunIs(w, w, numeric);
    assert w[|w|..] == [];
  }

  /**
   * Two pieces that each lex to their tokens followed by whatever comes
   * after them lex, one after the other, to both token lists in order.
   */
  lemma LexChain(x: string, y: string, rest: string, tx: seq<Token>, ty: seq<Token>)
    requires Lex(x + (y + rest)) == Lexed(tx + Lex(y + rest).tokens, Lex(y + rest).ok)
    requires Lex(y + rest) == Lexed(ty + Lex(rest).tokens, Lex(rest).ok)
    ensures Lex((x + y) + rest) == Lexed((tx + ty) + Lex(rest).tokens, Lex(rest).ok)
  {
    assert (x + y) + rest == x + (y + rest);
    var t := Lex(rest).tokens;
    assert tx + (ty + t) == (tx + ty) + t;
  }

  /** `simulator::lexer`: the tokens of every scan so far, in order. */
  class Lexer {
    var data: seq<Token>

    constructor ()
      ensures data == []
    {
      data := [];
    }

    /**
     * `lexer::perform(s)`: appends the tokens of s to data and reports
     * whether every character was accepted; on failure the tokens read
     * before the bad character stay appended.
     */
    method Perform(s: string) returns (ok: bool)
      modifies this
      ensures ok == Lex(s).ok
      ensures data == old(data) + Lex(s).tokens
    {
      var i := 0;
      while i < |s|
        invariant 0 <= i <= |s|
        invariant data + Lex(s[i..]).tokens == old(data) + Lex(s).tokens
        invariant Lex(s[i..]).ok == Lex(s).ok
      {
        var j, accepted := Step(s, i);
        if !accepted {
          return false;
        }
        i := j;
      }
      ok := true;
    }

    /**
     * One pass of the loop in `perform`: pushes the token that starts at
     * s[i], if any, and moves past it; refuses a character outside every class.
     */
    method Step(s: string, i: nat) returns (j: nat, accepted: bool)
      requires i < |s|
      modifies this
      ensures accepted <==> Allowed(s[i])
      ensures !accepted ==> data == old(data) && Lex(s[i..]) == Lexed([], false)
      ensures accepted ==> i < j <= |s| && Lex(s[j..]).ok == Lex(s[i..]).ok
      ensures accepted ==> data + Lex(s[j..]).tokens == old(data) + Lex(s[i..]).tokens
    {
      var c := s[i];
      j, accepted := i + 1, true;
      if c == '@' || c == ':' {
        var t := if c == '@' then Token(Sep, "@") else Token(Colon, ":");
        LexAt(s, i);
        AppendShift(data, t, Lex(s[i + 1..]).tokens);
        data := data + [t];
      } else if IsBlank(c) {
        LexAt(s, i);
      } else if IsAlpha(c) || IsNumeric(c) {
        var temp;
        temp, j := ReadRun(s, i, IsNumeric(c));
        LexAtRun(s, i, temp);
        AppendShift(data, Token(Iden, temp), Lex(s[j..]).tokens);
        data := data + [Token(Iden, temp)];
      } else {
        LexAt(s, i);
        accepted := false;
      }
    }
  }

  /** One step of `perform` at a delimiter or a bad character, in terms of the rest of s. */
  lemma LexAt(s: string, i: nat)
    requires i < |s|
    ensures s[i] == '@' ==> Lex(s[i..]) == Prepend(Token(Sep, "@"), Lex(s[i + 1..]))
    ensures s[i] == ':' ==> Lex(s[i..]) == Prepend(Token(Colon, ":"), Lex(s[i + 1..]))
    ensures IsBlank(s[i]) ==> Lex(s[i..]) == Lex(s[i + 1..])
    ensures !Allowed(s[i]) ==> Lex(s[i..]) == Lexed([], false)
  {
    assert s[i..][0] == s[i] && s[i..][1..] == s[i + 1..];
  }

  /** One step of `perform` at the start of a run, in terms of the rest of s. */
  lemma LexAtRun(s: string, i: nat, run: string)
    requires i < |s| && !IsDelimiter(s[i]) && (IsAlpha(s[i]) || IsNumeric(s[i]))
    requires run == Run(s[i..], IsNumeric(s[i]))
    ensures i + |run| <= |s| && Lex(s[i..]) == Prepend(Token(Iden, run), Lex(s[i + |run|..]))
  {
    assert s[i..][|run|..] == s[i + |run|..];
  }

  /** The inner loop of `perform`: appends characters of one class to temp while they last. */
  method ReadRun(s: string, i: nat, numeric: bool) returns (temp: string, j: nat)
    requires i < |s|
    ensures temp == Run(s[i..], numeric) && j == i + |temp| <= |s|
  {
    temp := "";
    j := i;
    while j < |s| && InClass(s[j], numeric)
      invariant i <= j <= |s| && temp == s[i..j]
      invariant forall k :: i <= k < j ==> InClass(s[k], numeric)
    {
      temp := temp + [s[j]];
      j := j + 1;
    }
    RunIs(s[i..], temp, numeric);
  }

  lemma {:induction false} RunIs(s: string, r: string, numeric: bool)
    requires |r| <= |s| && r == s[..|r|]
    requires forall k :: 0 <= k < |r| ==> InClass(r[k], numeric)
    requires |r| < |s| ==> !InClass(s[|r|], numeric)
    ensures Run(s, numeric) == r
  {
    if r != [] {
      RunIs(s[1..], r[1..], numeric);
    }
  }
}

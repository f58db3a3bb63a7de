/**
 * The qubit-count prompt: a text field, a Confirm action that validates the
 * trimmed text as a positive decimal integer, and a Reset action. The count
 * it hands to the page (`setQubits`) is kept as a field, `None` for `null`.
 */
module NQubitInput {
  import opened Wrappers
  import opened Numbers
  import opened Text

  const InvalidMessage: string := "Please enter a valid and positive number."
  const TooSmallMessage: string := "Please enter a number greater than or equal to 1."

  /** A JavaScript number as `parseInt` can return it. */
  datatype ParsedInt = NaN | Finite(value: int) | Infinity(negative: bool)

  /**
   * `parseInt(s, 10)`: leading white space is skipped, then an optional sign
   * and the longest run of decimal digits; no digit gives NaN, and a
   * magnitude a double cannot hold gives an infinity of that sign.
   */
  function ParseInt(s: string): ParsedInt
  {
    ParseSigned(TrimStart(s))
  }

  /** `parseInt` after the white space: an optional sign, then the digits. */
  function ParseSigned(t: string): ParsedInt
  {
    if |t| > 0 && (t[0] == '-' || t[0] == '+') then Magnitude(LeadingDigits(t[1..]), t[0] == '-')
    else Magnitude(LeadingDigits(t), false)
  }

  /** The number a run of digits denotes under a sign: NaN when empty, infinite past the double range. */
  function Magnitude(digits: string, negative: bool): (r: ParsedInt)
    requires AllDigits(digits)
    ensures digits == [] <==> r.NaN?
  {
    if digits == [] then NaN
    else
      var v: int := DigitsValue(digits);
      if v >= DoubleOverflow then Infinity(negative)
      else Finite(if negative then -v else v)
  }

  /** `/^\d+$/.test(t)`: t is non-empty and made of ASCII digits. */
  predicate IsDecimal(t: string)
  {
    |t| > 0 && AllDigits(t)
  }

  /** What Confirm does with the text in the field. */
  datatype Outcome = Ignored | Invalid | TooSmall | Accepted(count: nat)

  /** The outcome of Confirm on trimmed text t, as the branches of the handler decide it. */
  function Judge(t: string): (r: Outcome)
  {
    if t == [] then Ignored
    else if !IsDecimal(t) then Invalid
    else
      match ParseInt(t)
      case Finite(v) => if v < 1 then TooSmall else Accepted(v)
      case _ => TooSmall
  }

  /** The outcome of Confirm on the text s in the field. */
  function Classify(s: string): Outcome
  {
    Judge(Trim(s))
  }

  /** The message shown after an outcome. */
  function Message(o: Outcome): (m: string)
    ensures m == "" <==> o.Ignored? || o.Accepted?
  {
    match o
    case Invalid => InvalidMessage
    case TooSmall => TooSmallMessage
    case _ => ""
  }

  /** The count handed to the page after an outcome, given the one before. */
  function CountAfter(o: Outcome, before: Option<nat>): (q: Option<nat>)
    ensures o.Ignored? ==> q == before
    ensures o.Accepted? ==> q == Some(o.count)
    ensures o.Invalid? || o.TooSmall? ==> q == None
  {
    match o
    case Ignored => before
    case Accepted(n) => Some(n)
    case _ => None
  }

  /** Trimming text whose ends are not white space keeps it. */
  lemma TrimKeeps(s: string)
    requires s != [] && !IsJsWhitespace(s[0]) && !IsJsWhitespace(s[|s| - 1])
    ensures TrimStart(s) == s && Trim(s) == s
  {
    assert TrimStart(s) == s;
  }

  /** `parseInt` of a digit string is its decimal value while a double can hold it. */
  lemma ParseIntOfDigits(t: string)
    requires IsDecimal(t)
    ensures ParseInt(t) == if DigitsValue(t) >= DoubleOverflow then Infinity(false) else Finite(DigitsValue(t))
  {
    assert TrimStart(t) == t by {
      assert IsDigit(t[0]);
    }
    assert ParseSigned(t) == Magnitude(t, false) by {
      assert IsDigit(t[0]);
      AllDigitsLeading(t);
    }
  }

  /**
   * Confirm accepts exactly the texts whose trimmed form is a non-empty run
   * of digits with a value from 1 up to below the double overflow, and hands
   * on that value.
   */
  lemma AcceptedExactly(s: string, n: nat)
    ensures Classify(s) == Accepted(n) <==>
      IsDecimal(Trim(s)) && DigitsValue(Trim(s)) == n && 1 <= n < DoubleOverflow
  {
    if IsDecimal(Trim(s)) {
      ParseIntOfDigits(Trim(s));
    }
  }

  /** Confirm rejects a non-blank text as invalid exactly when it is not all digits. */
  lemma InvalidExactly(s: string)
    ensures Classify(s) == Invalid <==> Trim(s) != [] && !AllDigits(Trim(s))
    ensures Classify(s) == Ignored <==> forall k :: 0 <= k < |s| ==> IsJsWhitespace(s[k])
  {
  }

  /** A rendered positive count is accepted as itself, with any white space around it. */
  lemma {:induction false} AcceptsRendered(n: nat)
    requires 1 <= n < DoubleOverflow
    ensures Classify(NatToString(n)) == Accepted(n)
  {
    var s := NatToString(n);
    TrimKeeps(s);
    DigitsValueOfNatToString(n);
    AcceptedExactly(s, n);
  }

  /** Zero, written with any number of digits, is refused as too small. */
  lemma ZeroTooSmall(t: string)
    requires IsDecimal(t) && forall k :: 0 <= k < |t| ==> t[k] == '0'
    ensures Classify(t) == TooSmall
  {
    TrimKeeps(t);
    ZerosValue(t);
    ParseIntOfDigits(t);
  }

  lemma {:induction false} ZerosValue(t: string)
    requires forall k :: 0 <= k < |t| ==> t[k] == '0'
    ensures AllDigits(t) && DigitsValue(t) == 0
  {
    if t != [] {
      ZerosValue(t[..|t| - 1]);
    }
  }

  /** A leading zero does not change the value: "007" is accepted as 7. */
  lemma {:induction false} LeadingZero(t: string)
    requires AllDigits(t)
    ensures AllDigits("0" + t) && DigitsValue("0" + t) == DigitsValue(t)
  {
    var z := "0" + t;
    if t != [] {
      assert z[..|z| - 1] == "0" + t[..|t| - 1];
      LeadingZero(t[..|t| - 1]);
    } else {
      assert z[..|z| - 1] == [];
    }
  }

  /** Confirm looks only at the trimmed text. */
  lemma ClassifyTrimmed(s: string)
    ensures Classify(Trim(s)) == Classify(s)
  {
    var t := Trim(s);
    if t != [] {
      TrimKeeps(t);
    }
  }

  /** The prompt's state: the text being typed, the message shown, the count set. */
  class QubitInput {
    var tempQ: string
    var error: string
    var qubits: Option<nat>

    /** A message is shown only when the count has been cleared. */
    predicate Valid()
      reads this
    {
      (error == "" || error == InvalidMessage || error == TooSmallMessage)
      && (error != "" ==> qubits == None)
    }

    /** The prompt starts empty, with no message, under the page's current count. */
    constructor(count: Option<nat>)
      ensures tempQ == "" && error == "" && qubits == count
      ensures Valid()
    {
      tempQ := "";
      error := "";
      qubits := count;
    }

    /** `handleChange`: the field takes the typed text and the message is cleared. */
    method HandleChange(v: string)
      requires Valid()
      modifies this
      ensures tempQ == v && error == "" && qubits == old(qubits)
      ensures Valid()
    {
      tempQ := v;
      error := "";
    }

    /** `handleConfirm`: validate the trimmed text and set the message and the count. */
    method HandleConfirm()
      requires Valid()
      modifies this
      ensures tempQ == old(tempQ)
      ensures error == Message(Classify(tempQ))
      ensures qubits == CountAfter(Classify(tempQ), old(qubits))
      ensures Valid()
    {
      var t := Trim(tempQ);
      assert Classify(tempQ) == Judge(t);
      if t == "" {
        error := "";
        return;
      }
      var parsedValue := ParseInt(t);
      if !IsDecimal(t) {
        error := InvalidMessage;
        qubits := None;
      } else {
        ParseIntOfDigits(t);
        if parsedValue.NaN? || (parsedValue.Finite? && parsedValue.value < 1) || parsedValue.Infinity? {
          error := TooSmallMessage;
          qubits := None;
        } else {
          error := "";
          qubits := Some(parsedValue.value);
        }
      }
    }

    /** `handleKeyDown`: Enter confirms; any other key changes nothing. */
    method HandleKeyDown(key: string)
      requires Valid()
      modifies this
      ensures key == "Enter" ==>
        tempQ == old(tempQ) && error == Message(Classify(tempQ)) && qubits == CountAfter(Classify(tempQ), old(qubits))
      ensures key != "Enter" ==> tempQ == old(tempQ) && error == old(error) && qubits == old(qubits)
      ensures Valid()
    {
      if key == "Enter" {
        HandleConfirm();
      }
    }

    /** Reset: the field, the message and the count are all cleared. */
    method Reset()
      modifies this
      ensures tempQ == "" && error == "" && qubits == None
      ensures Valid()
    {
      tempQ := "";
      error := "";
      qubits := None;
    }
  }
}

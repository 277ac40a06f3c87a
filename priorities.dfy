/** The display label of a job priority: a lookup in the five-entry priority
    table, falling back to Python's str() of the stored value. */
module Priorities {
  import opened Options

  predicate IsDigit(c: char) {
    '0' <= c <= '9'
  }

  function Digit(d: nat): (c: char)
    requires d < 10
    ensures IsDigit(c)
  {
    ('0' as int + d) as char
  }

  function DigitValue(c: char): (d: nat)
    requires IsDigit(c)
    ensures d < 10
  {
    c as int - '0' as int
  }

  /** The decimal digits of n, most significant first, without leading zeros. */
  function NatString(n: nat): (s: string)
    ensures |s| > 0 && IsDigit(s[0])
    ensures s[0] == '0' ==> n == 0
    ensures forall i :: 0 <= i < |s| ==> IsDigit(s[i])
    decreases n
  {
    if n < 10 then [Digit(n)] else NatString(n / 10) + [Digit(n % 10)]
  }

  /** Python's str() of an int: a minus sign for negative values, then the digits. */
  function DecimalString(n: int): (s: string)
    ensures |s| > 0 && (s[0] == '-' || IsDigit(s[0]))
    ensures s[0] == '-' <==> n < 0
  {
    if n < 0 then "-" + NatString(-n) else NatString(n)
  }

  /** Reads a non-empty run of decimal digits. */
  function ParseDigits(s: string): Option<nat>
    decreases |s|
  {
    if |s| == 0 || !IsDigit(s[|s| - 1]) then None
    else if |s| == 1 then Some(DigitValue(s[0]))
    else match ParseDigits(s[..|s| - 1])
      case None => None
      case Some(k) => Some(10 * k + DigitValue(s[|s| - 1]))
  }

  /** Reads back an optionally negative decimal numeral. */
  function ParseDecimal(s: string): Option<int> {
    if |s| > 0 && s[0] == '-' then
      match ParseDigits(s[1..])
      case None => None
      case Some(k) => Some(0 - k as int)
    else
      match ParseDigits(s)
      case None => None
      case Some(k) => Some(k as int)
  }

  lemma {:induction false} NatStringRoundTrip(n: nat)
    ensures ParseDigits(NatString(n)) == Some(n)
    decreases n
  {
    if n >= 10 {
      var s := NatString(n);
      assert s == NatString(n / 10) + [Digit(n % 10)];
      assert s[..|s| - 1] == NatString(n / 10);
      NatStringRoundTrip(n / 10);
    }
  }

  /** str() of an int can be read back to the same int. */
  lemma {:induction false} DecimalRoundTrip(n: int)
    ensures ParseDecimal(DecimalString(n)) == Some(n)
  {
    var s := DecimalString(n);
    if n < 0 {
      assert s[1..] == NatString(-n);
      NatStringRoundTrip(-n);
    } else {
      NatStringRoundTrip(n);
    }
  }

  /** The table JOB_PRIORITY. */
  const JobPriority: map<int, string> :=
    map[-2 := "VERY LOW", -1 := "LOW", 0 := "NORMAL", 1 := "HIGH", 2 := "VERY HIGH"]

  /** Python's str() of a stored priority: "None" for a missing one. */
  function Str(p: Option<int>): string {
    match p
    case None => "None"
    case Some(n) => DecimalString(n)
  }

  /** The `priority` property: the table's label when the stored value is a
      key of the table, else str() of the stored value; it is total. */
  function PriorityLabel(p: Option<int>): (shown: string)
    ensures p == Some(-2) ==> shown == "VERY LOW"
    ensures p == Some(-1) ==> shown == "LOW"
    ensures p == Some(0) ==> shown == "NORMAL"
    ensures p == Some(1) ==> shown == "HIGH"
    ensures p == Some(2) ==> shown == "VERY HIGH"
    ensures p == None ==> shown == "None"
    ensures p.Some? && (p.value < -2 || 2 < p.value) ==> shown == DecimalString(p.value)
  {
    if p.Some? && p.value in JobPriority then JobPriority[p.value] else Str(p)
  }

  /** Reads a label back to the stored priority it was produced from;
      None for a string that no priority displays as. */
  function ParsePriorityLabel(shown: string): Option<Option<int>> {
    if shown == "VERY LOW" then Some(Some(-2))
    else if shown == "LOW" then Some(Some(-1))
    else if shown == "NORMAL" then Some(Some(0))
    else if shown == "HIGH" then Some(Some(1))
    else if shown == "VERY HIGH" then Some(Some(2))
    else if shown == "None" then Some(None)
    else match ParseDecimal(shown)
      case None => None
      case Some(n) => if -2 <= n <= 2 then None else Some(Some(n))
  }

  /** Every label reads back to the priority that produced it, so the label
      never loses information about the stored value. */
  lemma PriorityLabelRoundTrip(p: Option<int>)
    ensures ParsePriorityLabel(PriorityLabel(p)) == Some(p)
  {
    if p.Some? && !(-2 <= p.value <= 2) {
      var s := DecimalString(p.value);
      assert s[0] != 'V' && s[0] != 'L' && s[0] != 'N' && s[0] != 'H';
      assert "VERY LOW"[0] == 'V' && "LOW"[0] == 'L' && "NORMAL"[0] == 'N';
      assert "HIGH"[0] == 'H' && "VERY HIGH"[0] == 'V' && "None"[0] == 'N';
      DecimalRoundTrip(p.value);
    }
  }

  /** Distinct stored priorities are displayed by distinct labels. */
  lemma PriorityLabelInjective(p: Option<int>, q: Option<int>)
    requires PriorityLabel(p) == PriorityLabel(q)
    ensures p == q
  {
    PriorityLabelRoundTrip(p);
    PriorityLabelRoundTrip(q);
  }
}

/**
 * Offer labels of the form "offer_" + str(i), built when the portfolio is loaded
 * (Data/process_data.py) and again when recommendations are listed
 * (Data/recommendation.py).
 */
module OfferLabels {

  import opened Wrappers

  const Prefix: string := "offer_"

  predicate IsDigit(c: char) {
    '0' <= c <= '9'
  }

  function DigitChar(d: nat): (c: char)
    requires d < 10
    ensures IsDigit(c)
  {
    ('0' as int + d) as char
  }

  function DigitValue(c: char): (d: nat)
    requires IsDigit(c)
    ensures d < 10
  {
    c as int - '0' as int
  }

  /** Python's str(n) for a non-negative integer: decimal digits, most significant first. */
  function Decimal(n: nat): (s: string)
    ensures |s| >= 1
    ensures forall i :: 0 <= i < |s| ==> IsDigit(s[i])
    ensures s[0] == '0' ==> n == 0   // no leading zeros
    decreases n
  {
    if n < 10 then [DigitChar(n)] else Decimal(n / 10) + [DigitChar(n % 10)]
  }

  /** Reads a string of decimal digits back as a number (Python's int(s)). */
  function ParseDecimal(s: string): nat
    requires forall i :: 0 <= i < |s| ==> IsDigit(s[i])
    decreases |s|
  {
    if |s| == 0 then 0 else ParseDecimal(s[..|s| - 1]) * 10 + DigitValue(s[|s| - 1])
  }

  lemma {:induction false} ParseDecimalInverts(n: nat)
    ensures ParseDecimal(Decimal(n)) == n
    decreases n
  {
    if n >= 10 {
      var s := Decimal(n);
      ParseDecimalInverts(n / 10);
      assert s[..|s| - 1] == Decimal(n / 10);
    }
  }

  lemma DecimalInjective(m: nat, n: nat)
    ensures Decimal(m) == Decimal(n) <==> m == n
  {
    ParseDecimalInverts(m);
    ParseDecimalInverts(n);
  }

  /** The label "offer_" + str(i) of the offer at position i. */
  function OfferLabel(i: nat): (s: string)
    ensures |s| > |Prefix| && s[..|Prefix|] == Prefix
  {
    Prefix + Decimal(i)
  }

  /** Recovers the position from a label; None for strings that are not labels. */
  function OfferIndex(s: string): (r: Option<nat>)
  {
    if |s| > |Prefix| && s[..|Prefix|] == Prefix
       && (forall i :: |Prefix| <= i < |s| ==> IsDigit(s[i]))
       && (s[|Prefix|] == '0' ==> |s| == |Prefix| + 1)
    then Some(ParseDecimal(s[|Prefix|..]))
    else None
  }

  lemma OfferIndexInverts(i: nat)
    ensures OfferIndex(OfferLabel(i)) == Some(i)
  {
    var s := OfferLabel(i);
    assert s[|Prefix|..] == Decimal(i);
    ParseDecimalInverts(i);
    if s[|Prefix|] == '0' {
      assert Decimal(i)[0] == '0';
    }
  }

  /** Two offers get the same label exactly when they are the same offer. */
  lemma OfferLabelInjective(i: nat, j: nat)
    ensures OfferLabel(i) == OfferLabel(j) <==> i == j
  {
    OfferIndexInverts(i);
    OfferIndexInverts(j);
  }
}

/**
 * Document numbers: `INV-`/`EST-` followed by the per-type counter,
 * left-padded with '0' to at least three digits.
 */
module Numbering {
  import opened Wrappers
  import opened Text
  import opened Kinds

  function Prefix(t: DocType): string
  {
    if t == Estimate then "EST-" else "INV-"
  }

  /** `${prefix}${String(counter).padStart(3, '0')}` */
  function DocNumber(t: DocType, counter: nat): string
  {
    Prefix(t) + PadStart(Decimal(counter), 3, '0')
  }

  /**
   * A number is its series' prefix followed by digits only: at least three,
   * and exactly three while the counter is below 1000.
   */
  lemma DocNumberShape(t: DocType, counter: nat)
    ensures var r := DocNumber(t, counter);
      && |r| == 4 + (if |Decimal(counter)| >= 3 then |Decimal(counter)| else 3)
      && (counter < 1000 ==> |r| == 7)
      && r[..4] == (if t == Estimate then "EST-" else "INV-")
      && AllDigits(r[4..])
  {
    var digits := Decimal(counter);
    var r := DocNumber(t, counter);
    DecimalSpec(counter);
    PadStartSpec(digits, 3, '0');
    assert r[4..] == PadStart(digits, 3, '0');
    DecimalLength(counter);
  }

  /** Four or more digits only from 1000 on. */
  lemma {:induction false} DecimalLength(n: nat)
    ensures n < 1000 ==> |Decimal(n)| <= 3
  {
    if n >= 10 {
      DecimalLength(n / 10);
      assert |Decimal(n)| == |Decimal(n / 10)| + 1;
      if n < 1000 {
        assert n / 10 < 100;
        if n / 10 >= 10 {
          DecimalLength(n / 100);
          assert n / 10 / 10 == n / 100;
        }
      }
    }
  }

  /** The number the editor proposes for a document of type `t`. */
  function NextNumber(t: DocType, nextInvoiceNum: nat, nextEstimateNum: nat): string
  {
    DocNumber(t, if t == Estimate then nextEstimateNum else nextInvoiceNum)
  }

  /** The proposed number reads back as the type's series and that series' counter. */
  lemma NextNumberParses(t: DocType, nextInvoiceNum: nat, nextEstimateNum: nat)
    ensures ParseDocNumber(NextNumber(t, nextInvoiceNum, nextEstimateNum))
      == Some((t, if t == Estimate then nextEstimateNum else nextInvoiceNum))
  {
    DocNumberRoundTrip(t, if t == Estimate then nextEstimateNum else nextInvoiceNum);
  }

  /** Reads a document number back into its series and counter. */
  function ParseDocNumber(s: string): Option<(DocType, nat)>
  {
    if |s| < 4 || !AllDigits(s[4..]) then None
    else if s[..4] == "INV-" then Some((Invoice, ParseDecimal(s[4..])))
    else if s[..4] == "EST-" then Some((Estimate, ParseDecimal(s[4..])))
    else None
  }

  /** Every generated number reads back as its own series and counter. */
  lemma {:induction false} DocNumberRoundTrip(t: DocType, counter: nat)
    ensures ParseDocNumber(DocNumber(t, counter)) == Some((t, counter))
  {
    var digits := Decimal(counter);
    var padded := PadStart(digits, 3, '0');
    var r := DocNumber(t, counter);
    DecimalSpec(counter);
    PaddedReadsBack(digits);
    assert r[4..] == padded;
    assert r[..4] == Prefix(t);
  }

  /** Zero-padding a digit string keeps it digits only and keeps its value. */
  lemma PaddedReadsBack(digits: string)
    requires AllDigits(digits)
    ensures AllDigits(PadStart(digits, 3, '0'))
    ensures ParseDecimal(PadStart(digits, 3, '0')) == ParseDecimal(digits)
  {
    if |digits| < 3 {
      ParseIgnoresLeadingZeros(3 - |digits|, digits);
    }
  }

  /** Distinct (series, counter) pairs never share a number. */
  lemma DocNumberInjective(t1: DocType, c1: nat, t2: DocType, c2: nat)
    requires DocNumber(t1, c1) == DocNumber(t2, c2)
    ensures t1 == t2 && c1 == c2
  {
    DocNumberRoundTrip(t1, c1);
    DocNumberRoundTrip(t2, c2);
  }
}

/** The Zakat calculator: the four amounts a user enters and the Zakat due
  * on them, 2.5% of the net worth once it reaches the Nisab threshold. */
module Zakat {
  import opened Wrappers
  import opened Text

  const NISAB_THRESHOLD: real := 5000.0
  const ZAKAT_RATE: real := 0.025

  datatype Assets = Assets(savings: real, gold: real, investments: real, liabilities: real)

  datatype Field = Savings | Gold | Investments | Liabilities

  function Total(a: Assets): real
  {
    a.savings + a.gold + a.investments
  }

  /** `Math.max(0, total - liabilities)`. */
  function NetWorth(a: Assets): (r: real)
    ensures r >= 0.0 && r >= Total(a) - a.liabilities
    ensures r == 0.0 || r == Total(a) - a.liabilities
  {
    if Total(a) - a.liabilities > 0.0 then Total(a) - a.liabilities else 0.0
  }

  /** The Zakat due on a net worth: nothing below the threshold, the rate
    * applied to the whole net worth from the threshold on. */
  function ZakatDue(net: real): (r: real)
    requires net >= 0.0
    ensures net < NISAB_THRESHOLD ==> r == 0.0
    ensures net >= NISAB_THRESHOLD ==> r == net * ZAKAT_RATE && r >= NISAB_THRESHOLD * ZAKAT_RATE
    ensures 0.0 <= r <= net
  {
    if net >= NISAB_THRESHOLD then net * ZAKAT_RATE else 0.0
  }

  /** More wealth never means less Zakat. */
  lemma ZakatDueMonotone(n1: real, n2: real)
    requires 0.0 <= n1 <= n2
    ensures ZakatDue(n1) <= ZakatDue(n2)
  {
  }

  /** Crossing the threshold makes the due amount jump from nothing to the
    * rate on the threshold, so it is not continuous there. */
  lemma ZakatDueJumpsAtThreshold(net: real)
    requires 0.0 <= net < NISAB_THRESHOLD
    ensures ZakatDue(net) == 0.0 && ZakatDue(NISAB_THRESHOLD) == 125.0
  {
  }

  /** Liabilities at least as large as the assets leave nothing due. */
  lemma DebtsCancelZakat(a: Assets)
    requires a.liabilities >= Total(a)
    ensures ZakatDue(NetWorth(a)) == 0.0
  {
  }

  // ---------------------------------------------------------------------
  // Input parsing

  function Pow10(n: nat): (r: nat)
    ensures r >= 1
  {
    if n == 0 then 1 else 10 * Pow10(n - 1)
  }

  /** The value of decimal fraction digits. */
  function Fraction(digits: string): (r: real)
    requires AllDigits(digits)
    ensures 0.0 <= r
  {
    DigitsValue(digits) as real / Pow10(|digits|) as real
  }

  /** `parseFloat(value) || 0` on unsigned decimal text: the digits before a
    * point and the digits after it; with no digits at all the value is NaN,
    * which becomes 0. */
  function ParseAmount(value: string): (r: real)
    ensures r >= 0.0
  {
    var whole := LeadingDigits(value);
    var rest := value[|whole|..];
    var frac := if rest != [] && rest[0] == '.' then LeadingDigits(rest[1..]) else "";
    if whole == "" && frac == "" then 0.0 else DigitsValue(whole) as real + Fraction(frac)
  }

  /** A whole number typed as its decimal digits reads back as itself. */
  lemma ParseAmountOfNat(n: nat)
    ensures ParseAmount(NatToString(n)) == n as real
  {
    var s := NatToString(n);
    LeadingDigitsOfDigits(s);
    assert s[|s|..] == [];
    assert Fraction("") == 0.0;
    assert ParseAmount(s) == DigitsValue(s) as real;
    NatToStringRoundTrip(n);
  }

  /** `whole.frac` reads as the whole part plus the fraction. */
  lemma ParseAmountOfDecimal(whole: string, frac: string)
    requires AllDigits(whole) && AllDigits(frac)
    ensures ParseAmount(whole + "." + frac) == DigitsValue(whole) as real + Fraction(frac)
  {
    var s := whole + "." + frac;
    var tail := "." + frac;
    assert s == whole + tail;
    LeadingDigitsOfWord(whole, tail);
    var rest := s[|whole|..];
    assert rest == tail;
    assert rest != [] && rest[0] == '.';
    assert rest[1..] == frac;
    LeadingDigitsOfDigits(frac);
    if whole == "" && frac == "" {
      assert Fraction(frac) == 0.0;
    }
  }

  /** Text with no number at its front, neither a digit nor a point and a
    * digit, parses to NaN, which `|| 0` stores as 0. */
  lemma ParseAmountOfNonNumber(value: string)
    requires value == [] || !IsDigit(value[0])
    requires |value| >= 2 && value[0] == '.' ==> !IsDigit(value[1])
    ensures ParseAmount(value) == 0.0
  {
    assert LeadingDigits(value) == "";
    assert value[0..] == value;
    if value != [] && value[0] == '.' && |value| >= 2 {
      assert LeadingDigits(value[1..]) == "";
    }
  }

  /** The digits at the front stop at the first non-digit. */
  lemma {:induction false} LeadingDigitsOfWord(d: string, rest: string)
    requires AllDigits(d) && rest != [] && !IsDigit(rest[0])
    ensures LeadingDigits(d + rest) == d
  {
    if d != [] {
      assert (d + rest)[1..] == d[1..] + rest;
      LeadingDigitsOfWord(d[1..], rest);
    }
  }

  function WithField(a: Assets, field: Field, v: real): Assets
  {
    match field
    case Savings => a.(savings := v)
    case Gold => a.(gold := v)
    case Investments => a.(investments := v)
    case Liabilities => a.(liabilities := v)
  }

  function FieldValue(a: Assets, field: Field): real
  {
    match field
    case Savings => a.savings
    case Gold => a.gold
    case Investments => a.investments
    case Liabilities => a.liabilities
  }

  /** Setting a field changes that field only. */
  lemma WithFieldChangesOnlyIt(a: Assets, field: Field, v: real, other: Field)
    ensures FieldValue(WithField(a, field, v), field) == v
    ensures other != field ==> FieldValue(WithField(a, field, v), other) == FieldValue(a, other)
  {
  }

  // ---------------------------------------------------------------------
  // The form

  class ZakatForm {
    var assets: Assets
    var result: Option<real>

    constructor ()
      ensures assets == Assets(0.0, 0.0, 0.0, 0.0) && result == None
    {
      assets := Assets(0.0, 0.0, 0.0, 0.0);
      result := None;
    }

    /** `handleInputChange`: the typed text goes into one field and the shown
      * result is cleared. */
    method InputChange(field: Field, value: string)
      modifies this
      ensures assets == WithField(old(assets), field, ParseAmount(value))
      ensures result == None
    {
      assets := WithField(assets, field, ParseAmount(value));
      result := None;
    }

    /** `calculateZakat`. */
    method Calculate()
      modifies this`result
      ensures result == Some(ZakatDue(NetWorth(assets)))
    {
      var totalAssets := assets.savings + assets.gold + assets.investments;
      var netWorth := if totalAssets - assets.liabilities > 0.0 then totalAssets - assets.liabilities else 0.0;
      if netWorth >= NISAB_THRESHOLD {
        result := Some(netWorth * ZAKAT_RATE);
      } else {
        result := Some(0.0);
      }
    }
  }
}

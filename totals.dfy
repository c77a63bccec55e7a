/**
 * Line items and the totals calculator (`calcTotals`). Money is exact
 * (`real`): the app rounds only when it formats a figure for display.
 */
module Totals {
  import opened Wrappers

  /** A line item; a missing or null `qty`/`rate` is `None`. */
  datatype Item = Item(desc: string, qty: Option<real>, rate: Option<real>)

  /** The item the "add line item" button appends and the resets install. */
  const Blank: Item := Item("", Some(1.0), Some(0.0))

  /** `x || 0` on a number that may be missing. */
  function OrZero(x: Option<real>): real
  {
    if x.Some? then x.value else 0.0
  }

  function Amount(it: Item): real
  {
    OrZero(it.qty) * OrZero(it.rate)
  }

  /** Sum of `qty * rate` over the items. */
  function Subtotal(items: seq<Item>): real
  {
    if items == [] then 0.0 else Amount(items[0]) + Subtotal(items[1..])
  }

  lemma {:induction false} SubtotalConcat(a: seq<Item>, b: seq<Item>)
    ensures Subtotal(a + b) == Subtotal(a) + Subtotal(b)
  {
    if a == [] {
      assert a + b == b;
    } else {
      assert (a + b)[1..] == a[1..] + b;
      SubtotalConcat(a[1..], b);
    }
  }

  /** One more item adds exactly its amount (the accumulation step of `calcTotals`). */
  lemma {:induction false} SubtotalAppend(items: seq<Item>, it: Item)
    ensures Subtotal(items + [it]) == Subtotal(items) + Amount(it)
  {
    SubtotalConcat(items, [it]);
    assert [it][1..] == [];
  }

  /** Appending the blank item (qty 1, rate 0) leaves the subtotal as it was. */
  lemma {:induction false} BlankAddsNothing(items: seq<Item>)
    ensures Subtotal(items + [Blank]) == Subtotal(items)
  {
    SubtotalAppend(items, Blank);
  }

  /** Splicing item `i` out lowers the subtotal by exactly that item's amount. */
  lemma {:induction false} SubtotalRemove(items: seq<Item>, i: nat)
    requires i < |items|
    ensures Subtotal(items[..i] + items[i + 1..]) == Subtotal(items) - Amount(items[i])
  {
    assert items == items[..i] + ([items[i]] + items[i + 1..]);
    SubtotalConcat(items[..i], [items[i]] + items[i + 1..]);
    SubtotalConcat(items[..i], items[i + 1..]);
    assert ([items[i]] + items[i + 1..])[1..] == items[i + 1..];
  }

  /** With non-negative quantities and rates the subtotal is non-negative. */
  lemma {:induction false} SubtotalNonNegative(items: seq<Item>)
    requires forall i :: 0 <= i < |items| ==> OrZero(items[i].qty) >= 0.0 && OrZero(items[i].rate) >= 0.0
    ensures Subtotal(items) >= 0.0
  {
    if items != [] {
      SubtotalNonNegative(items[1..]);
    }
  }

  datatype Totals = Totals(sub: real, disc: real, afterDisc: real, tax: real, total: real)

  /**
   * The figures `calcTotals` returns. The discount is taken from the
   * subtotal and the tax from what remains, so the total is the subtotal
   * scaled by both rates.
   */
  function TotalsOf(items: seq<Item>, taxRate: Option<real>, discountRate: Option<real>): (t: Totals)
    ensures t.sub == Subtotal(items)
    ensures t.disc == t.sub * OrZero(discountRate) / 100.0 && t.afterDisc == t.sub - t.disc
    ensures t.tax == t.afterDisc * OrZero(taxRate) / 100.0 && t.total == t.afterDisc + t.tax
  {
    var sub := Subtotal(items);
    var disc := sub * OrZero(discountRate) / 100.0;
    var afterDisc := sub - disc;
    var tax := afterDisc * OrZero(taxRate) / 100.0;
    Totals(sub, disc, afterDisc, tax, afterDisc + tax)
  }

  /** The total is the subtotal scaled by both rates, discount first. */
  lemma {:induction false} TotalClosedForm(items: seq<Item>, taxRate: Option<real>, discountRate: Option<real>)
    ensures TotalsOf(items, taxRate, discountRate).total
      == Subtotal(items) * (1.0 - OrZero(discountRate) / 100.0) * (1.0 + OrZero(taxRate) / 100.0)
  {
    ClosedForm(Subtotal(items), OrZero(discountRate), OrZero(taxRate), TotalsOf(items, taxRate, discountRate));
  }

  lemma ClosedForm(sub: real, d: real, x: real, t: Totals)
    requires t.afterDisc == sub - sub * d / 100.0
    requires t.total == t.afterDisc + t.afterDisc * x / 100.0
    ensures t.total == sub * (1.0 - d / 100.0) * (1.0 + x / 100.0)
  {
    ScaleDown(sub, d);
    ScaleUp(t.afterDisc, x);
  }

  /** Taking `k` percent of `a` off `a` scales it by `1 - k/100`. */
  lemma ScaleDown(a: real, k: real)
    ensures a - a * k / 100.0 == a * (1.0 - k / 100.0)
  {
  }

  /** Adding `k` percent of `a` to `a` scales it by `1 + k/100`. */
  lemma ScaleUp(a: real, k: real)
    ensures a + a * k / 100.0 == a * (1.0 + k / 100.0)
  {
  }

  /** Non-negative amounts, a discount of at most 100% and a tax above -100% give a non-negative total. */
  lemma {:induction false} TotalNonNegative(items: seq<Item>, taxRate: Option<real>, discountRate: Option<real>)
    requires forall i :: 0 <= i < |items| ==> OrZero(items[i].qty) >= 0.0 && OrZero(items[i].rate) >= 0.0
    requires 0.0 <= OrZero(discountRate) <= 100.0 && OrZero(taxRate) >= -100.0
    ensures TotalsOf(items, taxRate, discountRate).total >= 0.0
  {
    SubtotalNonNegative(items);
    TotalClosedForm(items, taxRate, discountRate);
    var sub := Subtotal(items);
    var a := 1.0 - OrZero(discountRate) / 100.0;
    var b := 1.0 + OrZero(taxRate) / 100.0;
    assert a >= 0.0 && b >= 0.0;
    MulNonNegative(sub, a);
    MulNonNegative(sub * a, b);
  }

  lemma MulNonNegative(x: real, y: real)
    requires x >= 0.0 && y >= 0.0
    ensures x * y >= 0.0
  {
  }

  /** `calcTotals`: the subtotal pass, then the discount and the tax. */
  method CalcTotals(items: seq<Item>, taxRate: Option<real>, discountRate: Option<real>) returns (t: Totals)
    ensures t == TotalsOf(items, taxRate, discountRate)
  {
    var sub := SumAmounts(items);
    var disc := sub * OrZero(discountRate) / 100.0;
    var afterDisc := sub - disc;
    var tax := afterDisc * OrZero(taxRate) / 100.0;
    t := Totals(sub, disc, afterDisc, tax, afterDisc + tax);
  }

  /** `calcTotals`' `forEach`: one left-to-right pass accumulating `qty * rate`. */
  method SumAmounts(items: seq<Item>) returns (sub: real)
    ensures sub == Subtotal(items)
  {
    sub := 0.0;
    for i := 0 to |items|
      invariant sub == Subtotal(items[..i])
    {
      SubtotalAppend(items[..i], items[i]);
      assert items[..i + 1] == items[..i] + [items[i]];
      sub := sub + OrZero(items[i].qty) * OrZero(items[i].rate);
    }
    assert items[..|items|] == items;
  }
}

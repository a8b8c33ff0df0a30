/** The invoice tax calculator in its two variants: the edit form's
    (`calculateInvoice` in Record/page.tsx) over the always-finite numbers
    of its draft, and the entry form's (`calculateInvoice` in
    Invoice/page.tsx) over cells that may hold NaN. Amounts are exact
    reals; the doubles of the source only approximate them. */
module InvoiceTax {
  import opened Common

  /** The derived amounts of an invoice. */
  datatype Totals<N> = Totals(
    totalWithoutGst: N,
    totalWithGst: N,
    cgst: N,
    sgst: N,
    paidAmount: N,
    remainingAmount: N)

  const Paid: string := "Paid"

  /** The GST rates each form offers in its select control. */
  const EditGstRates: set<real> := {0.0, 1.0, 5.0, 12.0, 18.0, 28.0, 35.0}
  const EntryGstRates: set<real> := {0.0, 5.0, 12.0, 18.0, 28.0}

  /** The edit form's calculator: the discount comes off the amount, GST is
      charged on the rest and split evenly into CGST and SGST, and a paid
      invoice has nothing remaining. */
  function EditTotals(amount: real, discount: real, gstRate: real, status: string): (t: Totals<real>)
    ensures t.totalWithoutGst == amount * (1.0 - discount / 100.0)
    ensures t.totalWithGst == t.totalWithoutGst * (1.0 + gstRate / 100.0)
    ensures t.cgst == t.sgst && t.cgst + t.sgst == t.totalWithGst - t.totalWithoutGst
    ensures t.paidAmount == (if status == Paid then t.totalWithGst else 0.0)
    ensures t.remainingAmount == t.totalWithGst - t.paidAmount
    ensures t.remainingAmount == (if status == Paid then 0.0 else t.totalWithGst)
  {
    var originalAmount := amount;
    var discountAmount := (originalAmount * discount) / 100.0;
    var finalAmount := originalAmount - discountAmount;
    var gst := (finalAmount * gstRate) / 100.0;
    var totalWithGst := finalAmount + gst;
    var paidAmount := if status == Paid then totalWithGst else 0.0;
    Totals(finalAmount, totalWithGst, gst / 2.0, gst / 2.0, paidAmount, totalWithGst - paidAmount)
  }

  /** For an amount that is not negative, a discount between 0 and 100
      percent and a rate that is not negative, the discount never raises
      the amount, GST never lowers it, and what remains lies between 0 and
      the grand total. */
  lemma EditTotalsBounds(amount: real, discount: real, gstRate: real, status: string)
    requires amount >= 0.0 && 0.0 <= discount <= 100.0 && gstRate >= 0.0
    ensures var t := EditTotals(amount, discount, gstRate, status);
      && 0.0 <= t.totalWithoutGst <= amount
      && t.totalWithGst >= t.totalWithoutGst
      && 0.0 <= t.remainingAmount <= t.totalWithGst
  {
    var t := EditTotals(amount, discount, gstRate, status);
    var keep := 1.0 - discount / 100.0;
    assert 0.0 <= keep <= 1.0;
    MulBetween(amount, keep);
    MulAtLeast(t.totalWithoutGst, 1.0 + gstRate / 100.0);
  }

  lemma MulBetween(x: real, k: real)
    requires x >= 0.0 && 0.0 <= k <= 1.0
    ensures 0.0 <= x * k <= x
  {
    assert x * k <= x * 1.0 by {
      assert x * (1.0 - k) >= 0.0;
    }
  }

  lemma MulAtLeast(x: real, k: real)
    requires x >= 0.0 && k >= 1.0
    ensures x * k >= x
  {
    assert x * (k - 1.0) >= 0.0;
  }

  /** The entry form's calculator, step by step in its own order of
      operations; a NaN cell makes NaN of everything computed from it. */
  function EntryTotals(amount: Num, discount: Num, gstRate: Num, status: string): (t: Totals<Num>)
    ensures t.cgst == t.sgst
    ensures t.paidAmount == (if status == Paid then t.totalWithGst else Fin(0.0))
    ensures t.remainingAmount == t.totalWithGst
  {
    var originalAmount := amount;
    var discountAmount := Mul(originalAmount, DivBy(discount, 100.0));
    var finalAmount := Sub(originalAmount, discountAmount);
    var gst := Mul(finalAmount, DivBy(gstRate, 100.0));
    var cgst := DivBy(gst, 2.0);
    var sgst := DivBy(gst, 2.0);
    // `totalWithGst = totalWithGst` in the Paid branch leaves the total as it is
    var totalWithGst := Add(finalAmount, gst);
    var paidAmount := if status == Paid then totalWithGst else Fin(0.0);
    Totals(finalAmount, totalWithGst, cgst, sgst, paidAmount, totalWithGst)
  }

  /** On finite cells the entry form's calculator follows the same algebra
      as the edit form's, and its grand total does not depend on the status. */
  lemma EntryTotalsFinite(amount: real, discount: real, gstRate: real, status: string)
    ensures var t := EntryTotals(Fin(amount), Fin(discount), Fin(gstRate), status);
      && t.totalWithoutGst == Fin(amount * (1.0 - discount / 100.0))
      && t.totalWithGst == Fin(t.totalWithoutGst.v * (1.0 + gstRate / 100.0))
      && t.cgst == t.sgst == Fin((t.totalWithGst.v - t.totalWithoutGst.v) / 2.0)
      && t.totalWithGst == EntryTotals(Fin(amount), Fin(discount), Fin(gstRate), "Unpaid").totalWithGst
  {
  }

  /** A NaN cell: a NaN amount or discount spoils every amount, a NaN rate
      spoils everything but the total before tax; an unpaid invoice still
      reports 0 paid. */
  lemma EntryTotalsNaN(amount: Num, discount: Num, gstRate: Num, status: string)
    requires amount.NaN? || discount.NaN? || gstRate.NaN?
    ensures var t := EntryTotals(amount, discount, gstRate, status);
      && (t.totalWithoutGst.NaN? <==> amount.NaN? || discount.NaN?)
      && t.totalWithGst.NaN? && t.cgst.NaN? && t.sgst.NaN? && t.remainingAmount.NaN?
      && (t.paidAmount.NaN? <==> status == Paid)
  {
  }

  /** The two variants on the same finite inputs: they agree on every
      amount but the remaining one, which they agree on exactly when the
      invoice is not paid or its grand total is 0. */
  lemma VariantsCompared(amount: real, discount: real, gstRate: real, status: string)
    ensures var e := EntryTotals(Fin(amount), Fin(discount), Fin(gstRate), status);
      var r := EditTotals(amount, discount, gstRate, status);
      && e.totalWithoutGst == Fin(r.totalWithoutGst)
      && e.totalWithGst == Fin(r.totalWithGst)
      && e.cgst == Fin(r.cgst) && e.sgst == Fin(r.sgst)
      && e.paidAmount == Fin(r.paidAmount)
      && (e.remainingAmount == Fin(r.remainingAmount) <==> status != Paid || r.totalWithGst == 0.0)
  {
    var e := EntryTotals(Fin(amount), Fin(discount), Fin(gstRate), status);
    var r := EditTotals(amount, discount, gstRate, status);
    assert e.totalWithoutGst == Fin(r.totalWithoutGst);
    assert e.totalWithGst == Fin(r.totalWithGst);
  }

  /** The worked examples: 1000 at 10% off and 18% GST, and nothing at all. */
  lemma EditTotalsExample()
    ensures EditTotals(1000.0, 10.0, 18.0, "Unpaid")
         == Totals(900.0, 1062.0, 81.0, 81.0, 0.0, 1062.0)
    ensures EditTotals(1000.0, 10.0, 18.0, Paid).remainingAmount == 0.0
    ensures EntryTotals(Fin(1000.0), Fin(10.0), Fin(18.0), Paid).remainingAmount == Fin(1062.0)
    ensures EditTotals(0.0, 0.0, 0.0, "Unpaid") == Totals(0.0, 0.0, 0.0, 0.0, 0.0, 0.0)
  {
  }
}

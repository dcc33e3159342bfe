/** The amount shown on a statement row and on a bill card (components/CompactRow.tsx,
    components/BillCard.tsx). */
module Statement {
  import opened Types
  import opened Helpers

  /** A statement row: a bill, or a payment with the name of its payment method. */
  datatype StatementItem = BillItem(bill: Bill) | PaymentItem(payment: Payment, methodName: string)

  /** The amount a row displays: a bill's net amount, a payment's amount. A bill card shows
      the same net amount. */
  function RowAmount(item: StatementItem): (r: int)
    ensures item.BillItem? ==> r == VendorBilled([item.bill], item.bill.vendorId)
    ensures item.PaymentItem? ==> r == VendorPaid([item.payment], item.payment.vendorId)
  {
    match item
    case BillItem(b) =>
      SingleBillBilled(b);
      NetAmount(b)
    case PaymentItem(p, _) =>
      SinglePaymentPaid(p);
      p.amount
  }

  /** The amount a row shows is exactly what its record moves in its vendor's summary when the
      record joins the ledger: a payment's row amount is added to `paid`, an approved or
      payment-processed bill's to `outstanding`, a submitted bill's to `pendingApproval`. */
  lemma RowAmountIsSummaryChange(bills: seq<Bill>, payments: seq<Payment>, item: StatementItem)
    ensures item.PaymentItem? ==>
      var v := item.payment.vendorId;
      GetVendorSummary(bills, payments + [item.payment], v).paid
        == GetVendorSummary(bills, payments, v).paid + RowAmount(item)
    ensures item.BillItem? && item.bill.status in ApprovedStatuses ==>
      var v := item.bill.vendorId;
      GetVendorSummary(bills + [item.bill], payments, v).outstanding
        == GetVendorSummary(bills, payments, v).outstanding + RowAmount(item)
    ensures item.BillItem? && item.bill.status in PendingStatuses ==>
      var v := item.bill.vendorId;
      GetVendorSummary(bills + [item.bill], payments, v).pendingApproval
        == GetVendorSummary(bills, payments, v).pendingApproval + RowAmount(item)
  {
    match item
    case BillItem(b) => AddBill(bills, payments, b, b.vendorId);
    case PaymentItem(p, _) => AddPayment(bills, payments, p, p.vendorId);
  }
}

/** The ledger aggregation and currency prefix of lib/helpers.ts. */
module Helpers {
  import opened Types
  import opened Folds

  /** The amount a bill contributes to every total: its amount less its discount. Nothing
      keeps the discount below the amount, so a net amount may be negative. */
  function NetAmount(b: Bill): (r: int)
    ensures r <= b.amount <==> b.discount >= 0
    ensures 0 <= b.discount <= b.amount ==> 0 <= r <= b.amount
  {
    b.amount - b.discount
  }

  function PaymentAmount(p: Payment): int {
    p.amount
  }

  /** Statuses whose bills count toward the approved total, and so toward outstanding. */
  const ApprovedStatuses: set<Status> := {Approved, PaymentProcessed}
  /** Statuses whose bills count toward pending approval. */
  const PendingStatuses: set<Status> := {Submitted}

  // Reference definitions: each total as one direct recursive sum, with no filtering step.

  /** The payment amounts to `vendorId`; a payment to another vendor adds 0. */
  function VendorPaid(payments: seq<Payment>, vendorId: Id): int
    decreases |payments|
  {
    if payments == [] then 0
    else (if payments[0].vendorId == vendorId then payments[0].amount else 0)
         + VendorPaid(payments[1..], vendorId)
  }

  /** The net amounts of the bills of `vendorId` whose status is in `statuses`. */
  function VendorNet(bills: seq<Bill>, vendorId: Id, statuses: set<Status>): int
    decreases |bills|
  {
    if bills == [] then 0
    else (if bills[0].vendorId == vendorId && bills[0].status in statuses then NetAmount(bills[0]) else 0)
         + VendorNet(bills[1..], vendorId, statuses)
  }

  /** Every value of the status enumeration. */
  const AllStatuses: set<Status> := {Submitted, Approved, PaymentProcessed}

  /** The net amounts of all the bills of `vendorId`, whatever their status: every status is in
      `AllStatuses`, so no bill of the vendor is left out. */
  function VendorBilled(bills: seq<Bill>, vendorId: Id): int {
    VendorNet(bills, vendorId, AllStatuses)
  }

  /** A single bill is billed to its vendor at its net amount, whatever its status. */
  lemma SingleBillBilled(b: Bill)
    ensures VendorBilled([b], b.vendorId) == NetAmount(b)
  {
    assert [b][1..] == [];
    assert b.status in AllStatuses by {
      assert b.status.Submitted? || b.status.Approved? || b.status.PaymentProcessed?;
    }
    assert VendorNet([b], b.vendorId, AllStatuses) == NetAmount(b) + VendorNet([], b.vendorId, AllStatuses);
  }

  /** A single payment counts in full toward its vendor's paid total. */
  lemma SinglePaymentPaid(p: Payment)
    ensures VendorPaid([p], p.vendorId) == p.amount
  {
    assert [p][1..] == [];
  }

  // The total of all payments, whichever vendor they go to, needs no reference sum of its own:
  // it is `Sum(payments, PaymentAmount)`.

  /** The net amounts of all bills whose status is in `statuses`, whichever vendor they are from. */
  function TotalNet(bills: seq<Bill>, statuses: set<Status>): int
    decreases |bills|
  {
    if bills == [] then 0
    else (if bills[0].status in statuses then NetAmount(bills[0]) else 0) + TotalNet(bills[1..], statuses)
  }

  // The filter predicates of the source, with the same tests. The source writes the approved
  // test twice (for a vendor and for a project); here it is `IsApproved`, and the contracts
  // relate each test to the status sets the reference sums use.

  /** The payment filter: the vendor id is all it tests; there is no status test on payments. */
  function PaidTo(vendorId: Id): (keep: Payment -> bool)
    ensures forall p :: keep(p) <==> p.vendorId == vendorId
  {
    (p: Payment) => p.vendorId == vendorId
  }

  /** A bill is approved when it is approved or payment-processed, that is, when it is not pending. */
  function IsApproved(b: Bill): (r: bool)
    ensures r <==> b.status in ApprovedStatuses
    ensures r <==> b.status !in PendingStatuses
  {
    b.status == Approved || b.status == PaymentProcessed
  }

  function ApprovedFor(vendorId: Id): (keep: Bill -> bool)
    ensures forall b :: keep(b) <==> b.vendorId == vendorId && b.status in ApprovedStatuses
  {
    (b: Bill) => IsApproved(b) && b.vendorId == vendorId
  }

  function SubmittedFor(vendorId: Id): (keep: Bill -> bool)
    ensures forall b :: keep(b) <==> b.vendorId == vendorId && b.status in PendingStatuses
  {
    (b: Bill) => b.status == Submitted && b.vendorId == vendorId
  }

  function OfVendor(vendorId: Id): Bill -> bool {
    (b: Bill) => b.vendorId == vendorId
  }

  // Each filter-then-sum pipeline computes its reference sum.

  lemma {:induction false} PaidPipeline(payments: seq<Payment>, vendorId: Id)
    ensures Sum(Filter(payments, PaidTo(vendorId)), PaymentAmount) == VendorPaid(payments, vendorId)
    decreases |payments|
  {
    if payments != [] {
      PaidPipeline(payments[1..], vendorId);
      SumCons(payments[0], Filter(payments[1..], PaidTo(vendorId)), PaymentAmount);
    }
  }

  lemma {:induction false} ApprovedPipeline(bills: seq<Bill>, vendorId: Id)
    ensures Sum(Filter(bills, ApprovedFor(vendorId)), NetAmount) == VendorNet(bills, vendorId, ApprovedStatuses)
    decreases |bills|
  {
    if bills != [] {
      ApprovedPipeline(bills[1..], vendorId);
      SumCons(bills[0], Filter(bills[1..], ApprovedFor(vendorId)), NetAmount);
    }
  }

  lemma {:induction false} SubmittedPipeline(bills: seq<Bill>, vendorId: Id)
    ensures Sum(Filter(bills, SubmittedFor(vendorId)), NetAmount) == VendorNet(bills, vendorId, PendingStatuses)
    decreases |bills|
  {
    if bills != [] {
      SubmittedPipeline(bills[1..], vendorId);
      SumCons(bills[0], Filter(bills[1..], SubmittedFor(vendorId)), NetAmount);
    }
  }

  lemma {:induction false} ProjectApprovedPipeline(bills: seq<Bill>)
    ensures Sum(Filter(bills, IsApproved), NetAmount) == TotalNet(bills, ApprovedStatuses)
    decreases |bills|
  {
    if bills != [] {
      ProjectApprovedPipeline(bills[1..]);
      SumCons(bills[0], Filter(bills[1..], IsApproved), NetAmount);
    }
  }

  /** `getVendorSummary(bills, payments, vendorId)`: three filter-then-reduce passes. `paid` sums the
      vendor's payments with no status test; `outstanding` is the approved net total less `paid`,
      with no floor at zero; `pendingApproval` sums the net amounts of the vendor's submitted bills. */
  function GetVendorSummary(bills: seq<Bill>, payments: seq<Payment>, vendorId: Id): (r: VendorSummary)
    ensures r.paid == VendorPaid(payments, vendorId)
    ensures r.outstanding == VendorNet(bills, vendorId, ApprovedStatuses) - VendorPaid(payments, vendorId)
    ensures r.pendingApproval == VendorNet(bills, vendorId, PendingStatuses)
  {
    var paid := Reduce(Filter(payments, PaidTo(vendorId)), PaymentAmount, 0);
    var approvedBills := Reduce(Filter(bills, ApprovedFor(vendorId)), NetAmount, 0);
    var outstanding := approvedBills - paid;
    var pendingApproval := Reduce(Filter(bills, SubmittedFor(vendorId)), NetAmount, 0);
    PaidPipeline(payments, vendorId);
    ApprovedPipeline(bills, vendorId);
    SubmittedPipeline(bills, vendorId);
    VendorSummary(paid, outstanding, pendingApproval)
  }

  /** `getProjectOutstanding(bills, payments)`: the approved net total of all bills less all
      payments, with no vendor filter and no floor at zero. */
  function GetProjectOutstanding(bills: seq<Bill>, payments: seq<Payment>): (r: int)
    ensures r == TotalNet(bills, ApprovedStatuses) - Sum(payments, PaymentAmount)
  {
    var totalApproved := Reduce(Filter(bills, IsApproved), NetAmount, 0);
    var totalPaid := Reduce(payments, PaymentAmount, 0);
    ProjectApprovedPipeline(bills);
    totalApproved - totalPaid
  }

  // Concatenation: each reference sum is additive.

  lemma {:induction false} VendorPaidAppend(a: seq<Payment>, b: seq<Payment>, vendorId: Id)
    ensures VendorPaid(a + b, vendorId) == VendorPaid(a, vendorId) + VendorPaid(b, vendorId)
    decreases |a|
  {
    if a == [] {
      assert a + b == b;
    } else {
      assert (a + b)[1..] == a[1..] + b;
      VendorPaidAppend(a[1..], b, vendorId);
    }
  }

  lemma {:induction false} VendorNetAppend(a: seq<Bill>, b: seq<Bill>, vendorId: Id, statuses: set<Status>)
    ensures VendorNet(a + b, vendorId, statuses) == VendorNet(a, vendorId, statuses) + VendorNet(b, vendorId, statuses)
    decreases |a|
  {
    if a == [] {
      assert a + b == b;
    } else {
      assert (a + b)[1..] == a[1..] + b;
      VendorNetAppend(a[1..], b, vendorId, statuses);
    }
  }

  lemma {:induction false} TotalNetAppend(a: seq<Bill>, b: seq<Bill>, statuses: set<Status>)
    ensures TotalNet(a + b, statuses) == TotalNet(a, statuses) + TotalNet(b, statuses)
    decreases |a|
  {
    if a == [] {
      assert a + b == b;
    } else {
      assert (a + b)[1..] == a[1..] + b;
      TotalNetAppend(a[1..], b, statuses);
    }
  }

  // Properties of the vendor summary.

  /** With no bills and no payments every figure is 0, for the vendor and for the project. */
  lemma EmptyLedger(vendorId: Id)
    ensures GetVendorSummary([], [], vendorId) == VendorSummary(0, 0, 0)
    ensures GetProjectOutstanding([], []) == 0
  {
  }

  /** Pending approval reads the bills only: no payment list changes it. */
  lemma PendingIgnoresPayments(bills: seq<Bill>, payments1: seq<Payment>, payments2: seq<Payment>, vendorId: Id)
    ensures GetVendorSummary(bills, payments1, vendorId).pendingApproval
         == GetVendorSummary(bills, payments2, vendorId).pendingApproval
  {
  }

  /** Every bill of the vendor is either approved (or payment-processed) or pending, never both:
      the approved total and pending approval add up to the net total of all the vendor's bills. */
  lemma {:induction false} ApprovedPlusPendingIsBilled(bills: seq<Bill>, payments: seq<Payment>, vendorId: Id)
    ensures VendorNet(bills, vendorId, ApprovedStatuses) + GetVendorSummary(bills, payments, vendorId).pendingApproval
         == VendorBilled(bills, vendorId)
    ensures GetVendorSummary(bills, payments, vendorId).outstanding
         + GetVendorSummary(bills, payments, vendorId).pendingApproval
         + GetVendorSummary(bills, payments, vendorId).paid
         == VendorBilled(bills, vendorId)
    decreases |bills|
  {
    if bills != [] {
      ApprovedPlusPendingIsBilled(bills[1..], payments, vendorId);
      assert bills[0].status in ApprovedStatuses <==> bills[0].status !in PendingStatuses;
    }
  }

  /** The summary of two ledgers laid end to end is the figure-by-figure sum of their summaries. */
  lemma SummaryOfConcatenation(bills1: seq<Bill>, bills2: seq<Bill>, payments1: seq<Payment>, payments2: seq<Payment>, vendorId: Id)
    ensures var s1 := GetVendorSummary(bills1, payments1, vendorId);
            var s2 := GetVendorSummary(bills2, payments2, vendorId);
            GetVendorSummary(bills1 + bills2, payments1 + payments2, vendorId)
            == VendorSummary(s1.paid + s2.paid, s1.outstanding + s2.outstanding, s1.pendingApproval + s2.pendingApproval)
  {
    VendorPaidAppend(payments1, payments2, vendorId);
    VendorNetAppend(bills1, bills2, vendorId, ApprovedStatuses);
    VendorNetAppend(bills1, bills2, vendorId, PendingStatuses);
  }

  /** Appending a payment for the vendor raises `paid` and lowers `outstanding` by its amount and
      leaves `pendingApproval` alone; a payment for another vendor changes nothing. */
  lemma AddPayment(bills: seq<Bill>, payments: seq<Payment>, p: Payment, vendorId: Id)
    ensures var before := GetVendorSummary(bills, payments, vendorId);
            var after := GetVendorSummary(bills, payments + [p], vendorId);
            if p.vendorId == vendorId then
              after.paid == before.paid + p.amount
              && after.outstanding == before.outstanding - p.amount
              && after.pendingApproval == before.pendingApproval
            else
              after == before
  {
    VendorPaidAppend(payments, [p], vendorId);
    assert VendorPaid([p], vendorId) == if p.vendorId == vendorId then p.amount else 0;
  }

  /** Appending a bill of the vendor raises the figure its status feeds by its net amount: an
      approved or payment-processed bill raises `outstanding`, a submitted one `pendingApproval`.
      `paid` never moves, and a bill of another vendor changes nothing. */
  lemma AddBill(bills: seq<Bill>, payments: seq<Payment>, b: Bill, vendorId: Id)
    ensures var before := GetVendorSummary(bills, payments, vendorId);
            var after := GetVendorSummary(bills + [b], payments, vendorId);
            if b.vendorId != vendorId then
              after == before
            else if b.status == Submitted then
              after == before.(pendingApproval := before.pendingApproval + NetAmount(b))
            else
              after == before.(outstanding := before.outstanding + NetAmount(b))
  {
    VendorNetAppend(bills, [b], vendorId, ApprovedStatuses);
    VendorNetAppend(bills, [b], vendorId, PendingStatuses);
  }

  lemma {:induction false} VendorPaidOfFiltered(payments: seq<Payment>, vendorId: Id)
    ensures VendorPaid(Filter(payments, PaidTo(vendorId)), vendorId) == VendorPaid(payments, vendorId)
    decreases |payments|
  {
    if payments != [] {
      VendorPaidOfFiltered(payments[1..], vendorId);
      var rest := Filter(payments[1..], PaidTo(vendorId));
      assert ([payments[0]] + rest)[1..] == rest;
    }
  }

  lemma {:induction false} VendorNetOfFiltered(bills: seq<Bill>, vendorId: Id, statuses: set<Status>)
    ensures VendorNet(Filter(bills, OfVendor(vendorId)), vendorId, statuses) == VendorNet(bills, vendorId, statuses)
    decreases |bills|
  {
    if bills != [] {
      VendorNetOfFiltered(bills[1..], vendorId, statuses);
      var rest := Filter(bills[1..], OfVendor(vendorId));
      assert ([bills[0]] + rest)[1..] == rest;
    }
  }

  /** Records of other vendors contribute nothing: the summary over the full lists equals the
      summary over the vendor's own bills and payments. */
  lemma OnlyVendorRecordsMatter(bills: seq<Bill>, payments: seq<Payment>, vendorId: Id)
    ensures GetVendorSummary(bills, payments, vendorId)
         == GetVendorSummary(Filter(bills, OfVendor(vendorId)), Filter(payments, PaidTo(vendorId)), vendorId)
  {
    VendorPaidOfFiltered(payments, vendorId);
    VendorNetOfFiltered(bills, vendorId, ApprovedStatuses);
    VendorNetOfFiltered(bills, vendorId, PendingStatuses);
  }

  /** An overpaid vendor has negative outstanding: no floor at zero is applied. */
  lemma OutstandingNegativeWhenOverpaid(bills: seq<Bill>, payments: seq<Payment>, vendorId: Id)
    ensures GetVendorSummary(bills, payments, vendorId).outstanding < 0
        <==> VendorPaid(payments, vendorId) > VendorNet(bills, vendorId, ApprovedStatuses)
  {
  }

  /** Approved bills of 900 against payments of 1200 leave an outstanding of -300. */
  lemma OverpaymentExample()
    ensures GetVendorSummary([Bill("b1", "p1", "v1", 900, 0, Approved)], [Payment("y1", "p1", "v1", 1200)], "v1")
         == VendorSummary(1200, -300, 0)
  {
  }

  /** One approved bill of 1000 less a discount of 100, and one payment of 500. */
  lemma ApprovedBillExample()
    ensures GetVendorSummary([Bill("b1", "p1", "v1", 1000, 100, Approved)], [Payment("y1", "p1", "v1", 500)], "v1")
         == VendorSummary(500, 400, 0)
  {
  }

  /** One submitted bill of 1000 and no payments: only pending approval is non-zero. */
  lemma SubmittedBillExample()
    ensures GetVendorSummary([Bill("b1", "p1", "v1", 1000, 0, Submitted)], [], "v1")
         == VendorSummary(0, 0, 1000)
  {
  }

  // Properties of the project outstanding.

  /** The project outstanding of two ledgers laid end to end is the sum of theirs. */
  lemma ProjectOutstandingOfConcatenation(bills1: seq<Bill>, bills2: seq<Bill>, payments1: seq<Payment>, payments2: seq<Payment>)
    ensures GetProjectOutstanding(bills1 + bills2, payments1 + payments2)
         == GetProjectOutstanding(bills1, payments1) + GetProjectOutstanding(bills2, payments2)
  {
    TotalNetAppend(bills1, bills2, ApprovedStatuses);
    SumAppend(payments1, payments2, PaymentAmount);
  }

  /** When every record belongs to one vendor, the project figure is that vendor's outstanding. */
  lemma {:induction false} SingleVendorProject(bills: seq<Bill>, payments: seq<Payment>, vendorId: Id)
    requires forall i :: 0 <= i < |bills| ==> bills[i].vendorId == vendorId
    requires forall i :: 0 <= i < |payments| ==> payments[i].vendorId == vendorId
    ensures GetProjectOutstanding(bills, payments) == GetVendorSummary(bills, payments, vendorId).outstanding
  {
    SingleVendorNet(bills, vendorId);
    SingleVendorPaid(payments, vendorId);
  }

  lemma {:induction false} SingleVendorNet(bills: seq<Bill>, vendorId: Id)
    requires forall i :: 0 <= i < |bills| ==> bills[i].vendorId == vendorId
    ensures TotalNet(bills, ApprovedStatuses) == VendorNet(bills, vendorId, ApprovedStatuses)
    decreases |bills|
  {
    if bills != [] {
      assert bills[0].vendorId == vendorId;
      SingleVendorNet(bills[1..], vendorId);
    }
  }

  lemma {:induction false} SingleVendorPaid(payments: seq<Payment>, vendorId: Id)
    requires forall i :: 0 <= i < |payments| ==> payments[i].vendorId == vendorId
    ensures Sum(payments, PaymentAmount) == VendorPaid(payments, vendorId)
    decreases |payments|
  {
    if payments != [] {
      assert payments[0].vendorId == vendorId;
      SingleVendorPaid(payments[1..], vendorId);
    }
  }

  // The sign and prefix of formatCurrency.

  const RupeeSign: char := '\U{20B9}'

  function Abs(x: int): (r: nat)
    ensures r == x || r == -x
  {
    if x < 0 then -x else x
  }

  /** `formatCurrency(amount)`: a minus sign exactly when the amount is negative, then the rupee
      sign, then the grouped digits of the absolute value. `grouped` stands for the locale call
      that groups the digits, which this model leaves uninterpreted. */
  function FormatCurrency(amount: int, grouped: nat -> string): (r: string)
    ensures |r| >= 1 && (r[0] == '-' <==> amount < 0)
    ensures var start := if amount < 0 then 1 else 0;
            |r| > start && r[start] == RupeeSign && r[start + 1..] == grouped(Abs(amount))
  {
    var isNegative := amount < 0;
    var absAmount := Abs(amount);
    (if isNegative then "-" else "") + [RupeeSign] + grouped(absAmount)
  }

  /** A negative amount prints as the minus sign followed by its positive counterpart. */
  lemma FormatCurrencyNegation(amount: int, grouped: nat -> string)
    requires amount > 0
    ensures FormatCurrency(-amount, grouped) == "-" + FormatCurrency(amount, grouped)
  {
  }
}

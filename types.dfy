/** The record shapes the ledger code reads. Only the fields that the aggregation, the
    statement rows and the login screen use are kept. */
module Types {

  type Id = string

  /** The bill status is a closed enumeration of three values. */
  datatype Status = Submitted | Approved | PaymentProcessed

  /** A purchase bill. Money is an integer count of the smallest currency unit. */
  datatype Bill = Bill(
    id: Id,
    projectId: Id,
    vendorId: Id,
    amount: int,
    discount: int,
    status: Status)

  /** A payment to a vendor. Payments carry no status. */
  datatype Payment = Payment(
    id: Id,
    projectId: Id,
    vendorId: Id,
    amount: int)

  datatype VendorSummary = VendorSummary(paid: int, outstanding: int, pendingApproval: int)
}

# Ledger aggregation and login input rules of pavitram-mobile

pavitram-mobile is a mobile app for project purchase ledgers. Bills come from vendors and
payments go to them. This project models in Dafny the two pieces of the app that hold business rules:

- **Ledger aggregation** (`lib/helpers.ts`). `getVendorSummary` gives a vendor three figures:
  - `paid`: the sum of the vendor's payments;
  - `outstanding`: the net amount (amount less discount) of the vendor's approved and
    payment-processed bills, less `paid`;
  - `pendingApproval`: the net amount of the vendor's submitted bills.

  `getProjectOutstanding` gives the same approved-less-paid figure with no vendor filter. The
  sign and rupee prefix of `formatCurrency` are modelled too. The net-amount rule used by the
  statement rows (`components/CompactRow.tsx`) and bill cards (`components/BillCard.tsx`) is the
  same `Helpers.NetAmount` the totals use.
- **Login input rules** (`app/login.tsx`):
  - the blank check on username and password;
  - the rule that turns a username into an email;
  - the state changes of the login handler.

Modules, one per source file or concern:

- `Folds` (`folds.dfy`): `filter` and a summing `reduce` (a left fold), as the source chains them.
- `Types` (`types.dfy`): the bill, payment, status and summary records of `types/index.ts`.
- `Helpers` (`helpers.dfy`): the two aggregations as the same filter-then-reduce pipelines as
  the source. Their contracts tie each figure to an independent reference sum, written as one
  direct recursion with no filtering step (`VendorPaid`, `VendorNet`, `TotalNet`). The
  total of all payments is the plain `Folds.Sum`, and `VendorBilled` is `VendorNet` over all three
  statuses. Lemmas about those sums cover:
  - partition by status;
  - concatenation;
  - appending a payment or a bill;
  - records of other vendors;
  - a single-vendor project.
- `Statement` (`statement.dfy`): the statement row and its displayed amount.
- `Login` (`login.dfy`): `trim`, the blank check, email derivation, and a `LoginScreen` class
  whose `HandleLogin` method performs the handler's state changes.

Money is an unbounded integer, for example a count of paise.

Outstanding is not floored at zero. `getVendorSummary` and `getProjectOutstanding` subtract
plainly (`lib/helpers.ts:60` and `:80`), as their doc comments at lines 40 and 71 say, so an
overpaid vendor has negative outstanding (`Helpers.OverpaymentExample` gives -300). Some list
screens do not call these helpers. They compute their own figure and clamp it, for example
`Math.max(0, approvedBills - paid)` at `app/(auth)/(purchase)/vendors.tsx:101`. That screen code
is not part of this model.

## Model

| member | source | states |
|---|---|---|
| `Folds.Filter` | lib/helpers.ts:48-49 | `filter` returns only elements of the input that pass the predicate, keeps every element that passes, and does not lengthen the list |
| `Folds.FilterMultiset` | lib/helpers.ts:48-49 | each value that passes the predicate occurs in the result as many times as in the input; other values do not occur |
| `Folds.FilterSingle` | lib/helpers.ts:48-49 | a one-element list filters to itself when the element passes, to the empty list otherwise |
| `Folds.FilterAppend` | lib/helpers.ts:48-49 | filtering distributes over concatenation; with `FilterSingle` this fixes the result's order as the input's |
| `Folds.SumAppend` | lib/helpers.ts:78 | the sum of values over concatenated lists is the sum of the two sums |
| `Folds.Reduce` | lib/helpers.ts:50 | the summing `reduce` starting from `acc` equals `acc` plus the sum of the values |
| `Helpers.NetAmount` | lib/helpers.ts:58 | the net amount stays at or below the amount exactly when the discount is not negative, and lies between 0 and the amount when the discount does |
| `Helpers.PaidTo` | lib/helpers.ts:49 | the payment filter tests the vendor id only, with no status test |
| `Helpers.IsApproved` | lib/helpers.ts:75 | a bill passes exactly when its status is approved or payment-processed, that is, exactly when it is not submitted |
| `Helpers.ApprovedFor` | lib/helpers.ts:53-57 | a bill passes exactly when it belongs to the vendor and its status is approved or payment-processed |
| `Helpers.SubmittedFor` | lib/helpers.ts:63 | a bill passes exactly when it belongs to the vendor and its status is submitted |
| `Helpers.SingleBillBilled` | components/BillCard.tsx:13 | one bill alone counts toward its vendor's total at its net amount, whatever its status |
| `Helpers.SinglePaymentPaid` | lib/helpers.ts:48-50 | one payment alone counts in full toward its vendor's paid total |
| `Helpers.PaidPipeline` | lib/helpers.ts:48-50 | filtering the payments by vendor id and summing the amounts gives the vendor's paid total |
| `Helpers.ApprovedPipeline` | lib/helpers.ts:52-58 | filtering the vendor's approved or payment-processed bills and summing net amounts gives the reference approved total |
| `Helpers.SubmittedPipeline` | lib/helpers.ts:62-64 | filtering the vendor's submitted bills and summing net amounts gives the reference pending total |
| `Helpers.ProjectApprovedPipeline` | lib/helpers.ts:74-76 | filtering all approved or payment-processed bills and summing net amounts gives the reference project approved total |
| `Helpers.GetVendorSummary` | lib/helpers.ts:43-67 | `paid` is the sum over exactly the vendor's payments, with no status test; `outstanding` is the vendor's approved and payment-processed net total less `paid`, with no clamp; `pendingApproval` is the vendor's submitted net total |
| `Helpers.GetProjectOutstanding` | lib/helpers.ts:73-81 | the net total of all approved and payment-processed bills less the sum of all payments, with no vendor filter and no clamp |
| `Helpers.VendorPaidAppend` | lib/helpers.ts:48-50 | the vendor's paid total of concatenated payment lists is the sum of the two totals |
| `Helpers.VendorNetAppend` | lib/helpers.ts:52-64 | the vendor's net total for a set of statuses is additive over concatenated bill lists |
| `Helpers.TotalNetAppend` | lib/helpers.ts:74-76 | the project net total for a set of statuses is additive over concatenation |
| `Helpers.EmptyLedger` | lib/helpers.ts:48-80 | empty lists give a summary of 0, 0, 0 and a project outstanding of 0 |
| `Helpers.PendingIgnoresPayments` | lib/helpers.ts:62-64 | `pendingApproval` is the same whatever payment list is passed |
| `Helpers.ApprovedPlusPendingIsBilled` | lib/helpers.ts:52-64 | because the status has three values, the approved total plus `pendingApproval` equals the net total of all the vendor's bills; also `outstanding + pendingApproval + paid` equals that net total |
| `Helpers.SummaryOfConcatenation` | lib/helpers.ts:43-67 | the summary of concatenated ledgers is the figure-by-figure sum of the two summaries |
| `Helpers.AddPayment` | lib/helpers.ts:48-60 | appending a payment of `x` for the vendor raises `paid` by `x`, lowers `outstanding` by `x` and keeps `pendingApproval`; one for another vendor changes nothing |
| `Helpers.AddBill` | lib/helpers.ts:52-64 | appending a bill of the vendor raises `outstanding` (approved or payment-processed bill) or `pendingApproval` (submitted bill) by its net amount and leaves the rest; one for another vendor changes nothing |
| `Helpers.VendorPaidOfFiltered` | lib/helpers.ts:48-50 | dropping other vendors' payments leaves the vendor's paid total unchanged |
| `Helpers.VendorNetOfFiltered` | lib/helpers.ts:52-64 | dropping other vendors' bills leaves the vendor's net totals unchanged |
| `Helpers.OnlyVendorRecordsMatter` | lib/helpers.ts:43-67 | the summary over the full lists equals the summary over the vendor's own bills and payments |
| `Helpers.OutstandingNegativeWhenOverpaid` | lib/helpers.ts:60 | outstanding is negative exactly when the vendor's payments exceed its approved net total |
| `Helpers.OverpaymentExample` | lib/helpers.ts:60 | approved bills of 900 and payments of 1200 give outstanding -300 |
| `Helpers.ApprovedBillExample` | lib/helpers.ts:43-67 | an approved bill of 1000 with discount 100 and a payment of 500 give 500, 400, 0 |
| `Helpers.SubmittedBillExample` | lib/helpers.ts:62-64 | a submitted bill of 1000 and no payments give 0, 0, 1000 |
| `Helpers.ProjectOutstandingOfConcatenation` | lib/helpers.ts:73-81 | project outstanding is additive over concatenated ledgers |
| `Helpers.SingleVendorProject` | lib/helpers.ts:73-81 | when every bill and payment has vendor id `v`, project outstanding equals `v`'s outstanding |
| `Helpers.SingleVendorNet` | lib/helpers.ts:74-76 | with one vendor throughout, the project approved total equals that vendor's |
| `Helpers.SingleVendorPaid` | lib/helpers.ts:78 | with one vendor throughout, the total paid equals that vendor's paid |
| `Helpers.Abs` | lib/helpers.ts:9 | the absolute value is a natural number equal to the amount or its negation |
| `Helpers.FormatCurrency` | lib/helpers.ts:7-17 | the text starts with `-` exactly when the amount is negative; after that comes the rupee sign, then the grouped digits of the absolute value |
| `Helpers.FormatCurrencyNegation` | lib/helpers.ts:8-16 | a negative amount prints as `-` followed by the text of its positive counterpart |
| `Statement.RowAmount` | components/CompactRow.tsx:19-21 | a bill row shows what that bill alone adds to its vendor's net total over all statuses; a payment row shows what that payment alone adds to its vendor's paid total |
| `Statement.RowAmountIsSummaryChange` | components/CompactRow.tsx:19-21 | a row's displayed amount is exactly what its record adds to the vendor summary: `paid` for a payment, `outstanding` for an approved bill, `pendingApproval` for a submitted bill |
| `Login.LeadingSpace` | app/login.tsx:33 | counts the whitespace run at the front: all whitespace, followed by a non-whitespace character or the end |
| `Login.TrailingSpace` | app/login.tsx:33 | counts the whitespace run at the back, in the same terms |
| `Login.Trim` | app/login.tsx:33 | `trim` gives a stretch of the input with only whitespace on both sides and no whitespace at either of its ends; it is empty exactly when the input is all whitespace |
| `Login.TrimKeepsNonWhiteSpace` | app/login.tsx:40 | a non-whitespace character (such as `@`) occurs in the trimmed text exactly when it occurs in the input |
| `Login.TrimOfUnpadded` | app/login.tsx:40 | a text without whitespace at its ends is its own trim |
| `Login.TrimIdempotent` | app/login.tsx:33 | trimming twice equals trimming once |
| `Login.DeriveEmail` | app/login.tsx:40 | the email always contains `@` and begins with the trimmed username; it is the trimmed username when the username has `@`, otherwise the trimmed username followed by `@pavitram.app` |
| `Login.DerivedEmailIsTrimmed` | app/login.tsx:40 | the derived email has no surrounding whitespace |
| `Login.DeriveEmailIdempotent` | app/login.tsx:40 | deriving the email of a derived email gives it back unchanged |
| `Login.ValidateInput` | app/login.tsx:33-36 | an error exactly when the username or the password is all whitespace (empty after `trim`), and the error is the fixed blank-input message |
| `Login.LoginScreen.constructor` | app/login.tsx:25-28 | the screen starts with empty username, password and error, not loading |
| `Login.LoginScreen.HandleLogin` | app/login.tsx:30-49 | blank input sets the blank-input message and makes no sign-in attempt; otherwise it signs in with the derived email and the untrimmed password, ends not loading, shows the fixed "Invalid username or password." for any non-empty error message whatever it says, and otherwise (no error, or an empty message, which JavaScript treats as false) clears the error and goes home |

## Left out

- `formatCurrency`'s digit grouping (`toLocaleString('en-IN')`) is a locale call: `FormatCurrency` takes it as the parameter `grouped` and leaves it uninterpreted.
- `formatDate` depends on JavaScript `Date` parsing and the local time zone: not modelled.
- `Number(...)` coercion and floating-point addition in the reductions: amounts are integers, and the parsing of strings or NaN is not modelled.
- Bill and payment fields no total reads are omitted from the records: bill number, date, category, subcategory, GST, description, payment method, audit fields.
- Combining bills and payments into a sorted statement, and ranking vendors or projects by outstanding, happen in screen code outside `lib/helpers.ts`; `components/CompactRow.tsx` only declares the row type. Neither is modelled.
- Sign-in and navigation are calls into code outside this model: the identity provider's `login` is the function parameter `signIn`, and `router.replace` to the home screen is the field `atHome`.
- LoginScreen.HandleLogin: the `await` between `setLoading(true)` and `setLoading(false)` is not modelled, so the contract states only the final state. React's deferred state updates are treated as immediate assignments.
- Login.Trim: JavaScript strings are UTF-16 code units, while the model's characters are Unicode scalar values. The whitespace set is ECMAScript's WhiteSpace and LineTerminator code points.
- The demo-credential buttons (`fillCredentials`), the screen's JSX, the Supabase client, the auth and settings contexts, and the remaining screens and components are I/O or presentation: not modelled.

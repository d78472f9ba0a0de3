/** The enumerations of the domain. Ordinals are kept so that a reader can
    match them with the stored integer codes. */
module Enums {

  datatype VoucherType = Journal | Payment | Receipt | Contra {
    /** The stored enum value (1..4) */
    function Code(): int {
      match this
      case Journal => 1
      case Payment => 2
      case Receipt => 3
      case Contra => 4
    }

    /** The enum member name, which is what string interpolation prints */
    function Name(): string {
      match this
      case Journal => "Journal"
      case Payment => "Payment"
      case Receipt => "Receipt"
      case Contra => "Contra"
    }
  }

  /** Submitted and Rejected are declared but no operation ever produces them */
  datatype VoucherStatus = Draft | Submitted | Verified | Approved | Rejected {
    function Code(): int {
      match this
      case Draft => 1
      case Submitted => 2
      case Verified => 3
      case Approved => 4
      case Rejected => 5
    }
  }

  datatype AccountType = Asset | Liability | Equity | Revenue | Expense {
    /** Debit-normal types report debit - credit, the others credit - debit */
    predicate DebitNormal() {
      Asset? || Expense?
    }
  }
}

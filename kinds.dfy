/** The two enumerations a stored document carries. */
module Kinds {

  /** `state.docType` / a record's `type`; only the value 'estimate' is special-cased. */
  datatype DocType = Invoice | Estimate

  /** `status` as set by the status buttons. */
  datatype Status = Draft | Sent | Paid
}

/** The error codes of components/controller/include/protocol.hpp, and the three things a write to
    the durable store can do. */
module Errors {
  datatype Error =
    | NoError | Transport | Timeout | TooLarge | Malformed | SourceTime | ReportTime
    | Authentication | Permission | RateLimit | Billing | Unavailable | Server | Redirect
    | BudgetSpent | Storage | Reauthorize | Clock | Wifi

  /** `Store::write` is true only after a durable commit; false says nothing of the blob. */
  datatype Write = Refused | CommittedUnseen | Committed
  {
    predicate Seen() { Committed? }

    predicate Lands() { !Refused? }
  }
}

/** The payment record (src/entities/Payment.ts). */
module Entities {
  import opened Wrappers

  /** Identifiers are drawn from a counter of the store; see Repository.PaymentRepository.nextId. */
  type PaymentId = nat

  /**
   * One payment. Times are millisecond timestamps (the source compares
   * `Date.valueOf()`); `value` is an exact integer amount.
   */
  datatype Payment = Payment(
    id: PaymentId,
    contractId: string,
    description: string,
    value: int,
    time: int,
    createdAt: int,
    updatedAt: Option<int>,
    deletedAt: Option<int>)
}

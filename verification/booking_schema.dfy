/** The stored Booking record of src/schemas/booking.schema.ts: its two enums,
    their defaults, and the bounds the document store checks on save. */
module BookingSchema {
  import opened Outcomes

  /** Milliseconds since the epoch. */
  type Time = int
  /** A document id (ObjectId); only compared for equality. */
  type ObjectId = nat

  datatype BookingStatus = Pending | Confirmed | Active | Completed | Cancelled | Expired

  datatype PaymentStatus = PaymentPending | Processing | PaymentCompleted | Failed | Refunded

  const DefaultStatus: BookingStatus := Pending
  const DefaultPaymentStatus: PaymentStatus := PaymentPending

  const MinDurationHours: real := 1.0
  const MaxDurationHours: real := 10.0

  /** A booking document. `totalAmount` is optional because a document can be
      built without it; `SatisfiesSchema` demands it before the record is saved. */
  datatype Booking = Booking(
    userId: ObjectId,
    businessId: ObjectId,
    lockerNumber: int,
    startTime: Time,
    endTime: Time,
    durationHours: real,
    totalAmount: Option<real>,
    status: BookingStatus,
    paymentId: Option<string>,
    paymentStatus: PaymentStatus,
    accessCode: Option<string>,
    specialInstructions: Option<string>,
    cancellationReason: Option<string>,
    checkedInAt: Option<Time>,
    checkedOutAt: Option<Time>,
    cancelledAt: Option<Time>,
    createdAt: Time,
    updatedAt: Time)

  /** The validators the store runs on save: durationHours in [1, 10] and a
      required, non-negative totalAmount. */
  predicate SatisfiesSchema(b: Booking)
  {
    && MinDurationHours <= b.durationHours <= MaxDurationHours
    && b.totalAmount.Some?
    && b.totalAmount.value >= 0.0
  }

  /** The value stored for a status field that may be left unset. */
  function StatusOrDefault(given: Option<BookingStatus>): (s: BookingStatus)
    ensures given.None? ==> s == Pending
    ensures given.Some? ==> s == given.value
  {
    if given.Some? then given.value else DefaultStatus
  }

  /** The value stored for a payment status field that may be left unset. */
  function PaymentStatusOrDefault(given: Option<PaymentStatus>): (s: PaymentStatus)
    ensures given.None? ==> s == PaymentPending
    ensures given.Some? ==> s == given.value
  {
    if given.Some? then given.value else DefaultPaymentStatus
  }

  /** The string the store keeps for each status. */
  function StatusName(s: BookingStatus): string
  {
    match s
    case Pending => "pending"
    case Confirmed => "confirmed"
    case Active => "active"
    case Completed => "completed"
    case Cancelled => "cancelled"
    case Expired => "expired"
  }

  /** The status enum validator: a string is accepted iff it names a status. */
  function ParseStatus(s: string): (r: Option<BookingStatus>)
    ensures r.Some? ==> StatusName(r.value) == s
  {
    if s == "pending" then Some(Pending)
    else if s == "confirmed" then Some(Confirmed)
    else if s == "active" then Some(Active)
    else if s == "completed" then Some(Completed)
    else if s == "cancelled" then Some(Cancelled)
    else if s == "expired" then Some(Expired)
    else None
  }

  lemma StatusNameRoundTrip(s: BookingStatus)
    ensures ParseStatus(StatusName(s)) == Some(s)
  {
  }

  function PaymentStatusName(s: PaymentStatus): string
  {
    match s
    case PaymentPending => "pending"
    case Processing => "processing"
    case PaymentCompleted => "completed"
    case Failed => "failed"
    case Refunded => "refunded"
  }

  /** The paymentStatus enum validator. */
  function ParsePaymentStatus(s: string): (r: Option<PaymentStatus>)
    ensures r.Some? ==> PaymentStatusName(r.value) == s
  {
    if s == "pending" then Some(PaymentPending)
    else if s == "processing" then Some(Processing)
    else if s == "completed" then Some(PaymentCompleted)
    else if s == "failed" then Some(Failed)
    else if s == "refunded" then Some(Refunded)
    else None
  }

  lemma PaymentStatusNameRoundTrip(s: PaymentStatus)
    ensures ParsePaymentStatus(PaymentStatusName(s)) == Some(s)
  {
  }
}

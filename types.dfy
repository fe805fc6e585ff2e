/** The records of src/types.ts. */
module Types {

  /** A bookable ground; `kind` is the source's `type` field. */
  datatype Turf = Turf(id: string, name: string, kind: string, price: int, img: string)

  datatype Period = Morning | Evening | Night

  /** A one-hour daily slot: id `hh-hh` (24-hour), a 12-hour display label (`label` in the source) and its period. */
  datatype BookingSlot = BookingSlot(id: string, timeLabel: string, period: Period)

  datatype Status = Confirmed | Cancelled

  /** One row of the booking ledger. `date` is the `YYYY-MM-DD` string the views select. */
  datatype Booking = Booking(
    id: int,
    turfId: string,
    date: string,
    timeSlotId: string,
    customerName: string,
    phone: string,
    email: string,
    status: Status,
    amount: int,
    paymentMethod: string)

  /** The three top-level screens: 'home' | 'booking' | 'admin'. */
  datatype View = HomePage | BookingPage | AdminPage
}

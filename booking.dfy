/** The booking record the dashboard receives from the backend and only ever reads. */
module Bookings {
  import opened Wrappers

  datatype Booking = Booking(
    key: string,              // the backend's `_id`, used only as the card key
    bookingId: string,
    customerName: string,
    email: string,
    phone: string,
    eventName: string,
    eventDate: string,
    ticketType: string,
    pricePerTicket: int,
    numberOfTickets: int,
    totalPrice: int,
    status: string,           // raw status text; unknown values are displayed, not rejected
    ticketId: Option<string>, // issued once the booking is confirmed
    createdAt: string,
    usedAt: Option<string>)   // set when the ticket is redeemed at the venue

  /** JavaScript truthiness of an optional text field: it is there and it is not the empty string. */
  predicate Present(field: Option<string>) {
    field.Some? && field.value != ""
  }
}

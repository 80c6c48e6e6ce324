/**
 * The bookings page (`BookingsPage` in src/pages/Bookings.js): the cached
 * list of the user's bookings and its loading flag. As on the events page,
 * each server call is a synchronous part and its `...Settled` continuation.
 * Unlike the events page, nothing guards the continuations against an
 * unmounted page.
 */
module Bookings {

  import opened Api
  import opened Lists

  /** The fields of the booked event that the bookings query asks for. */
  datatype BookedEvent = BookedEvent(
    id: string, title: string, startDate: string, endDate: string, creatorEmail: Option<string>)

  datatype Booking = Booking(id: string, createdAt: string, event: BookedEvent)

  function BookingId(b: Booking): string { b.id }

  class BookingsPage {
    var isLoading: bool
    var bookings: seq<Booking>

    /** The initial state. */
    constructor ()
      ensures !isLoading && bookings == []
    {
      isLoading, bookings := false, [];
    }

    /** `fetchBookings`, synchronous part: marks the page loading and sends the bookings query with the token. */
    method FetchBookings(session: Session) returns (req: Request)
      modifies this
      ensures isLoading && bookings == old(bookings)
      ensures req == ListBookings(session.token)
    {
      isLoading := true;
      req := ListBookings(session.token);
    }

    /**
     * `fetchBookings`, continuation: an accepted response carrying
     * `data.bookings` becomes the list, exactly; any failure leaves the list
     * alone. Loading ends either way.
     */
    method FetchBookingsSettled(response: Response<Option<seq<Booking>>>)
      modifies this
      ensures !isLoading
      ensures bookings == if DataOf(response).Some? then DataOf(response).value else old(bookings)
    {
      var fetched := DataOf(response);
      if fetched.Some? {
        bookings, isLoading := fetched.value, false;
      } else {
        isLoading := false;
      }
    }

    /** `deleteBookingHandler`, synchronous part: marks the page loading and sends the CancelBooking mutation. */
    method DeleteBooking(bookingId: string, session: Session) returns (req: Request)
      modifies this
      ensures isLoading && bookings == old(bookings)
      ensures req == CancelBooking(bookingId, session.token)
    {
      isLoading := true;
      req := CancelBooking(bookingId, session.token);
    }

    /**
     * `deleteBookingHandler`, continuation: an accepted response drops every
     * booking with that id, keeps the rest in order and so never lengthens
     * the list; a failure leaves the list alone. Loading ends either way.
     */
    method DeleteBookingSettled<B>(bookingId: string, response: Response<B>)
      modifies this
      ensures !isLoading
      ensures OkBody(response).Some? ==> bookings == RemoveId(old(bookings), BookingId, bookingId)
      ensures OkBody(response).Some? ==> |bookings| <= |old(bookings)|
      ensures OkBody(response).None? ==> bookings == old(bookings)
    {
      if OkBody(response).Some? {
        bookings, isLoading := RemoveId(bookings, BookingId, bookingId), false;
      } else {
        isLoading := false;
      }
    }
  }
}

/**
 * The vocabulary the three page controllers share: the GraphQL requests they
 * can issue, what comes back from the network, the authentication context
 * they read, and the two small checks every response callback performs.
 */
module Api {

  datatype Option<+T> = None | Some(value: T)

  /** The authentication context as a page reads it (`this.context.token`, `this.context.userId`). */
  datatype Session = Session(token: Option<string>, userId: Option<string>)

  /**
   * A GraphQL request, identified by the operation it names and the variables
   * it carries. Requests that send an `Authorization: Bearer <token>` header
   * carry the token they were built with (a null token is sent as well).
   * Event dates are the integer timestamps whose ISO rendering is sent.
   */
  datatype Request =
    | CreateEvent(title: string, description: string, startDate: int, endDate: int,
                  pplLimit: string, token: Option<string>)
    | ListEvents
    | DeleteEvent(eventId: string, token: Option<string>)
    | BookEvent(eventId: string, token: Option<string>)
    | ListBookings(token: Option<string>)
    | CancelBooking(bookingId: string, token: Option<string>)
    | Login(email: string, password: string)
    | CreateUser(email: string, password: string)

  /**
   * What the synchronous part of a handler did: a TypeError escaped it (a
   * method called on a null input), it returned without a request, or it
   * issued exactly one request.
   */
  datatype Dispatch = Threw | Returned | Sent(request: Request)

  /**
   * How a request's promise settles: it is rejected (network error, or a
   * body that is not JSON), or a response arrives with an HTTP status and a
   * parsed body.
   */
  datatype Response<+B> = Rejected | Received(status: int, body: B)

  /** The only statuses the callbacks accept; all others throw "Failed!". */
  predicate IsOkStatus(status: int) {
    status == 200 || status == 201
  }

  /**
   * The body the second `.then` receives, or None when the chain goes to
   * `.catch` instead: a rejection, or a status other than 200 and 201.
   */
  function OkBody<B>(r: Response<B>): Option<B> {
    if r.Received? && IsOkStatus(r.status) then Some(r.body) else None
  }

  /**
   * For a callback that reads `resData.data` directly in its `.then` (the
   * events list, the bookings list, the login reply): the field when the
   * status is accepted and the field is there. When it is missing, that
   * `.then` throws a TypeError and the chain goes to `.catch`.
   */
  function DataOf<D>(r: Response<Option<D>>): Option<D> {
    if r.Received? && IsOkStatus(r.status) then r.body else None
  }

  /** JavaScript truthiness of a nullable string: neither null nor empty. */
  predicate Truthy(s: Option<string>) {
    s.Some? && s.value != ""
  }
}

# EasyBook page controllers in Dafny

EasyBook is a browser client for an event-booking GraphQL service. Its only
logic beyond rendering is the client-side state each page keeps and the
way that state is reconciled with the responses to its requests. This
project models the three page controllers:

- the **events page** (`EventsPage`): the cached event list, the
  create-event form and modal, the event selected for the detail modal, a
  loading flag and the liveness flag that stops a late list fetch from
  touching an unmounted page;
- the **bookings page** (`BookingsPage`): the cached booking list and its
  loading flag;
- the **sign-in page** (`AuthPage`): the login/sign-up toggle, the input
  checks, the choice between the Login query and the CreateUser mutation,
  and when the authentication context's `login` is called.

Each page is a Dafny `class` whose fields are the component's state fields
and whose methods are its handlers. A handler that calls the server is two
methods, as the source is written: the synchronous part, which updates the
state and returns the `Dispatch` it made (`Threw`, `Returned` or
`Sent(request)`), and its `...Settled` continuation, the `.then`/`.catch`
chain, which takes the request's `Response` (`Rejected`, or
`Received(status, body)`) and updates the state.
The network, the clock and the authentication context are parameters:
`now` is an integer timestamp, and the context is a `Session` holding the
token and user id.

The inputs start out null in the source, and `.trim()` or `.getTime()` on
a null input throws a TypeError. The model keeps them as `Option` values and
reports that case as `Dispatch.Threw`, in the order in which the source
evaluates its checks (`Events.CheckEventForm`, `Auth.AuthPage.Submit`).
`.trim()` is modelled with ECMAScript's set of white-space and
line-terminator code points (`Text.Trim`). Filtering a list by id and
finding an event by id are generic functions in `Lists`, with lemmas that pin
the filter's result down exactly: the kept elements in their order, every
occurrence of each one, and nothing with the removed id.

Files: `api.dfy` (shared types and response checks), `text.dfy` (trimming),
`lists.dfy` (filter and find by id), `events.dfy`, `bookings.dfy`,
`auth.dfy`.

Only statuses 200 and 201 are accepted; every other status, including
other 2xx codes, takes the failure path (`Api.OkBody`). The bookings page shows every
booking it fetches; it does not filter out bookings of past events.

## Model

| member | source | states |
|---|---|---|
| `Text.Trim` | src/pages/Auth.js:54 | the trimmed string is a slice of the input after its longest white-space prefix, with only white space after it; it is empty exactly when every character is white space, and otherwise starts and ends with a kept character |
| `Lists.RemoveId` | src/pages/Events.js:253-255 | filtering by id never lengthens the list, and an element is in the result exactly when it is in the input and its id differs from the target |
| `Lists.RemoveIdKeepsOrder` | src/pages/Bookings.js:146-148 | the filtered list is a subsequence of the original: the remaining elements keep their order |
| `Lists.RemoveIdCounts` | src/pages/Events.js:253-255 | each element with another id keeps all its occurrences and each element with the target id keeps none |
| `Lists.RemoveIdAbsent` | src/pages/Bookings.js:146-148 | if no element has the target id, the filtered list equals the original |
| `Lists.RemoveIdShrinks` | src/pages/Bookings.js:146-148 | if some element has the target id, the filtered list is strictly shorter |
| `Lists.RemoveIdIdempotent` | src/pages/Bookings.js:146-148 | filtering the same id a second time changes nothing |
| `Lists.FirstWithId` | src/pages/Events.js:214 | `find` by id gives nothing exactly when no element has the id, and otherwise an element at an index with that id before which no element has it |
| `Events.CheckEventForm` | src/pages/Events.js:76-90 | the form passes exactly when all five inputs are present, title, description and people limit are non-blank, and now < start < end, and then it passes the inputs unchanged; it throws exactly when a date or the title is null, or when the first tests pass and the description is null, or the description passes and the limit is null |
| `Events.EventsPage.constructor` | src/pages/Events.js:49-61 | not creating, empty list, not loading, nothing selected, all inputs null, page active |
| `Events.EventsPage.StartCreateEvent` | src/pages/Events.js:70-72 | opens the create modal and changes nothing else |
| `Events.EventsPage.ModalConfirm` | src/pages/Events.js:74-128 | closes the create modal whatever the form holds; sends the CreateEvent mutation with the checked inputs and the session token exactly when the form passes, returns silently when it is refused and throws when it hits a null input; the list and the other fields are unchanged |
| `Events.EventsPage.ModalConfirmSettled` | src/pages/Events.js:129-154 | an accepted create response leaves the old list as it is and appends one record with the id, title, description and dates of the returned `data.createEvent`, no limit or count, and creator id equal to the session's user id; a rejection or another status leaves the list unchanged; nothing else changes |
| `Events.EventsPage.ModalCancel` | src/pages/Events.js:157-159 | closes the create modal and clears the selected event, nothing else |
| `Events.EventsPage.FetchEvents` | src/pages/Events.js:161-190 | sets loading and sends the events query, leaving the rest unchanged |
| `Events.EventsPage.FetchEventsSettled` | src/pages/Events.js:191-208 | on a mounted page, an accepted response with `data.events` replaces the list with it and any outcome clears loading; on an unmounted page neither the list nor loading changes; the other fields never change |
| `Events.EventsPage.ShowDetail` | src/pages/Events.js:211-217 | the selected event becomes the first listed event with the clicked id, or nothing if none has it; nothing else changes |
| `Events.EventsPage.DeleteEvent` | src/pages/Events.js:219-243 | sets loading and sends the DeleteEvent mutation for the clicked id with the session token |
| `Events.EventsPage.DeleteEventSettled` | src/pages/Events.js:244-262 | clears loading either way; an accepted response removes every event with that id from the list, keeping the others in order; a failure leaves the list unchanged |
| `Events.EventsPage.BookEvent` | src/pages/Events.js:265-294 | without a truthy token it clears the selected event and sends nothing; with one it leaves the selection as it is and sends BookEvent for the selected event's id, or throws if none is selected |
| `Events.EventsPage.BookEventSettled` | src/pages/Events.js:295-307 | an accepted response clears the selected event and a failure leaves it; the list is never touched |
| `Events.EventsPage.ComponentWillUnmount` | src/pages/Events.js:310-312 | clears the liveness flag and nothing else |
| `Events.UnmountBeforeFetchSettles` | src/pages/Events.js:199-207 | a list fetch whose response arrives after unmounting leaves the list as it was |
| `Bookings.BookingsPage.constructor` | src/pages/Bookings.js:51-54 | not loading, empty list |
| `Bookings.BookingsPage.FetchBookings` | src/pages/Bookings.js:62-93 | sets loading, keeps the list and sends the bookings query with the session token |
| `Bookings.BookingsPage.FetchBookingsSettled` | src/pages/Bookings.js:94-108 | clears loading either way; an accepted response with `data.bookings` makes the list exactly that list; a failure leaves it unchanged |
| `Bookings.BookingsPage.DeleteBooking` | src/pages/Bookings.js:111-136 | sets loading, keeps the list and sends the CancelBooking mutation for the clicked id with the session token |
| `Bookings.BookingsPage.DeleteBookingSettled` | src/pages/Bookings.js:137-155 | clears loading either way; an accepted response removes every booking with that id, keeping the others in order, so the list is no longer than before; a failure leaves it unchanged |
| `Auth.LoginCall` | src/pages/Auth.js:103-121 | `login` is called exactly when an accepted response carries `data.login` with a truthy token, and then with the token, user id and expiration in that order; rejections, other statuses, a missing `data` and a sign-up response never call it |
| `Auth.AuthPage.constructor` | src/pages/Auth.js:35-39 | login mode, both inputs null |
| `Auth.AuthPage.SwitchMode` | src/pages/Auth.js:44-48 | negates the mode and keeps the inputs |
| `Auth.SwitchModeTwice` | src/pages/Auth.js:44-48 | two toggles restore the mode |
| `Auth.AuthPage.Submit` | src/pages/Auth.js:50-92 | a request is sent exactly when email and password are present and non-blank after trimming; it throws exactly when the email is null, or the email is non-blank and the password is null; the request is Login in login mode and CreateUser otherwise, each with the email and password unchanged; the state is not changed |

## Left out

- Rendering: the JSX, the MUI components, theming, `Copyright`, navigation links and the modal and backdrop components. The modal's `onChange` callbacks only store an input; in the model a caller writes the input fields directly.
- `Bookings.js:161-246`: a create and detail modal left over in the bookings page's render, driven by state and handlers the component never defines.
- `componentDidMount` on both pages: it only calls the fetch, which is modelled.
- The network: `fetch`, headers, `JSON.stringify` and `res.json()`. A request is an operation tag with its variables, and a body that is not JSON counts as a rejected promise.
- Dates: `Date`, `toISOString` and `toLocaleString`. Timestamps are integers and the request carries the timestamps whose ISO text is sent. An Invalid Date from a picker is not modelled.
- Events.EventsPage.ModalConfirmSettled: an accepted create reply is assumed to carry `data.createEvent`. The source reads it inside the function it passes to `setState` (src/pages/Events.js:137-149), so a reply without it fails while React applies the update, outside the promise chain and past its `.catch`; what React then does to the page is not modelled.
- Response shapes beyond what the callbacks read: a response whose `data` is present but whose record lacks a field, or whose `data.events` or `data.bookings` is null, is not modelled.
- Text: JavaScript strings are UTF-16 code units, while Dafny strings here are sequences of Unicode scalar values. Every character that `trim` removes is a single code unit, so the difference does not affect the checks.
- Timing: the interleaving of several outstanding requests and React's asynchronous merging of `setState`. A continuation is a separate method. A caller may run other handlers before it, but no property here is stated about such interleavings. A `setState` queued before a TypeError in the same handler is treated as applied.
- `console.log` and `event.preventDefault()`.
- The authentication context's implementation. Its token and user id are the `Session` parameter, and the call to `login` is the value `Auth.LoginCall` returns.

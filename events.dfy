/**
 * The events page (`EventsPage` in src/pages/Events.js): the cached list of
 * events, the create-event form and its modal, the event picked for the
 * detail modal and the liveness flag checked by the list fetch.
 *
 * Every handler that talks to the server is split the way the source is:
 * the synchronous part, which updates state and returns what it dispatched,
 * and its `...Settled` continuation, the `.then`/`.catch` chain that runs
 * when the request's promise settles and receives that request's Response.
 */
module Events {

  import opened Api
  import opened Text
  import opened Lists

  datatype Creator = Creator(id: Option<string>, email: Option<string>)

  /** An event as the page lists it; fields a record lacks are None. */
  datatype Event = Event(
    id: string, title: string, description: string,
    startDate: string, endDate: string,
    pplLimit: Option<int>, pplCount: Option<int>,
    creator: Creator)

  function EventId(e: Event): string { e.id }

  /** `data.createEvent` of a create response. */
  datatype CreatedEvent = CreatedEvent(
    id: string, title: string, description: string,
    startDate: string, endDate: string, pplLimit: int)

  /**
   * The form inputs as the page's state holds them. All start out null; the
   * dates are the pickers' timestamps.
   */
  datatype EventForm = EventForm(
    title: Option<string>, description: Option<string>,
    start: Option<int>, end: Option<int>, pplLimit: Option<string>)

  /** What the create-event check ends in: a TypeError, a silent return, or the variables of the request. */
  datatype FormCheck =
    | Throws
    | Refused
    | Passed(title: string, description: string, start: int, end: int, pplLimit: string)

  /** The rules a complete form must meet before an event is created. */
  predicate MeetsEventRules(title: string, description: string, start: int, end: int, pplLimit: string, now: int) {
    && !IsBlank(title) && !IsBlank(description) && !IsBlank(pplLimit)
    && now < start && start < end
  }

  /**
   * The check `modalConfirmHandler` makes before creating an event, in the
   * source's evaluation order: both dates are read first (`getTime()` on a
   * null date throws), then the `||` chain runs left to right and stops at
   * its first true operand, so a null description or people limit throws
   * only if every earlier test passed.
   */
  function CheckEventForm(f: EventForm, now: int): (c: FormCheck)
    ensures c.Passed? <==>
      && f.title.Some? && f.description.Some? && f.start.Some? && f.end.Some? && f.pplLimit.Some?
      && MeetsEventRules(f.title.value, f.description.value, f.start.value, f.end.value, f.pplLimit.value, now)
    ensures c.Passed? ==>
      c == Passed(f.title.value, f.description.value, f.start.value, f.end.value, f.pplLimit.value)
    ensures c.Throws? <==>
      || f.start.None? || f.end.None? || f.title.None?
      || (&& !IsBlank(f.title.value) && now < f.start.value < f.end.value
          && (f.description.None? || (!IsBlank(f.description.value) && f.pplLimit.None?)))
  {
    if f.start.None? || f.end.None? || f.title.None? then Throws
    else if IsBlank(f.title.value) || f.start.value <= now || f.start.value >= f.end.value then Refused
    else if f.description.None? then Throws
    else if IsBlank(f.description.value) then Refused
    else if f.pplLimit.None? then Throws
    else if IsBlank(f.pplLimit.value) then Refused
    else Passed(f.title.value, f.description.value, f.start.value, f.end.value, f.pplLimit.value)
  }

  class EventsPage {
    var creating: bool
    var events: seq<Event>
    var isLoading: bool
    var selectedEvent: Option<Event>
    // The form inputs; the modal's onChange callbacks write them directly.
    var titleInput: Option<string>
    var descriptionInput: Option<string>
    var startDateInput: Option<int>
    var endDateInput: Option<int>
    var pplLimitInput: Option<string>
    /** False once the page has unmounted. */
    var isActive: bool

    function Form(): EventForm
      reads this
    {
      EventForm(titleInput, descriptionInput, startDateInput, endDateInput, pplLimitInput)
    }

    /** The initial state. */
    constructor ()
      ensures !creating && events == [] && !isLoading && selectedEvent == None
      ensures Form() == EventForm(None, None, None, None, None)
      ensures isActive
    {
      creating, events, isLoading, selectedEvent := false, [], false, None;
      titleInput, descriptionInput, startDateInput, endDateInput, pplLimitInput := None, None, None, None, None;
      isActive := true;
    }

    /** `startCreateEventHandler`: opens the create modal. */
    method StartCreateEvent()
      modifies this
      ensures creating
      ensures events == old(events) && isLoading == old(isLoading) && selectedEvent == old(selectedEvent)
      ensures Form() == old(Form()) && isActive == old(isActive)
    {
      creating := true;
    }

    /**
     * `modalConfirmHandler`, synchronous part: closes the modal whatever
     * follows, then checks the form against `now`; only a form that passes
     * leads to the CreateEvent mutation, sent with the session's token.
     */
    method ModalConfirm(now: int, session: Session) returns (d: Dispatch)
      modifies this
      ensures !creating
      ensures events == old(events) && isLoading == old(isLoading) && selectedEvent == old(selectedEvent)
      ensures Form() == old(Form()) && isActive == old(isActive)
      ensures match CheckEventForm(Form(), now)
        case Passed(t, desc, s, e, p) => d == Sent(CreateEvent(t, desc, s, e, p, session.token))
        case Refused => d == Returned
        case Throws => d == Threw
    {
      creating := false;
      var check := CheckEventForm(Form(), now);
      match check
      case Throws => d := Threw;
      case Refused => d := Returned;
      case Passed(t, desc, s, e, p) => d := Sent(CreateEvent(t, desc, s, e, p, session.token));
    }

    /**
     * `modalConfirmHandler`, continuation: on an accepted response the old
     * list stays as it is and exactly one record is appended, with the fields
     * of the returned `data.createEvent` and the creator id read from the
     * session at that moment; on a failure nothing changes.
     */
    method ModalConfirmSettled(session: Session, response: Response<CreatedEvent>)
      modifies this
      ensures OkBody(response).Some? ==>
        var c := response.body;
        events == old(events) + [Event(c.id, c.title, c.description, c.startDate, c.endDate,
                                       None, None, Creator(session.userId, None))]
      ensures OkBody(response).None? ==> events == old(events)
      ensures creating == old(creating) && isLoading == old(isLoading) && selectedEvent == old(selectedEvent)
      ensures Form() == old(Form()) && isActive == old(isActive)
    {
      var created := OkBody(response);
      if created.Some? {
        var c := created.value;
        var updatedEvents := events;
        updatedEvents := updatedEvents + [Event(c.id, c.title, c.description, c.startDate, c.endDate,
                                                None, None, Creator(session.userId, None))];
        events := updatedEvents;
      }
    }

    /** `modalCancelHandler`: closes both modals. */
    method ModalCancel()
      modifies this
      ensures !creating && selectedEvent == None
      ensures events == old(events) && isLoading == old(isLoading)
      ensures Form() == old(Form()) && isActive == old(isActive)
    {
      creating, selectedEvent := false, None;
    }

    /** `fetchEvents`, synchronous part: marks the page loading and sends the events query, unauthenticated. */
    method FetchEvents() returns (req: Request)
      modifies this
      ensures isLoading && req == ListEvents
      ensures creating == old(creating) && events == old(events) && selectedEvent == old(selectedEvent)
      ensures Form() == old(Form()) && isActive == old(isActive)
    {
      isLoading := true;
      req := ListEvents;
    }

    /**
     * `fetchEvents`, continuation: while the page is mounted, an accepted
     * response carrying `data.events` replaces the list and either outcome
     * ends loading; once the page has unmounted, neither outcome changes
     * anything.
     */
    method FetchEventsSettled(response: Response<Option<seq<Event>>>)
      modifies this
      ensures old(isActive) ==> !isLoading
      ensures old(isActive) && DataOf(response).Some? ==> events == DataOf(response).value
      ensures !old(isActive) || DataOf(response).None? ==> events == old(events)
      ensures !old(isActive) ==> isLoading == old(isLoading)
      ensures creating == old(creating) && selectedEvent == old(selectedEvent)
      ensures Form() == old(Form()) && isActive == old(isActive)
    {
      var fetched := DataOf(response);
      if isActive {
        if fetched.Some? {
          events, isLoading := fetched.value, false;
        } else {
          isLoading := false;
        }
      }
    }

    /** `showDetailHandler`: selects the first listed event with the clicked id, or nothing when none has it. */
    method ShowDetail(eventId: string)
      modifies this
      ensures selectedEvent == FirstWithId(events, EventId, eventId)
      ensures creating == old(creating) && events == old(events) && isLoading == old(isLoading)
      ensures Form() == old(Form()) && isActive == old(isActive)
    {
      selectedEvent := FirstWithId(events, EventId, eventId);
    }

    /** `deleteEventHandler`, synchronous part: marks the page loading and sends the DeleteEvent mutation. */
    method DeleteEvent(eventId: string, session: Session) returns (req: Request)
      modifies this
      ensures isLoading && req == Request.DeleteEvent(eventId, session.token)
      ensures creating == old(creating) && events == old(events) && selectedEvent == old(selectedEvent)
      ensures Form() == old(Form()) && isActive == old(isActive)
    {
      isLoading := true;
      req := Request.DeleteEvent(eventId, session.token);
    }

    /**
     * `deleteEventHandler`, continuation: an accepted response drops every
     * event with that id and keeps the rest in order; a failure leaves the
     * list alone. Loading ends either way.
     */
    method DeleteEventSettled<B>(eventId: string, response: Response<B>)
      modifies this
      ensures !isLoading
      ensures OkBody(response).Some? ==> events == RemoveId(old(events), EventId, eventId)
      ensures OkBody(response).None? ==> events == old(events)
      ensures creating == old(creating) && selectedEvent == old(selectedEvent)
      ensures Form() == old(Form()) && isActive == old(isActive)
    {
      if OkBody(response).Some? {
        events, isLoading := RemoveId(events, EventId, eventId), false;
      } else {
        isLoading := false;
      }
    }

    /**
     * `bookEventHandler`, synchronous part: without a (truthy) token it only
     * closes the detail modal; with one it sends the BookEvent mutation for
     * the selected event, and throws when no event is selected.
     */
    method BookEvent(session: Session) returns (d: Dispatch)
      modifies this
      ensures !Truthy(session.token) ==> d == Returned && selectedEvent == None
      ensures Truthy(session.token) ==> selectedEvent == old(selectedEvent)
      ensures Truthy(session.token) && old(selectedEvent).None? ==> d == Threw
      ensures Truthy(session.token) && old(selectedEvent).Some? ==>
        d == Sent(Request.BookEvent(old(selectedEvent).value.id, session.token))
      ensures creating == old(creating) && events == old(events) && isLoading == old(isLoading)
      ensures Form() == old(Form()) && isActive == old(isActive)
    {
      if !Truthy(session.token) {
        selectedEvent := None;
        return Returned;
      }
      if selectedEvent.None? {
        return Threw;
      }
      d := Sent(Request.BookEvent(selectedEvent.value.id, session.token));
    }

    /**
     * `bookEventHandler`, continuation: an accepted response closes the
     * detail modal; a failure leaves it open. The list is not touched.
     */
    method BookEventSettled<B>(response: Response<B>)
      modifies this
      ensures selectedEvent == if OkBody(response).Some? then None else old(selectedEvent)
      ensures creating == old(creating) && events == old(events) && isLoading == old(isLoading)
      ensures Form() == old(Form()) && isActive == old(isActive)
    {
      if OkBody(response).Some? {
        selectedEvent := None;
      }
    }

    /** `componentWillUnmount`: clears the liveness flag and nothing else. */
    method ComponentWillUnmount()
      modifies this
      ensures !isActive
      ensures creating == old(creating) && events == old(events) && isLoading == old(isLoading)
      ensures selectedEvent == old(selectedEvent) && Form() == old(Form())
    {
      isActive := false;
    }
  }

  /**
   * A list fetch that is still pending when the page unmounts no longer
   * reaches the state, whatever its response.
   */
  method UnmountBeforeFetchSettles(page: EventsPage, response: Response<Option<seq<Event>>>)
    modifies page
    ensures page.events == old(page.events) && page.isLoading
  {
    var req := page.FetchEvents();
    page.ComponentWillUnmount();
    page.FetchEventsSettled(response);
  }
}

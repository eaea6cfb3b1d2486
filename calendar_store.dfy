/** The calendar service the app talks to (EventKit's event store), as an
    abstract value: the records it holds and the answers it gives. Only the
    answers the app relies on are modelled; querying, prompting and
    recurring-event expansion are the platform's. */
module CalendarStore {
  import opened Wrappers

  /** The two independent data domains of the store (`EKEntityType`). */
  datatype EntityType = Events | Reminders

  /** The platform's authorization state for one domain
      (`EKAuthorizationStatus`); `Unrecognized` stands for any value the
      app's `switch` does not name. */
  datatype AuthorizationStatus =
    | NotDetermined
    | Restricted
    | Denied
    | Authorized
    | Unrecognized(raw: int)

  /** A calendar (`EKCalendar`): an event calendar or a reminder list. */
  datatype Calendar = Calendar(id: string, title: string, kind: EntityType)

  /** An event (`EKEvent`), with times in whole seconds. */
  datatype Event = Event(id: string, title: string, start: int, end: int, calendarId: string)

  /** A reminder (`EKReminder`); its title may be missing. */
  datatype Reminder = Reminder(id: string, title: Option<string>, isCompleted: bool, calendarId: string)

  /** The elements of `xs` that satisfy `keep`, in order, each kept as
      often as it occurs in `xs`. */
  function Filter<T(==,!new)>(xs: seq<T>, keep: T -> bool): (r: seq<T>)
    ensures |r| <= |xs|
    ensures forall x :: x in r <==> x in xs && keep(x)
    ensures multiset(r) <= multiset(xs)
    ensures forall x {:trigger multiset(r)[x]} :: multiset(r)[x] == if keep(x) then multiset(xs)[x] else 0
  {
    if xs == [] then []
    else
      assert xs == [xs[0]] + xs[1..];
      (if keep(xs[0]) then [xs[0]] else []) + Filter(xs[1..], keep)
  }

  /** Is a record owned by `calendarId` inside `scope`? An empty scope is
      read as every calendar. */
  predicate InScope(calendarId: string, scope: seq<Calendar>)
  {
    scope == [] || exists c :: c in scope && c.id == calendarId
  }

  lemma SingleScope(calendarId: string, c: Calendar)
    ensures InScope(calendarId, [c]) <==> calendarId == c.id
  {
    if calendarId == c.id {
      assert c in [c];
    }
  }

  /** Does event `e` fall in the closed window [from, to]? Events that
      overlap the window count, as the platform reports them. */
  predicate OverlapsWindow(e: Event, from: int, to: int)
  {
    e.start <= to && from <= e.end
  }

  /** A snapshot of the store, with the answer the user would give to a
      permission prompt for each domain, and whether a reminder fetch comes
      back without a list. */
  datatype Store = Store(
    calendars: seq<Calendar>,
    events: seq<Event>,
    reminders: seq<Reminder>,
    eventStatus: AuthorizationStatus,
    reminderStatus: AuthorizationStatus,
    eventPromptAnswer: bool,
    reminderPromptAnswer: bool,
    reminderFetchFails: bool)
  {
    function StatusFor(t: EntityType): AuthorizationStatus
    {
      match t
      case Events => eventStatus
      case Reminders => reminderStatus
    }

    function PromptAnswer(t: EntityType): bool
    {
      match t
      case Events => eventPromptAnswer
      case Reminders => reminderPromptAnswer
    }

    /** The calendars of one domain (`calendars(for:)`). */
    function CalendarsFor(t: EntityType): (r: seq<Calendar>)
      ensures forall c :: c in r <==> c in calendars && c.kind == t
    {
      Filter(calendars, (c: Calendar) => c.kind == t)
    }

    /** The events of `scope` in the window [from, to]
        (`predicateForEvents` followed by `events(matching:)`). */
    function EventsMatching(from: int, to: int, scope: seq<Calendar>): (r: seq<Event>)
      ensures multiset(r) <= multiset(events)
      ensures forall e :: e in r <==> e in events && OverlapsWindow(e, from, to) && InScope(e.calendarId, scope)
      ensures forall e {:trigger multiset(r)[e]} :: multiset(r)[e] ==
                if OverlapsWindow(e, from, to) && InScope(e.calendarId, scope) then multiset(events)[e] else 0
    {
      Filter(events, (e: Event) => OverlapsWindow(e, from, to) && InScope(e.calendarId, scope))
    }

    /** The reminders of `scope` (`fetchReminders(matching:)`), or `None`
        when the fetch hands back nil. */
    function FetchReminders(scope: seq<Calendar>): (r: Option<seq<Reminder>>)
      ensures r.Some? <==> !reminderFetchFails
      ensures r.Some? ==> forall x :: x in r.value <==> x in reminders && InScope(x.calendarId, scope)
      ensures r.Some? ==>
                forall x {:trigger multiset(r.value)[x]} :: multiset(r.value)[x] == if InScope(x.calendarId, scope) then multiset(reminders)[x] else 0
    {
      if reminderFetchFails then None
      else Some(Filter(reminders, (x: Reminder) => InScope(x.calendarId, scope)))
    }
  }

  /** Every event of the store ends no earlier than it starts. */
  predicate WellFormedEvents(store: Store)
  {
    forall e :: e in store.events ==> e.start <= e.end
  }
}

/** `EventsCalendarManager`: the app's gateway to the calendar service.
    Its fields are set once when it is created, so it is a value here and
    every operation is a function of it and of the store. */
module EventKitManager {
  import opened Wrappers
  import opened CalendarStore
  import opened LikePattern

  /** Seconds in the trailing year searched for events (365 days). */
  const SecondsPerYear: int := 60 * 60 * 24 * 365

  /** The manager's state: the two ends of the search window, both read
      from the clock when the manager is created. */
  datatype EventsCalendarManager = EventsCalendarManager(today: int, oneYearAgo: int)

  /** Creates a manager at clock time `now`. */
  function NewManager(now: int): (m: EventsCalendarManager)
    ensures m.today == now
    ensures m.today - m.oneYearAgo == 31536000
  {
    EventsCalendarManager(now, now - SecondsPerYear)
  }

  /** What a call to `checkAuthorization` does: how many permission prompts
      it shows, and the values it passes to its completion handler, in
      order. */
  datatype AuthOutcome = AuthOutcome(prompts: nat, completions: seq<bool>)
  {
    /** The handler ran once, with `true`. */
    predicate Granted()
    {
      completions == [true]
    }
  }

  /** Turns the store's authorization state for `t` into a yes/no answer.
      Only an undetermined state prompts the user, and then the user's
      answer is the result. The prompt's callback is taken to fire once. */
  function CheckAuthorization(store: Store, t: EntityType): (r: AuthOutcome)
    ensures |r.completions| == 1
    ensures r.prompts == (if store.StatusFor(t) == NotDetermined then 1 else 0)
    ensures r.Granted() <==>
              store.StatusFor(t) == Authorized
              || (store.StatusFor(t) == NotDetermined && store.PromptAnswer(t))
  {
    match store.StatusFor(t)
    case Authorized => AuthOutcome(0, [true])
    case NotDetermined =>
      var accessGranted := store.PromptAnswer(t);
      AuthOutcome(1, if accessGranted then [true] else [false])
    case Denied | Restricted => AuthOutcome(0, [false])
    case Unrecognized(_) => AuthOutcome(0, [false])
  }

  /** The calendars a search is restricted to: the given one, or none at
      all. */
  function CalendarScope(calendar: Option<Calendar>): (r: seq<Calendar>)
    ensures |r| <= 1
    ensures forall c :: c in r <==> calendar == Some(c)
  {
    if calendar.Some? then [calendar.value] else []
  }

  /** The events of the manager's window, in the scope of `calendar`, whose
      title matches `eventTitle` read as a `LIKE` pattern. */
  function FindNamedEvents(m: EventsCalendarManager, store: Store, eventTitle: string,
                           calendar: Option<Calendar>): (r: seq<Event>)
    ensures multiset(r) <= multiset(store.events)
    ensures forall e :: e in r <==>
              && e in store.events
              && OverlapsWindow(e, m.oneYearAgo, m.today)
              && InScope(e.calendarId, CalendarScope(calendar))
              && Like(e.title, eventTitle)
    ensures forall e {:trigger multiset(r)[e]} :: multiset(r)[e] ==
              if && OverlapsWindow(e, m.oneYearAgo, m.today)
                 && InScope(e.calendarId, CalendarScope(calendar))
                 && Like(e.title, eventTitle)
              then multiset(store.events)[e] else 0
  {
    var calendars := CalendarScope(calendar);
    var events := store.EventsMatching(m.oneYearAgo, m.today, calendars);
    Filter(events, (e: Event) => Like(e.title, eventTitle))
  }

  /** The window is the year before the manager's creation, whenever the
      search runs: a search never reports an event lying wholly outside
      [now - 365 days, now] for the creation time `now`. */
  lemma WindowFixedAtCreation(now: int, store: Store, eventTitle: string, calendar: Option<Calendar>)
    ensures forall e :: e in FindNamedEvents(NewManager(now), store, eventTitle, calendar) ==>
              e.start <= now && now - 31536000 <= e.end
  {
  }

  /** A search scoped to one calendar only reports that calendar's events. */
  lemma ScopedSearchStaysInCalendar(m: EventsCalendarManager, store: Store, eventTitle: string, c: Calendar)
    ensures forall e :: e in FindNamedEvents(m, store, eventTitle, Some(c)) ==> e.calendarId == c.id
  {
    forall e | e in FindNamedEvents(m, store, eventTitle, Some(c)) ensures e.calendarId == c.id {
      SingleScope(e.calendarId, c);
    }
  }

  /** A title with no `*` or `?` finds only events with exactly that
      title (case included). */
  lemma LiteralTitleFindsOnlyIdentical(m: EventsCalendarManager, store: Store, eventTitle: string,
                                       calendar: Option<Calendar>)
    requires NoWildcards(eventTitle)
    ensures forall e :: e in FindNamedEvents(m, store, eventTitle, calendar) ==> e.title == eventTitle
  {
    forall e | e in FindNamedEvents(m, store, eventTitle, calendar) ensures e.title == eventTitle {
      LikeLiteral(e.title, eventTitle);
    }
  }

  /** An event of the window and the scope whose title equals the searched
      title is always found, wildcards or not. */
  lemma IdenticalTitleAlwaysFound(m: EventsCalendarManager, store: Store, e: Event, calendar: Option<Calendar>)
    requires e in store.events
    requires OverlapsWindow(e, m.oneYearAgo, m.today)
    requires InScope(e.calendarId, CalendarScope(calendar))
    ensures e in FindNamedEvents(m, store, e.title, calendar)
  {
    LikeSelf(e.title);
  }

  /** The title is not escaped: searching for "Gym*" also finds an event
      titled "Gym class". */
  lemma UnescapedTitleOvermatches(m: EventsCalendarManager, store: Store, e: Event, calendar: Option<Calendar>)
    requires e in store.events && e.title == "Gym class"
    requires OverlapsWindow(e, m.oneYearAgo, m.today)
    requires InScope(e.calendarId, CalendarScope(calendar))
    ensures e in FindNamedEvents(m, store, "Gym*", calendar)
  {
    WildcardMatchesOtherTitle();
  }

  /** The reminders of the one list `calendar`, or `None` when the store's
      fetch hands back nil, in which case the completion handler never
      runs. */
  function FindReminders(store: Store, calendar: Calendar): (r: Option<seq<Reminder>>)
    ensures r.Some? <==> !store.reminderFetchFails
    ensures r.Some? ==> forall x :: x in r.value <==> x in store.reminders && x.calendarId == calendar.id
    ensures r.Some? ==>
              forall x {:trigger multiset(r.value)[x]} :: multiset(r.value)[x] == if x.calendarId == calendar.id then multiset(store.reminders)[x] else 0
  {
    var result := store.FetchReminders([calendar]);
    forall x: Reminder ensures InScope(x.calendarId, [calendar]) <==> x.calendarId == calendar.id {
      SingleScope(x.calendarId, calendar);
    }
    result
  }

  /** The calendars of domain `t`. */
  function ListCalendars(store: Store, t: EntityType): (r: seq<Calendar>)
    ensures forall c :: c in r <==> c in store.calendars && c.kind == t
  {
    store.CalendarsFor(t)
  }
}

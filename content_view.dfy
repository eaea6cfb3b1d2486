/** The selection logic of `ContentView`: the view's state, the three
    private operations that update it when a picker changes, the hours fold
    and the status line. Rendering is not modelled. */
module ContentView {
  import opened Wrappers
  import opened CalendarStore
  import opened EventKitManager

  /** One event's length in hours. */
  function EventHours(e: Event): real
  {
    (e.end - e.start) as real / 3600.0
  }

  /** The `reduce` in `search`: a left fold adding each event's hours to the
      running total `acc`. */
  function ReduceHours(acc: real, events: seq<Event>): real
    decreases |events|
  {
    if events == [] then acc else ReduceHours(acc + EventHours(events[0]), events[1..])
  }

  /** Reference definition: the summed length of the events in seconds. */
  function DurationSeconds(events: seq<Event>): int
  {
    if events == [] then 0 else (events[0].end - events[0].start) + DurationSeconds(events[1..])
  }

  /** The fold adds exactly the events' total length, in hours, to its
      starting value. */
  lemma {:induction false} ReduceHoursAddsDuration(acc: real, events: seq<Event>)
    ensures ReduceHours(acc, events) == acc + DurationSeconds(events) as real / 3600.0
    decreases |events|
  {
    if events != [] {
      ReduceHoursAddsDuration(acc + EventHours(events[0]), events[1..]);
    }
  }

  lemma {:induction false} DurationSecondsNonNegative(events: seq<Event>)
    ensures (forall e :: e in events ==> e.start <= e.end) ==> DurationSeconds(events) >= 0
    decreases |events|
  {
    if events != [] {
      assert events[0] in events;
      assert forall e :: e in events[1..] ==> e in events;
      DurationSecondsNonNegative(events[1..]);
    }
  }

  lemma {:induction false} DurationSecondsAppend(a: seq<Event>, b: seq<Event>)
    ensures DurationSeconds(a + b) == DurationSeconds(a) + DurationSeconds(b)
    decreases |a|
  {
    if a == [] {
      assert a + b == b;
    } else {
      assert (a + b)[0] == a[0] && (a + b)[1..] == a[1..] + b;
      DurationSecondsAppend(a[1..], b);
    }
  }

  /** The cumulative hours of a list of matched events, as `search` computes
      it from 0: the summed lengths over 3600, so 0 for no events and never
      negative when no event ends before it starts. */
  function CumulativeHours(events: seq<Event>): (r: real)
    ensures r == DurationSeconds(events) as real / 3600.0
    ensures (forall e :: e in events ==> e.start <= e.end) ==> r >= 0.0
  {
    ReduceHoursAddsDuration(0.0, events);
    DurationSecondsNonNegative(events);
    ReduceHours(0.0, events)
  }

  /** Overlapping events are not merged: the hours of two lists together
      are the hours of each added up. */
  lemma CumulativeHoursAppend(a: seq<Event>, b: seq<Event>)
    ensures CumulativeHours(a + b) == CumulativeHours(a) + CumulativeHours(b)
  {
    DurationSecondsAppend(a, b);
  }

  /** The status line for the selected reminder. */
  function StatusLine(selected: Option<Reminder>): (r: string)
    ensures r == "Status: Complete" <==> selected.Some? && selected.value.isCompleted
    ensures r == "Status: Complete" || r == "Status: Incomplete"
  {
    var done := if selected.Some? then selected.value.isCompleted else false;
    "Status: " + (if done then "Complete" else "Incomplete")
  }

  /** The other of the two domains. */
  function OtherType(t: EntityType): (r: EntityType)
    ensures r != t
  {
    match t
    case Events => Reminders
    case Reminders => Events
  }

  /** The view's state. A picker writes its field, and the view calls the
      matching operation when a watched field changes. */
  class ContentView {
    const eventsCalendarManager: EventsCalendarManager
    var eventCalendar: Option<Calendar>
    var reminderCalendar: Option<Calendar>
    var count: real
    var calendars: map<EntityType, seq<Calendar>>
    var reminders: seq<Reminder>
    var reminder: Option<Reminder>

    /** The calendar cache always has an entry for both domains. */
    ghost predicate Valid()
      reads this
    {
      Events in calendars && Reminders in calendars
    }

    /** A fresh view, created at clock time `now`: nothing selected, empty
        caches, zero hours. */
    constructor (now: int)
      ensures Valid()
      ensures eventsCalendarManager == NewManager(now)
      ensures eventCalendar == None && reminderCalendar == None && reminder == None
      ensures count == 0.0 && reminders == []
      ensures calendars == map[Events := [], Reminders := []]
    {
      eventsCalendarManager := NewManager(now);
      eventCalendar := None;
      reminderCalendar := None;
      count := 0.0;
      calendars := map[Events := [], Reminders := []];
      reminders := [];
      reminder := None;
    }

    /** Fills the cache for domain `t` from the store, but only while that
        cache is empty and only once access is granted; returns how many
        permission prompts were shown. */
    method GetCalendars(t: EntityType, store: Store) returns (prompts: nat)
      requires Valid()
      modifies this`calendars
      ensures Valid()
      ensures calendars[OtherType(t)] == old(calendars[OtherType(t)])
      ensures old(calendars[t]) != [] ==> calendars == old(calendars) && prompts == 0
      ensures old(calendars[t]) == [] ==>
                && prompts == CheckAuthorization(store, t).prompts
                && calendars == if CheckAuthorization(store, t).Granted()
                                then old(calendars)[t := ListCalendars(store, t)]
                                else old(calendars)
    {
      prompts := 0;
      if |calendars[t]| == 0 {
        var result := CheckAuthorization(store, t);
        prompts := result.prompts;
        if result.completions[0] {
          calendars := calendars[t := ListCalendars(store, t)];
        }
      }
    }

    /** Loads the reminders of the chosen reminder list, replacing the old
        list; does nothing when no list is chosen or the fetch gives nil. */
    method SearchReminders(store: Store)
      requires Valid()
      modifies this`reminders
      ensures Valid()
      ensures reminderCalendar.None? ==> reminders == old(reminders)
      ensures reminderCalendar.Some? ==>
                reminders == FindReminders(store, reminderCalendar.value).GetOr(old(reminders))
      ensures reminderCalendar.Some? && !store.reminderFetchFails ==>
                forall x :: x in reminders <==> x in store.reminders && x.calendarId == reminderCalendar.value.id
      ensures reminderCalendar.Some? && !store.reminderFetchFails ==>
                forall x {:trigger multiset(reminders)[x]} :: multiset(reminders)[x] ==
                              if x.calendarId == reminderCalendar.value.id then multiset(store.reminders)[x] else 0
    {
      if reminderCalendar.Some? {
        var calendar := reminderCalendar.value;
        var fetched := FindReminders(store, calendar);
        if fetched.Some? {
          reminders := fetched.value;
        }
      }
    }

    /** Recomputes `count` for the selected reminder's title over the chosen
        event calendar (or every calendar); leaves it alone when no reminder
        or no title is selected. */
    method Search(store: Store)
      requires Valid()
      modifies this`count
      ensures Valid()
      ensures reminder.None? || reminder.value.title.None? ==> count == old(count)
      ensures reminder.Some? && reminder.value.title.Some? ==>
                count == CumulativeHours(FindNamedEvents(eventsCalendarManager, store,
                                                         reminder.value.title.value, eventCalendar))
      ensures WellFormedEvents(store) && old(count) >= 0.0 ==> count >= 0.0
    {
      if reminder.Some? && reminder.value.title.Some? {
        var reminderTitle := reminder.value.title.value;
        var events := FindNamedEvents(eventsCalendarManager, store, reminderTitle, eventCalendar);
        count := CumulativeHours(events);
      }
    }

    /** The event-calendar picker: it has no change handler, so `count` is
        not recomputed for the new scope. */
    method SelectEventCalendar(c: Option<Calendar>)
      requires Valid()
      modifies this`eventCalendar
      ensures Valid()
      ensures eventCalendar == c
    {
      eventCalendar := c;
    }

    /** The reminder-list picker: a change of list reloads the reminders;
        clearing the list keeps the reminders already shown. */
    method SelectReminderCalendar(c: Option<Calendar>, store: Store)
      requires Valid()
      modifies this`reminderCalendar, this`reminders
      ensures Valid()
      ensures reminderCalendar == c
      ensures c == old(reminderCalendar) || c.None? ==> reminders == old(reminders)
      ensures c != old(reminderCalendar) && c.Some? ==>
                reminders == FindReminders(store, c.value).GetOr(old(reminders))
    {
      if c != reminderCalendar {
        reminderCalendar := c;
        SearchReminders(store);
      }
    }

    /** The reminder picker: a change of reminder recomputes `count`;
        clearing the reminder keeps the last `count`. */
    method SelectReminder(r: Option<Reminder>, store: Store)
      requires Valid()
      modifies this`reminder, this`count
      ensures Valid()
      ensures reminder == r
      ensures r == old(reminder) || r.None? || r.value.title.None? ==> count == old(count)
      ensures r != old(reminder) && r.Some? && r.value.title.Some? ==>
                count == CumulativeHours(FindNamedEvents(eventsCalendarManager, store,
                                                         r.value.title.value, eventCalendar))
    {
      if r != reminder {
        reminder := r;
        Search(store);
      }
    }
  }
}

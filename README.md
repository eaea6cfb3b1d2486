# EventCounter: calendar search and hours aggregation

EventCounter is a small SwiftUI app. The user picks a reminder list, then a
reminder. The app then reports whether that reminder is done, and how many
hours of like-named calendar events were logged over the past year. This
project models the app's decision logic in Dafny and proves properties of it.

- `EventsCalendarManager` (`event_kit_manager.dfy`) maps the platform's
  authorization state to yes/no. It searches events by title in a one-year
  window, fetches the reminders of one list, and lists calendars. Its fields
  are set once at creation, so it is an immutable value and its operations
  are functions.
- The NSPredicate `LIKE` match used by the event search (`like_pattern.dfy`)
  is a glob matcher. `*` matches any run of characters and `?` matches one
  character. The reminder title is used as the pattern without escaping.
  Matching is case-sensitive.
- The calendar service (`calendar_store.dfy`) is an abstract value. It holds
  calendars, events with integer second timestamps, reminders, the
  authorization state of each domain, the answer the user would give to a
  prompt, and whether a reminder fetch returns nil.
- `ContentView` (`content_view.dfy`) is a class with the view's state fields.
  Its methods `GetCalendars`, `SearchReminders` and `Search` update those
  fields in place. The picker handlers that call them are modelled too. The
  hours `reduce` is a function. The status line is a function of the
  selected reminder.

Behaviours of the code that the model keeps as written:
- The search window is `[t0 - 365 days, t0]`, where `t0` is the time the
  manager was created. It is not recomputed when a search runs.
- Clearing the chosen reminder list leaves the previous list's reminders
  listed.
- Clearing the chosen reminder keeps the last `count`. It is not reset to 0.
- The title is not escaped before use as a `LIKE` pattern, so `*` and `?`
  in a reminder title act as wildcards. The commented-out loop in
  `findNamedEvents` compared titles for equality.
  `UnescapedTitleOvermatches` shows a title with `*` matching another title.
- A reminder fetch that returns nil never calls its completion. There is no
  timeout, and the reminder list is simply left unchanged.

Assumptions about the platform, which the app's code does not define:
- An empty calendar list passed to the event query means every calendar.
- An event is in the window when it overlaps the closed interval.
- A picker's change handler runs only when the selected value actually
  changes.

## Model

| member | source | states |
|---|---|---|
| `EventKitManager.NewManager` | EventCounter/EventKitManager.swift:16-21 | Creating the manager at time `now` fixes the window ends: `today` is `now` and `oneYearAgo` is 31,536,000 s earlier. |
| `EventKitManager.CheckAuthorization` | EventCounter/EventKitManager.swift:23-48 | The completion runs exactly once. A prompt is shown exactly when the state is not determined, and never otherwise. The result is true iff the state is authorized, or it is undetermined and the user grants access. Denied, restricted and unrecognized states give false. |
| `EventKitManager.CalendarScope` | EventCounter/EventKitManager.swift:63 | The scope holds at most one calendar: the given one, or none when no calendar is given. |
| `EventKitManager.FindNamedEvents` | EventCounter/EventKitManager.swift:62-69 | An event is in the result iff it is in the store, overlaps the manager's window, lies in the calendar scope, and its title `LIKE`-matches the searched title. Each such event occurs as often as in the store, and no other event occurs. |
| `EventKitManager.WindowFixedAtCreation` | EventCounter/EventKitManager.swift:16-17 | For a manager created at `now`, every search only returns events that overlap `[now - 31,536,000, now]`, whenever the search runs. |
| `EventKitManager.ScopedSearchStaysInCalendar` | EventCounter/EventKitManager.swift:63-64 | A search scoped to calendar `c` only returns events owned by `c`. |
| `EventKitManager.LiteralTitleFindsOnlyIdentical` | EventCounter/EventKitManager.swift:66-80 | For a title with no `*` or `?`, every returned event has exactly that title, as the commented-out equality loop intended. |
| `EventKitManager.IdenticalTitleAlwaysFound` | EventCounter/EventKitManager.swift:65-67 | An event in the window and scope whose title equals the searched title is always returned. |
| `EventKitManager.UnescapedTitleOvermatches` | EventCounter/EventKitManager.swift:66 | Searching for "Gym*" returns an in-window, in-scope event titled "Gym class". |
| `EventKitManager.FindReminders` | EventCounter/EventKitManager.swift:83-92 | There is a result iff the fetch does not return nil. A result holds exactly the store's reminders owned by the one given list, each as often as in the store. |
| `EventKitManager.ListCalendars` | EventCounter/EventKitManager.swift:94-98 | The result holds exactly the store's calendars of the requested domain. |
| `LikePattern.LikeLiteral` | EventCounter/EventKitManager.swift:66 | A pattern without wildcards matches a string iff the two are equal. Letter case is not folded. |
| `LikePattern.LikeSelf` | EventCounter/EventKitManager.swift:66 | Every string matches itself read as a pattern. |
| `LikePattern.LikeStarMatchesAll` | EventCounter/EventKitManager.swift:66 | The pattern `*` matches every string. |
| `LikePattern.LikeNoStarLength` | EventCounter/EventKitManager.swift:66 | A pattern without `*` matches only strings of its own length. |
| `LikePattern.WildcardMatchesOtherTitle` | EventCounter/EventKitManager.swift:66 | "Gym*" matches "Gym class", which differs from it. |
| `CalendarStore.Filter` | EventCounter/EventKitManager.swift:67 | Filtering keeps every occurrence of each element satisfying the predicate and drops every other element, so each kept element has the same number of copies as in the input. |
| `CalendarStore.Store.EventsMatching` | EventCounter/EventKitManager.swift:64-65 | The window query returns every occurrence of the store's events that overlap the window and lie in the scope, and nothing else. |
| `CalendarStore.Store.FetchReminders` | EventCounter/EventKitManager.swift:84-86 | The fetch returns nil exactly when the store fails. Otherwise it returns every occurrence of the reminders in the scope, and nothing else. |
| `CalendarStore.Store.CalendarsFor` | EventCounter/EventKitManager.swift:96 | The calendars of one domain are exactly the store's calendars of that kind. |
| `CalendarStore.SingleScope` | EventCounter/EventKitManager.swift:84 | A one-calendar scope admits exactly that calendar's records. |
| `ContentView.ReduceHoursAddsDuration` | EventCounter/ContentView.swift:145-149 | The fold adds exactly the events' summed lengths, divided by 3600, to its starting value. |
| `ContentView.DurationSecondsNonNegative` | EventCounter/ContentView.swift:147 | When no event ends before it starts, the summed length is non-negative. |
| `ContentView.DurationSecondsAppend` | EventCounter/ContentView.swift:145-148 | The summed length of two lists joined is the sum of their summed lengths. |
| `ContentView.CumulativeHours` | EventCounter/ContentView.swift:143-149 | The hours computed from 0 equal the summed (end - start) over 3600. They are 0 for no events and non-negative when every event ends no earlier than it starts. |
| `ContentView.CumulativeHoursAppend` | EventCounter/ContentView.swift:145-148 | Overlapping events are not merged: the hours of joined lists add up. |
| `ContentView.StatusLine` | EventCounter/ContentView.swift:65 | The status is "Complete" iff a reminder is selected and marked done. Otherwise it is "Incomplete", including when nothing is selected. |
| `ContentView.OtherType` | EventCounter/ContentView.swift:25 | The other of the two domains in the calendar cache differs from the given one. |
| `ContentView.ContentView.constructor` | EventCounter/ContentView.swift:19-27 | The view starts with nothing selected, an empty reminder list, `count` 0, an empty cache entry for both domains, and a manager created at the start time. |
| `ContentView.ContentView.GetCalendars` | EventCounter/ContentView.swift:121-131 | A non-empty cache entry is never refetched, and no prompt is shown for it. An empty entry is replaced by the store's list only when authorization gives true, and stays empty otherwise. The other domain's entry never changes. |
| `ContentView.ContentView.SearchReminders` | EventCounter/ContentView.swift:133-139 | With no list chosen, or a nil fetch, the reminders are unchanged. Otherwise they are replaced, not appended to, by exactly the chosen list's reminders, each as often as in the store. |
| `ContentView.ContentView.Search` | EventCounter/ContentView.swift:141-151 | With no reminder or no title, `count` is unchanged. Otherwise it becomes the cumulative hours of the matched events, replacing the old value. It stays non-negative over well-formed events. |
| `ContentView.ContentView.SelectEventCalendar` | EventCounter/ContentView.swift:34-42 | Choosing an event calendar changes only that field. `count` is not recomputed. |
| `ContentView.ContentView.SelectReminderCalendar` | EventCounter/ContentView.swift:44-54 | A changed list choice reloads the reminders. Reselecting the same list, or clearing the choice, leaves them unchanged. |
| `ContentView.ContentView.SelectReminder` | EventCounter/ContentView.swift:56-64 | A changed reminder choice recomputes `count`. Clearing the choice, or a reminder without a title, leaves `count` unchanged. |

## Left out

- View rendering: the pickers' layout, `body`, `SettingsButton`, the previews and the `%.2f` hours text. These are presentation only.
- `addItem`, `deleteItems` and `EventCounterApp.swift`: persisted-item handling and app start-up, unrelated to the calendar logic.
- EventKit itself: the store is a given value. Real querying, prompting, recurring-event expansion and the state change after a prompt belong to the platform.
- Asynchrony: completion handlers are treated as synchronous results. Threading, ordering between callbacks and stale results arriving late are not modelled.
- `EventKitManager.CheckAuthorization`: a permission callback that fires twice or never is not modelled. The callback's error argument is ignored, as the app ignores it.
- `EventKitManager.NewManager`: `today` and `oneYearAgo` are two separate clock reads in the app, taken microseconds apart. Both are taken from one `now` here.
- Floating point: `Date`, `TimeInterval` and `Double` become integer seconds and exact `real` hours, with no rounding.
- NSPredicate format-string parsing: a quote, `%` or backslash in a title changes or breaks the format in the app. Only the `*`/`?` wildcards of `LIKE` are modelled.
- The `print` logging lines.

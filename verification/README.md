# Community app page logic, modelled in Dafny

This project models the pure decision and list logic inside the pages of a
small community web client. The client has a Google sign-in session guard,
an event scheduler, a thread board with realtime updates and a home
dashboard. Network calls, the auth and realtime service, the router and
the clock are not modelled as effects. Their outcomes are parameters, and
the requests and navigations a handler makes are part of its result.

- `common.dfy` (`Common`): optional values, the JavaScript `||` default on
  strings, and template interpolation of a possibly-undefined id.
- `records.dfy` (`Records`): the `Thread` and `Event` records.
  src/types/Thread.ts and src/types/Event.ts are not part of this model.
  Their fields are taken from how the pages use them.
- `chronology.dfy` (`Chronology`): newest-first ordering. `SortDesc` models
  `Array.prototype.sort` with the comparator `time(b) - time(a)`. That sort
  is stable, so `SortDesc` is a stable insertion sort.
- `text.dfy` (`Text`): the ECMAScript `trim` whitespace set, and
  `split`/`join` on one character.
- `threads.dfy` (`Threads`): the thread list page. It covers the fetches,
  the realtime INSERT merge and thread creation.
- `session.dfy` (`SessionGuard`): one run of the session provider's effect,
  the registration payload and the render gate.
- `schedule.dfy` (`Schedule`): the event list, the save form, edit and
  delete.
- `home.dfy` (`Home`): the upcoming-event filter and the three newest
  threads.

Three behaviours of the code a reader might not expect:

- The realtime handler does not drop an event when the username lookup
  fails. It uses the name "Unknown".
- A failed session lookup does not redirect to the login page. It sets the
  provider not-ready, so nothing renders.
- The sync flag is component state and is never reset by the provider
  itself.

## Model

| member | source | states |
|---|---|---|
| Chronology.SortDesc | src/pages/threads/index.tsx:53-58 | the newest-first sort returns a permutation of its input of the same length, ordered by creation time descending |
| Chronology.InsertSorted | src/pages/threads/index.tsx:140-143 | putting one thread into a newest-first list keeps it newest first |
| Chronology.InsertIsSplice | src/pages/threads/index.tsx:140-143 | the stable insertion puts the thread right after the entries strictly newer than it, before any entry with the same time |
| Chronology.SortDescOfSorted | src/pages/threads/index.tsx:72-77 | sorting a list that is already newest first leaves it unchanged |
| Chronology.SortDescIdempotent | src/pages/threads/index.tsx:53-58 | sorting twice gives the same list as sorting once |
| Chronology.SortPrepended | src/pages/threads/index.tsx:140-143 | on a sorted list, prepending a thread and re-sorting is a single stable insertion |
| Chronology.ConsDistinct | src/pages/threads/index.tsx:135-138 | a list with a thread in front has distinct ids exactly when the rest does and does not already hold that id |
| Chronology.InsertDistinct | src/pages/threads/index.tsx:140-143 | inserting a thread whose id is not listed keeps ids distinct |
| Chronology.SortDescDistinct | src/pages/threads/index.tsx:140-143 | re-sorting keeps ids distinct |
| Threads.FetchThreads | src/pages/threads/index.tsx:48-64 | an ok response replaces the list with its body newest first, a failure keeps the old list, and loading ends in both cases |
| Threads.FetchUserThreads | src/pages/threads/index.tsx:67-81 | the same for the viewer's own list, leaving the loading flag, the form, its visibility and the error alone |
| Threads.Complete | src/pages/threads/index.tsx:35-45 | the merged thread is the payload with its username replaced by the looked-up name, or "Unknown" when the lookup fails; every other field is kept |
| Threads.MergeInsert | src/pages/threads/index.tsx:134-144 | a thread whose id is already listed leaves the list unchanged; a fresh one makes a permutation of the old list plus the thread, one longer, and a sorted list stays sorted |
| Threads.MergeInsertValid | src/pages/threads/index.tsx:134-144 | a merge never introduces a repeated id |
| Threads.MergeInsertFresh | src/pages/threads/index.tsx:140-143 | a fresh thread lands exactly after the strictly newer prefix and nothing else moves |
| Threads.MergeInsertLists | src/pages/threads/index.tsx:134-143 | after a merge the thread's id is always listed |
| Threads.RealtimeInsert | src/pages/threads/index.tsx:126-159 | the all-threads list always gets the merge; the viewer's list gets it only when the author is the viewer and is otherwise untouched; no other page state changes |
| Threads.RealtimeInsertValid | src/pages/threads/index.tsx:126-159 | a realtime insert keeps both lists newest first with no repeated id |
| Threads.RealtimeInsertIdempotent | src/pages/threads/index.tsx:133-138 | delivering the same INSERT twice has the same effect as delivering it once |
| Threads.CreateThread | src/pages/threads/index.tsx:84-117 | a blank title or content sets the error and sends nothing; otherwise the request carries the untrimmed fields and the viewer id; a failure only clears the error; a success puts the thread into both lists without a duplicate check (each list one longer, a permutation, newest first) and empties and closes the form |
| Threads.CreateThreadInserts | src/pages/threads/index.tsx:102-111 | on sorted lists a created thread is a plain stable insertion into each |
| Threads.CreateAfterRealtimeDuplicates | src/pages/threads/index.tsx:102-111 | when the realtime insert of the viewer's new thread comes first, the create response leaves that thread in the list twice |
| Threads.CreateThreadDeduplicated | src/pages/threads/index.tsx:102-111 | a create that merges by id, as the realtime handler does, keeps the page invariant |
| Threads.ReplayValid | src/pages/threads/index.tsx:126-159 | for any sequence of completed realtime inserts and deduplicated creates, in any order, both lists stay newest first with no repeated id |
| Text.TrimStart | src/pages/threads/index.tsx:85 | the result is a suffix of the input, only whitespace was dropped, and it does not start with whitespace |
| Text.TrimEnd | src/pages/threads/index.tsx:85 | the result is a prefix of the input, only whitespace was dropped, and it does not end with whitespace |
| Text.TrimBlank | src/pages/threads/index.tsx:85 | a string trims to empty exactly when every character is whitespace |
| Text.Split | src/pages/schedule.tsx:233-235 | splitting gives at least one piece, and no piece contains the separator |
| Text.SplitJoin | src/pages/schedule.tsx:233-235 | joining pieces that are free of the separator and splitting again gives the pieces back |
| Text.JoinSplit | src/pages/schedule.tsx:233-235 | splitting and joining again gives the string back |
| Common.OrDefault | src/providers/SessionProvider.tsx:47-48 | the JavaScript or-default gives the default exactly when the value is missing or empty, and the value otherwise |
| SessionGuard.RegistrationFor | src/providers/SessionProvider.tsx:44-49 | the payload carries the subject id and email; a missing or empty full name becomes "No Name" and a missing or empty picture becomes "" |
| SessionGuard.SessionUpdate | src/providers/SessionProvider.tsx:22-85 | a lookup error gives not-ready, no redirect and nothing stored; no session off the login page redirects to "/" without becoming ready; no session on "/" becomes ready; a session on "/" with the captured flag set redirects to "/home"; any other session case becomes ready; the POST is sent exactly when there is a session and the captured flag is false; the flag rises only on an ok response |
| SessionGuard.Render | src/providers/SessionProvider.tsx:87-91 | children are rendered if and only if the provider is ready |
| SessionGuard.LookupErrorRendersBlank | src/providers/SessionProvider.tsx:28-32 | after a failed lookup nothing is rendered |
| SessionGuard.SessionNeverRedirectsToLogin | src/providers/SessionProvider.tsx:36-72 | with a session the guard never navigates to the login page |
| SessionGuard.NoSyncOnceSent | src/providers/SessionProvider.tsx:38-61 | once the flag is set, no later run posts again and the flag stays set |
| SessionGuard.AtMostOneSuccessfulSync | src/providers/SessionProvider.tsx:38-61 | over runs that each finish before the next starts, at most one sync succeeds, and none does if the flag was already set |
| SessionGuard.OverlappingRunsBothPost | src/providers/SessionProvider.tsx:38-58 | two runs that start from the same state with the flag down both post the registration, because the flag is set only after the first POST settles |
| SessionGuard.RetryAfterFailedSync | src/providers/SessionProvider.tsx:52-61 | after a failed sync the next run with a session posts the same registration again |
| SessionGuard.LoginPageTwoRuns | src/providers/SessionProvider.tsx:58-85 | on the login page, the syncing run becomes ready there; the run that the flag change triggers redirects to "/home" without posting |
| SessionGuard.RegistrationWithoutMetadata | src/providers/SessionProvider.tsx:44-49 | subject "u1" with email "u1@x.com" and no metadata registers as ("u1", "u1@x.com", "No Name", "") |
| Schedule.FetchEvents | src/pages/schedule.tsx:42-77 | without a user, or while the user is loading, nothing is requested or changed; a 404, a null body or an empty body gives the empty list; an ok body is shown; other failures keep the list |
| Schedule.BodyFor | src/pages/schedule.tsx:100-105 | start and end are the form's date, "T", then the start or end time, so both share the same date part |
| Schedule.EventUrl | src/pages/schedule.tsx:96-97 | the event URL is the collection URL, "/", then the id, or "undefined" when the id is missing |
| Schedule.SaveRequest | src/pages/schedule.tsx:95-98 | PUT to `/users/{uid}/events/{eid}` if and only if an event is being edited, otherwise POST to `/users/{uid}/events` |
| Schedule.SaveEvent | src/pages/schedule.tsx:82-136 | an empty required field sends nothing and changes nothing; otherwise the save request is sent first; a failure keeps the events; a success is followed by the refetch; either way the form is emptied and editing ends |
| Schedule.DeleteEvent | src/pages/schedule.tsx:139-178 | a missing or empty id sends nothing; otherwise DELETE the event's URL, then refetch only on success |
| Schedule.EditEvent | src/pages/schedule.tsx:229-236 | editing loads the title and the pieces split at "T", none of which contains "T", and marks the event as being edited |
| Schedule.StampSplits | src/pages/schedule.tsx:102-103 | a date and time without "T", once joined, split back into exactly that date and time |
| Schedule.EditAfterSave | src/pages/schedule.tsx:229-236 | saving a form whose fields contain no "T" and then editing the stored event gives back the same form |
| Schedule.EditDiscardsEndDate | src/pages/schedule.tsx:233-235 | the date part of the stored end is ignored when editing |
| Schedule.UpdateAndDeleteSameUrl | src/pages/schedule.tsx:95-98 | updating the event being edited and deleting it address the same URL |
| Home.Upcoming | src/pages/home.tsx:29 | keeps exactly the events whose start parses to an instant strictly after now, and takes nothing that was not in the input |
| Home.UpcomingConcat | src/pages/home.tsx:29 | filtering keeps relative order, because filtering a concatenation is the concatenation of the filtered parts |
| Home.UpcomingKeepsAll | src/pages/home.tsx:29 | when every event is upcoming, the list is kept as it is |
| Home.Newest | src/pages/home.tsx:48-49 | shows min(3, n) threads, newest first, drawn from the input, and each shown thread is at least as new as every omitted one |
| Home.PrefixOfSorted | src/pages/home.tsx:48-49 | a prefix of a sorted list is sorted, and what it omits is the rest of the list |
| Home.PrefixDominates | src/pages/home.tsx:48-49 | every entry of a prefix of a sorted list is at least as new as every omitted entry |
| Home.NewestOfFew | src/pages/home.tsx:48-49 | with at most three threads all are shown, newest first |
| Home.FetchEvents | src/pages/home.tsx:20-36 | with no user, nothing is requested and even the loading flag stays; otherwise one request, the upcoming events of an ok body are shown, and loading ends |
| Home.FetchThreads | src/pages/home.tsx:39-55 | with no user, nothing is requested; otherwise the three newest threads of an ok body are shown and loading ends |

## Findings

| source | as written | input that shows it | evidently intended | confidence | as-written member | corrected member |
|---|---|---|---|---|---|---|
| src/pages/threads/index.tsx:102-111 | a created thread is prepended to both lists without checking whether its id is already listed | the viewer creates thread "t1". The realtime INSERT for "t1" finishes its username lookup and merges before the POST response arrives. Both lists then end up as [t1, t1] | merge by id as the realtime handler does at lines 134-138, so each thread appears once | medium, not executed | Threads.CreateAfterRealtimeDuplicates | Threads.CreateThreadDeduplicated |

`Threads.CreateThread` keeps the behaviour as written. The replay of page
actions in `Threads.ReplayValid` uses the corrected create.

## Left out

- Rendering, the calendar and table widgets, toasts and `alert` are view only. Error notifications are therefore not part of any result.
- HTTP itself is not modelled. A response is an abstract outcome passed in: ok with a body, not ok with a status, or thrown. A body that is not valid JSON counts as a failure.
- The auth service calls are not modelled. This covers the session lookup, sign-in and sign-out. The realtime channel subscribe and remove calls are left out too. A lookup is an input, and the channel lifecycle is not modelled.
- Interleaving of asynchronous username lookups is not modelled directly. Each realtime event is applied once its lookup has completed. `Threads.ReplayValid` then covers every order in which those completions can arrive.
- Timestamps are simplified. A thread's `created_at` is an integer instant, so an unparsable date (a NaN comparator) is not modelled. On the home page, start-time parsing is the parameter `toTime`. The clock is one `now` for the whole filter, although the source reads it once per element.
- Threads.Complete: a lookup response without a `username` field (undefined) is not modelled. A successful lookup always yields a string.
- Schedule.EditEvent: a split piece past the end (`undefined`) reads as "". Both values are falsy, and the form only tests them for truthiness before they could be joined again.
- SessionGuard.AtMostOneSuccessfulSync: overlapping effect runs are not modelled; `Replay` finishes each run, POST outcome included, before the next starts. In the source a run that starts while an earlier POST is pending has also captured the flag down, and it posts again (`SessionGuard.OverlappingRunsBothPost`).
- The sync flag is never reset on sign-out. The source relies on a full page reload, which is outside the provider.
- src/contexts/UserContext.tsx, src/pages/profile.tsx, src/components/sidebar.tsx, src/pages/index.tsx, src/pages/api/auth/google.ts, src/contexts/ApiContext.tsx and the static pages are left out. They are fetch passthroughs, sign-in plumbing or static markup with no decision logic.
- The thread detail page with its comment channel, src/pages/threads/[id].tsx, is not part of this model.

# RightTutor admin console: a Dafny model of its state and handlers

The RightTutor admin console is a single-page application for tutoring staff. Its state sits in one
Redux slice, `admin`, which keeps:

- the contact inquiries, consultation bookings, manual tutor matches and linked repositories
  (Google Sheets);
- an audit log, the data-retention settings, the signed-in user and session flag, the theme;
- the AI-assistant chat transcript.

Most of that state is mirrored into the browser's `localStorage`. Pages call a REST backend through
`apiService`, then dispatch reducers and write audit entries.

This project models three parts of the console:

- **The slice** (store/index.ts):
  - `StoreState` gives each reducer's effect as a function of a pure state value that includes
    `localStorage`. It also defines the page load (`Loaded`) and the invariant `Consistent`, which
    every reducer keeps between memory and storage.
  - `Store.AdminStore` is a class with one field per state member. Each method is proved to have
    exactly the effect of the matching function and to keep the invariant.
- **The page handlers** of the bookings, inquiries, repositories, Google Sheets, AI assistant,
  login and profile pages, as methods over the store (`AppointmentDetailsPage`, `ContactInquiriesPage`,
  `RepositoriesPage`, `GoogleSheetsPage`, `AiAssistantPage`, `AuthPage`, `ProfilePage`).
- **The pure helpers of `apiService`** (`Api`): the base URL, the headers, `handleResponse`, and the
  three ways a call reports failure.

Some inputs are passed in as parameters:

- what the backend answered (`Outcome` / `Transport`);
- what the user answered to a `window.confirm`;
- the clock reading `now`, in milliseconds;
- the colour-scheme preference `prefersDark`;
- the email pattern's verdict `emailValid`.

Shared pieces:

- `Types`: the records of types.ts and store/index.ts.
- `Text`: trimming and splitting as JavaScript does them.
- `Seqs`: the array operations the reducers use: `find`, `findIndex`, `filter` and `slice`.

## Model

| member | source | states |
|---|---|---|
| `Types.StatusName` | types.ts:2-12 | every status carries a non-empty display string |
| `Types.ActorName` | store/index.ts:127-137 | the user's name when a user with a name is signed in, otherwise the given fallback ('Admin' or 'Automated Sync') |
| `Types.OrElse` | pages/ContactInquiries.tsx:15-31 | JavaScript `a || b` on strings: `a` unless it is empty |
| `Text.TrimStart` | pages/Auth.tsx:59 | the result is a suffix of the input, what was cut is all whitespace, and the result does not start with whitespace |
| `Text.TrimEnd` | pages/Auth.tsx:59 | the result is a prefix of the input, what was cut is all whitespace, and the result does not end with whitespace |
| `Text.Trim` | pages/Auth.tsx:59 | `trim` never lengthens its input, and what it returns neither starts nor ends with whitespace |
| `Text.Utf16Length` | pages/Auth.tsx:25 | `length` counts UTF-16 code units: between one and two per character, and exactly one per character when every character lies in the Basic Multilingual Plane |
| `Text.AllSpaceTrimsAway` | pages/Auth.tsx:59 | a whitespace-only string trims to nothing |
| `Text.TrimEmptyIff` | pages/AiAssistant.tsx:30 | `s.trim()` is empty exactly when `s` is whitespace only (both directions) |
| `Text.SplitOn` | pages/AiAssistant.tsx:49 | `split('\n')` gives at least one piece and no piece contains the separator |
| `Text.JoinSplit` | pages/AiAssistant.tsx:49 | splitting loses nothing: joining the pieces with the separator gives the text back |
| `Text.SplitCount` | pages/AiAssistant.tsx:49 | there is exactly one piece more than there are separators |
| `Seqs.Take` | store/index.ts:242-250 | `slice(0, n)` has length min(n, length) and is a prefix of the list |
| `Seqs.IsPrefixIff` | store/index.ts:242-250 | the recursive prefix relation used for the persisted log equals "shorter and equal to the first part" |
| `Seqs.PrefixRefl` | store/index.ts:257-264 | a fully persisted list is a prefix of itself |
| `Seqs.PrefixExtend` | store/index.ts:276-280 | appending in memory without persisting keeps the persisted list a prefix |
| `Seqs.FirstIndex` | store/index.ts:148-155 | `findIndex`: -1 or a position holding the id, with no earlier position holding it |
| `Seqs.Find` | store/index.ts:156-161 | `find`: none exactly when no element has the id; otherwise the element at the first position holding the id |
| `Seqs.UpdateFirst` | store/index.ts:148-155 | the update keeps the list's length and either leaves the list unchanged or stores the new record in it |
| `Seqs.UpdateFirstSpec` | store/index.ts:148-155 | an update replaces exactly the first record with the id and keeps the length and every other position; with the id absent nothing changes |
| `Seqs.FirstIndexAfterReplace` | store/index.ts:148-155 | after replacing the first match, that position is still the first match |
| `Seqs.UpdateFirstIdempotent` | store/index.ts:148-155 | applying the same update twice equals applying it once |
| `Seqs.Filter` | store/index.ts:257-264 | `filter` keeps only elements satisfying the predicate and never grows the list |
| `Seqs.FilterKeepsOrder` | store/index.ts:257-264 | the elements `filter` keeps sit at increasing positions of the input, in order, and every position whose element satisfies the predicate is among them |
| `Seqs.ShiftEmbeds` | store/index.ts:257-264 | positions of kept elements in the tail of a list are, one place on, positions in the whole list |
| `Seqs.PrependZero` | store/index.ts:257-264 | a kept head element goes in front of the kept positions after it |
| `Seqs.FilterAppend` | store/index.ts:257-264 | filtering a concatenation filters the parts in order |
| `Seqs.FilterMultiset` | store/index.ts:257-264 | each satisfying element is kept as often as it occurred; every other element is dropped |
| `Seqs.FilterMembership` | store/index.ts:257-264 | an element is in the result exactly when it is in the input and satisfies the predicate |
| `Seqs.FilterUnchangedIff` | store/index.ts:257-264 | filtering changes nothing exactly when every element already satisfies the predicate |
| `Seqs.FilterIdempotent` | store/index.ts:257-264 | filtering twice by the same predicate equals filtering once |
| `Seqs.RemoveByIdSpec` | store/index.ts:179-182 | removal drops every record with the id and keeps all others, as often as before; the survivors sit at increasing positions of the input, and every record without the id is among them |
| `Seqs.RemoveById` | store/index.ts:156-161 | removal never lengthens the list and leaves no record with the id |
| `Seqs.RemoveByIdAppend` | store/index.ts:200-203 | removal from a concatenation removes from each part in turn |
| `Api.RawBaseUrl` | services/apiService.ts:1 | the environment setting when it is set and non-empty, otherwise 'http://localhost:8000' |
| `Api.StripTrailingSlash` | services/apiService.ts:2 | removes exactly one trailing '/', if there is one |
| `Api.NormalizeBaseUrl` | services/apiService.ts:2 | the URL always ends in '/api/v1'; it is kept when it already does, otherwise the suffix is appended after one slash is stripped |
| `Api.NormalizeIdempotent` | services/apiService.ts:2 | normalising a normalised URL changes nothing |
| `Api.DefaultApiBaseUrl` | services/apiService.ts:1-2 | with no setting the API base is 'http://localhost:8000/api/v1' |
| `Api.Headers` | services/apiService.ts:4-10 | JSON content type always; a Bearer authorization header exactly when a non-empty token is stored; no other header |
| `Api.HandleResponse` | services/apiService.ts:12-19 | success exactly when the response is ok, carrying its data; otherwise a non-empty error, the body's message or 'API request failed' |
| `Api.MutatingCall` | services/apiService.ts:46-58 | an add, update or chat call succeeds exactly when the reply is delivered and ok; a transport failure is rethrown unchanged |
| `Api.ListCall` | services/apiService.ts:22-32 | a list fetch gives the data on success and `[]` on any failure |
| `Api.StatsCall` | services/apiService.ts:241-251 | the stats fetch gives the data exactly when the reply is delivered and ok, otherwise null |
| `Api.DeleteCall` | services/apiService.ts:74-86 | a delete yields `true` exactly when the response is ok; a non-ok response gives 'Failed to delete …'; a transport failure is rethrown |
| `Api.ListCallHidesFailure` | services/apiService.ts:22-44 | a non-empty list result can only come from an ok reply, and it is that reply's data |
| `StoreState.KeyNamesDistinct` | store/index.ts:61-77 | no two storage keys share a string |
| `StoreState.EmptyStorageLoadsDefaults` | store/index.ts:55-77 | on a first visit every field starts at its default (14 retention days, the greeting message, the preferred theme) and that state is consistent |
| `StoreState.Loaded` | store/index.ts:55-77 | `initialState`: each persisted field read back from its key when present in the expected shape, every other field at its default; it has no contract of its own, and what is proved about it is stated by `EmptyStorageLoadsDefaults`, `LoadedConsistent` and `ReloadRestores` |
| `StoreState.ConsistentStorageWellFormed` | store/index.ts:61-77 | storage written by the reducers is laid out the way the page load reads it |
| `StoreState.LoadedConsistent` | store/index.ts:55-77 | loading well-formed storage keeps the storage and gives a consistent state |
| `StoreState.ReloadRestores` | store/index.ts:61-77 | a reload gives back the collections, the retention settings, the draft, the session flag, a signed-in user and a saved theme; the logs come back as a prefix holding at least the newest 100; the chat comes back as a prefix |
| `StoreState.RemovedName` | store/index.ts:156-161 | the removed repository's name, or 'undefined' when none has the id |
| `StoreState.AiReply` | store/index.ts:79-96 | success exactly when the chat call succeeded; a successful reply is never empty and keeps a non-empty answer as given |
| `StoreState.ThemeToggledConsistent` | store/index.ts:102-106 | toggling the theme keeps memory and storage consistent |
| `StoreState.UserSetConsistent` | store/index.ts:113-116 | setting the user keeps the invariant, including the persisted user |
| `StoreState.AuthSetConsistent` | store/index.ts:117-120 | setting the session flag keeps the invariant |
| `StoreState.LoggedOutConsistent` | store/index.ts:121-126 | logging out keeps the invariant |
| `StoreState.LogsStoredConsistent` | store/index.ts:257-264 | replacing and persisting the whole log keeps the invariant |
| `StoreState.RepositoriesStoredConsistent` | store/index.ts:138-141 | replacing and persisting the repositories keeps the invariant |
| `StoreState.InquiriesStoredConsistent` | store/index.ts:162-165 | replacing and persisting the inquiries keeps the invariant |
| `StoreState.AppointmentsStoredConsistent` | store/index.ts:183-186 | replacing and persisting the bookings keeps the invariant |
| `StoreState.ManualMatchesStoredConsistent` | store/index.ts:221-224 | replacing and persisting the manual matches keeps the invariant |
| `StoreState.RetentionSetConsistent` | store/index.ts:251-256 | saving both retention settings keeps the invariant |
| `StoreState.DraftSetConsistent` | store/index.ts:204-207 | saving the draft keeps the invariant |
| `StoreState.ChatClearedConsistent` | store/index.ts:212-216 | resetting the chat to the greeting keeps the invariant |
| `StoreState.AccountSavedConsistent` | pages/Auth.tsx:83-92 | writing the signup account under `rt_user_db` keeps the invariant |
| `StoreState.MarkedReadConsistent` | store/index.ts:217-220 | marking the chat read keeps the invariant |
| `StoreState.ReplyFlaggedConsistent` | store/index.ts:269-275 | flagging the reply unread keeps the invariant |
| `StoreState.PushLogConsistent` | store/index.ts:242-250 | pushing a log keeps the persisted list a prefix holding the newest 100 |
| `StoreState.MessagePersistedConsistent` | store/index.ts:208-211 | appending a message and persisting the transcript keeps the invariant |
| `StoreState.AiFailedConsistent` | store/index.ts:276-280 | the rejected request appends without persisting, and the persisted transcript stays a prefix |
| `StoreState.PushLogPersistsNewest` | store/index.ts:242-250 | the new entry goes on top, and storage holds exactly the newest min(100, n) entries, starting with the new one |
| `StoreState.LiveSyncThenLog` | store/index.ts:127-137 | a live-syncing reducer followed by `addLog` leaves the page's entry on top, then the '[LIVE SYNC] ' entry, then the old log |
| `StoreState.CleanupKeepsExactlyNewer` | store/index.ts:257-264 | with retention on, exactly the logs and repositories strictly newer than the cutoff survive, as often as before; both lists are persisted uncapped and nothing else changes; with retention off nothing changes |
| `StoreState.CleanedUp` | store/index.ts:257-264 | with retention off the state is untouched; otherwise neither list grows, only the logs, the repositories and the storage change, and the storage gains exactly the logs and repositories keys |
| `StoreState.CleanupKeepsOrder` | store/index.ts:257-264 | with retention on, the surviving logs and repositories sit at increasing positions of the old lists and include every entry newer than the cutoff; cleaning the logs `a + b` gives the cleaned `a` followed by the cleaned `b` |
| `StoreState.CleanupIdempotent` | store/index.ts:257-264 | two cleanups at the same instant equal one |
| `StoreState.CleanupConsistent` | store/index.ts:257-264 | cleanup keeps the invariant |
| `Store.AdminStore.constructor` | store/index.ts:55-77 | the new store is the page load of the saved storage; storage the store wrote itself gives a valid store |
| `Store.AdminStore.ToggleTheme` | store/index.ts:102-106 | flips the theme and persists it, keeping the invariant |
| `Store.AdminStore.ToggleSidebar` | store/index.ts:107-109 | flips only the sidebar flag |
| `Store.AdminStore.SetSidebarOpen` | store/index.ts:110-112 | sets only the sidebar flag |
| `Store.AdminStore.SetUser` | store/index.ts:113-116 | sets and persists the user |
| `Store.AdminStore.SetAuth` | store/index.ts:117-120 | sets and persists the session flag |
| `Store.AdminStore.Logout` | store/index.ts:121-126 | clears the user and the session and removes `rt_auth` and `token`, keeping `rt_user` and every collection |
| `Store.AdminStore.TriggerLiveSync` | store/index.ts:127-137 | prepends one '[LIVE SYNC] ' success entry and persists the newest 100 |
| `Store.AdminStore.AddLog` | store/index.ts:242-250 | prepends one entry stamped `now` (as id and time) and persists the newest 100 |
| `Store.AdminStore.SetRepositories` | store/index.ts:138-141 | replaces and persists the repositories |
| `Store.AdminStore.AddRepository` | store/index.ts:142-147 | prepends the repository stamped with `now`, persists, and live-syncs |
| `Store.AdminStore.UpdateRepository` | store/index.ts:148-155 | replaces the first repository with that id, persists, and live-syncs |
| `Store.AdminStore.RemoveRepository` | store/index.ts:156-161 | removes every repository with that id, persists, and live-syncs even for an unknown id |
| `Store.AdminStore.SetInquiries` | store/index.ts:162-165 | replaces and persists the inquiries |
| `Store.AdminStore.AddInquiry` | store/index.ts:166-170 | prepends the inquiry, persists, and live-syncs |
| `Store.AdminStore.UpdateInquiry` | store/index.ts:171-178 | replaces the first inquiry with that id, persists, and live-syncs |
| `Store.AdminStore.RemoveInquiry` | store/index.ts:179-182 | removes every inquiry with that id and persists, adding no log |
| `Store.AdminStore.SetAppointments` | store/index.ts:183-186 | replaces and persists the bookings |
| `Store.AdminStore.AddAppointment` | store/index.ts:187-191 | prepends the booking, persists, and live-syncs |
| `Store.AdminStore.UpdateAppointment` | store/index.ts:192-199 | replaces the first booking with that id, persists, and live-syncs |
| `Store.AdminStore.RemoveAppointment` | store/index.ts:200-203 | removes every booking with that id and persists, adding no log |
| `Store.AdminStore.SetManualMatches` | store/index.ts:221-224 | replaces and persists the manual matches |
| `Store.AdminStore.AddManualMatch` | store/index.ts:225-229 | prepends the match, persists, and live-syncs |
| `Store.AdminStore.UpdateManualMatch` | store/index.ts:230-237 | replaces the first match with that id, persists, and live-syncs |
| `Store.AdminStore.RemoveManualMatch` | store/index.ts:238-241 | removes every match with that id and persists, adding no log |
| `Store.AdminStore.SetRetention` | store/index.ts:251-256 | sets and persists both retention settings |
| `Store.AdminStore.RunCleanup` | store/index.ts:257-264 | has the effect `CleanedUp` characterised by the cleanup lemmas, keeping the invariant |
| `Store.AdminStore.StoreLogs` | store/index.ts:259-262 | replaces the logs and persists the whole list |
| `Store.AdminStore.SetAiDraft` | store/index.ts:204-207 | sets and persists the draft |
| `Store.AdminStore.AddUserMessage` | store/index.ts:208-211 | appends the user's message and persists the transcript |
| `Store.AdminStore.PushMessage` | store/index.ts:208-211 | appends one message and persists the whole transcript |
| `Store.AdminStore.ClearAiChat` | store/index.ts:212-216 | resets the transcript to the greeting, persists it, and clears the unread flag without persisting that |
| `Store.AdminStore.MarkAiAsRead` | store/index.ts:217-220 | clears and persists the unread flag |
| `Store.AdminStore.AiPending` | store/index.ts:268 | only marks generation in progress |
| `Store.AdminStore.AiFulfilled` | store/index.ts:269-275 | appends the AI reply, stops generation, flags it unread and persists the transcript and the flag |
| `Store.AdminStore.AiRejected` | store/index.ts:276-280 | appends the fixed failure text, stops generation, flags it unread and persists nothing |
| `Store.AdminStore.CompleteAiRequest` | store/index.ts:79-96 | settling the chat call appends exactly one AI message (the reply, a prompt to ask again, or the failure text), stops generation and flags it unread; a failure leaves storage as it was |
| `AppointmentDetailsPage.FormatBooking` | pages/AppointmentDetails.tsx:18-29 | each missing field takes its default ('Unknown' after the booking's name, 'Intake Pending', 'N/A', 'General Consultation', Scheduled); the shown names, phone and topic are never empty |
| `AppointmentDetailsPage.FormatBookings` | pages/AppointmentDetails.tsx:18-29 | the list keeps its length and each booking is normalised in place |
| `AppointmentDetailsPage.FormatBookingRoundTrip` | pages/AppointmentDetails.tsx:18-29 | a stored booking with its shown fields filled in comes back from the backend unchanged |
| `AppointmentDetailsPage.FormatBookingIdempotent` | pages/AppointmentDetails.tsx:18-29 | normalising a normalised booking changes nothing |
| `AppointmentDetailsPage.FetchBookings` | pages/AppointmentDetails.tsx:13-31 | a non-empty fetch replaces the bookings with their normalised forms; an empty or failed one changes nothing |
| `AppointmentDetailsPage.FetchKeepsIds` | pages/AppointmentDetails.tsx:13-31 | the fetched bookings keep their number, ids and order |
| `AppointmentDetailsPage.HandleToggleAttended` | pages/AppointmentDetails.tsx:73-97 | ticking a booking without a finalised profile asks first, and a refusal sends nothing; otherwise the booking is sent as Completed or Scheduled, and on success it is updated and logged; a failure changes nothing |
| `AppointmentDetailsPage.BookingFromSaved` | pages/AppointmentDetails.tsx:99-133 | the new booking takes the saved id (or `ref.id`), the form's name, phone, date and time, and the intake defaults, with status Scheduled |
| `AppointmentDetailsPage.HandleConfirmBooking` | pages/AppointmentDetails.tsx:99-133 | nothing is sent with any intake field empty; otherwise the request has the form's fields, and on success the booking is added (which live-syncs) and the form cleared |
| `AppointmentDetailsPage.HandleUpdateSubmit` | pages/AppointmentDetails.tsx:135-149 | a Completed booking without a finalised profile is refused before any call; on success the booking is updated and the editor closed |
| `AppointmentDetailsPage.HandleDelete` | pages/AppointmentDetails.tsx:151-161 | only a confirmed delete is sent; on success the booking goes and a warning is logged |
| `AppointmentDetailsPage.OpenedProfile` | pages/AppointmentDetails.tsx:163-175 | the booking's own profile, or a blank unfinalised one with Medium urgency |
| `AppointmentDetailsPage.WithProfile` | pages/AppointmentDetails.tsx:177-191 | the saved booking differs only in its profile, which is the edited one with the finalised flag set as asked |
| `AppointmentDetailsPage.SaveMatchProfile` | pages/AppointmentDetails.tsx:177-191 | with a booking open, it sends that booking with the edited profile; on success it is stored and the editor closed |
| `AppointmentDetailsPage.IsProfileValid` | pages/AppointmentDetails.tsx:193-198 | valid exactly with a class, a non-blank budget and, when the subject is typed by hand, a non-blank subject name |
| `AppointmentDetailsPage.ToggleSubjectFlips` | pages/AppointmentDetails.tsx:205-212 | toggling flips whether the subject is selected, keeps every other subject as often as before, and appends a new one at the end |
| `AppointmentDetailsPage.ToggleSubjectTwice` | pages/AppointmentDetails.tsx:205-212 | toggling a new subject twice restores the selection |
| `AppointmentDetailsPage.ToggleSubject` | pages/AppointmentDetails.tsx:205-212 | a selected subject is no longer selected afterwards and the list does not grow; an unselected one is appended at the end |
| `AppointmentDetailsPage.CleanBudgetSpec` | pages/AppointmentDetails.tsx:214-218 | the budget keeps exactly digits, '/', 'h' and whitespace, as often as they occurred; it is unchanged exactly when already clean; cleaning twice equals cleaning once |
| `AppointmentDetailsPage.CleanBudget` | pages/AppointmentDetails.tsx:214-218 | the cleaned budget is no longer than the input and holds only digits, '/', 'h' and whitespace |
| `ContactInquiriesPage.FormatContact` | pages/ContactInquiries.tsx:18-29 | missing name, subject, date and status take 'Unknown', 'General Inquiry', today and Pending; the other fields are kept |
| `ContactInquiriesPage.FormatContacts` | pages/ContactInquiries.tsx:18-29 | the list keeps its length and each contact is normalised in place |
| `ContactInquiriesPage.FormatContactRoundTrip` | pages/ContactInquiries.tsx:18-29 | a stored inquiry with name, subject and date filled in comes back from the backend unchanged |
| `ContactInquiriesPage.FetchContacts` | pages/ContactInquiries.tsx:15-31 | a non-empty fetch replaces the inquiries with their normalised forms; otherwise nothing changes |
| `ContactInquiriesPage.HandleToggleResolved` | pages/ContactInquiries.tsx:65-82 | the inquiry is sent with its status flipped between Pending and Resolved, and on success it is updated and logged |
| `ContactInquiriesPage.InquiryFromSaved` | pages/ContactInquiries.tsx:84-112 | the new inquiry is the saved contact, with its id falling back to `_id` |
| `ContactInquiriesPage.HandleAddSubmit` | pages/ContactInquiries.tsx:84-112 | nothing is sent without a name and an email; on success the inquiry is added and logged and the form reset; a failure keeps the form |
| `ContactInquiriesPage.AddSubmitLogsTwice` | pages/ContactInquiries.tsx:84-112 | a manual add leaves the page's entry on top of the live-sync entry and prepends the inquiry |
| `ContactInquiriesPage.HandleUpdateSubmit` | pages/ContactInquiries.tsx:114-125 | the edited inquiry is sent; on success it is updated and logged and the editor closed |
| `ContactInquiriesPage.HandleDelete` | pages/ContactInquiries.tsx:127-137 | only a confirmed delete is sent; on success the inquiry goes and a warning is logged |
| `RepositoriesPage.FetchRepos` | pages/Repositories.tsx:12-21 | a non-empty fetch replaces the repositories; otherwise nothing changes |
| `RepositoriesPage.HandleSave` | pages/Repositories.tsx:28-39 | the edit is sent; editing ends exactly on success, when the repository is updated and logged |
| `RepositoriesPage.HandleAddNew` | pages/Repositories.tsx:41-59 | nothing is sent without a name and a URL; the request has lastSync 'Never'; on success the repository is added and logged and the form reset |
| `RepositoriesPage.HandleDelete` | pages/Repositories.tsx:61-69 | on success the repository goes and a warning is logged; a failure changes nothing |
| `RepositoriesPage.AddNewLogsTwice` | pages/Repositories.tsx:41-59 | a created repository is stamped `now` and two entries go on top: the page's, then the live-sync one |
| `GoogleSheetsPage.FetchRepos` | pages/GoogleSheets.tsx:15-23 | a non-empty fetch replaces the repositories; otherwise nothing changes |
| `GoogleSheetsPage.HandleSave` | pages/GoogleSheets.tsx:25-36 | the edit is sent; editing ends exactly on success, when the sheet link is updated and logged |
| `GoogleSheetsPage.HandleAddNew` | pages/GoogleSheets.tsx:38-56 | nothing is sent without a name and a URL; the request has no category; on success the entry is added and logged and the form reset |
| `GoogleSheetsPage.HandleDelete` | pages/GoogleSheets.tsx:58-65 | on success only the reducer's removal with its live-sync entry happens; a failure changes nothing |
| `GoogleSheetsPage.DeleteLogsOnce` | pages/GoogleSheets.tsx:58-65 | a deletion adds exactly one log entry, even for an unknown id |
| `AiAssistantPage.Mount` | pages/AiAssistant.tsx:25-27 | opening the page marks the chat read |
| `AiAssistantPage.HandleInputChange` | pages/AiAssistant.tsx:42-46 | each keystroke replaces and persists the draft |
| `AiAssistantPage.HandleSend` | pages/AiAssistant.tsx:29-40 | nothing happens for a blank draft or while a reply is pending; otherwise the draft is cleared, sent as the prompt and appended as the user's message, and the request is pending |
| `AiAssistantPage.SendThenSettle` | pages/AiAssistant.tsx:29-40 | a send and its settled reply leave the draft empty, two more messages (the prompt, then the reply or the failure text), nothing pending and the reply unread |
| `AiAssistantPage.CloseFrom` | pages/AiAssistant.tsx:50 | the lazy `.*?` ends at the first `**` reached before any line terminator, and at none when there is no such `**` |
| `AiAssistantPage.MatchAt` | pages/AiAssistant.tsx:50 | a match is at least four characters and opens and closes with `**` |
| `AiAssistantPage.Segments` | pages/AiAssistant.tsx:50 | the split alternates free text and matches and yields an odd number of pieces |
| `AiAssistantPage.Parts` | pages/AiAssistant.tsx:50 | splitting a line yields at least one piece |
| `AiAssistantPage.ConcatPair` | pages/AiAssistant.tsx:50 | joining pieces is associative across the first two pieces |
| `AiAssistantPage.SegmentsConcat` | pages/AiAssistant.tsx:50 | the pieces of the split concatenate to the line |
| `AiAssistantPage.SegmentsCaptured` | pages/AiAssistant.tsx:50 | every odd-numbered piece is a captured `**…**` match |
| `AiAssistantPage.SegmentsWithoutStars` | pages/AiAssistant.tsx:50 | with no `**` in the line the split yields it whole |
| `AiAssistantPage.Render` | pages/AiAssistant.tsx:51-56 | a piece opening and closing with `**` is shown bold without its asterisks; any other piece is shown as it is |
| `AiAssistantPage.RenderAll` | pages/AiAssistant.tsx:51-56 | every piece is rendered in place |
| `AiAssistantPage.MatchesRenderBold` | pages/AiAssistant.tsx:50-56 | every match in a line is shown bold, with exactly its inner text |
| `AiAssistantPage.BulletBody` | pages/AiAssistant.tsx:58 | a list item is leading whitespace, a '* ' or '- ' marker, then its body |
| `AiAssistantPage.BlockPerLine` | pages/AiAssistant.tsx:48-67 | a reply yields one block per line, one more than its newlines, each formatted from its own line |
| `AiAssistantPage.FormatText` | pages/AiAssistant.tsx:48-67 | corrected `formatText`: one block per line, one more than the reply has newlines, and a block is a list item exactly when its line is one |
| `AiAssistantPage.FormatTextAsWritten` | pages/AiAssistant.tsx:48-67 | `formatText` as written: the same block structure as the corrected version, one block per line and list items exactly for list lines |
| `AiAssistantPage.FormatLine` | pages/AiAssistant.tsx:50-65 | a line becomes a list item exactly when its trimmed form starts with `* ` or `- `, otherwise a paragraph with one piece per part of the line |
| `AiAssistantPage.FormatLineAsWritten` | pages/AiAssistant.tsx:58-61 | as written: the same choice between list item and paragraph, the paragraph holding one piece per part of the line |
| `AiAssistantPage.NoStarsSuffix` | pages/AiAssistant.tsx:58-61 | a line without `**` has none in any suffix either |
| `AiAssistantPage.PlainLine` | pages/AiAssistant.tsx:50-56 | a line without `**` renders as one plain piece |
| `AiAssistantPage.BulletWithoutStars` | pages/AiAssistant.tsx:58-61 | a list item without `**` renders empty as written; corrected, it shows exactly its text after the marker |
| `AiAssistantPage.BodyWithoutStars` | pages/AiAssistant.tsx:58-61 | the body of a list item without `**` has none either |
| `AiAssistantPage.BulletTextLost` | pages/AiAssistant.tsx:58-61 | the reply line "- item" becomes an empty list item as written and shows "item" once corrected |
| `AuthPage.Validate` | pages/Auth.tsx:37-68 | an error exactly when some check fails; every failing check sets its field flag, and only the first failure (email, then password, then name at signup) sets the message |
| `AuthPage.SignIn` | pages/Auth.tsx:70-82 | signs in exactly when the saved account's email and password match, or the built-in administrator's credentials are given; any non-default user signed in is the saved account; a matching saved account is tried first and wins even with the administrator's credentials |
| `AuthPage.HandleSubmit` | pages/Auth.tsx:28-93 | a failed validation shows its message and flags and changes nothing else; a login sets the user and the session or reports invalid credentials; a signup saves the account, switches to login and clears the fields |
| `AuthPage.DefaultAdminSignsIn` | pages/Auth.tsx:70-82 | the built-in administrator always signs in, as 'Default Admin' when no account is saved |
| `AuthPage.SignupThenLogin` | pages/Auth.tsx:70-92 | an accepted signup's credentials pass login validation and sign in as the account just saved |
| `AuthPage.SavedAccountSignsIn` | pages/Auth.tsx:70-92 | once signup has saved an account, logging in with that account's email and password gives back exactly that account, whatever was saved before |
| `AuthPage.SignupReplacesAccount` | pages/Auth.tsx:83-92 | a second signup with the same email replaces the first, whose password no longer signs in |
| `AuthPage.ValidatePassword` | pages/Auth.tsx:23-26 | a password of six or more characters passes and one of fewer than three fails; when every character lies in the Basic Multilingual Plane it passes exactly when it has at least six |
| `AuthPage.AstralPasswordAccepted` | pages/Auth.tsx:25 | three emoji pass, because each counts as two code units; two emoji or five letters do not |
| `ProfilePage.RetentionActivity` | pages/Profile.tsx:27-30 | the logged text names 'Active' with the number of days, or 'Inactive' |
| `ProfilePage.HandleRetentionUpdate` | pages/Profile.tsx:27-30 | saves both settings, then logs one info entry |
| `ProfilePage.ToggleRetention` | pages/Profile.tsx:106 | the switch flips the cleanup on or off and keeps the cycle |
| `ProfilePage.SelectRetentionDays` | pages/Profile.tsx:118 | the selector sets the days and keeps the switch |
| `ProfilePage.RetentionUpdateSurvivesReload` | pages/Profile.tsx:27-30 | the saved retention settings are read back after a reload |
| `ProfilePage.HandleDeleteAccount` | pages/Profile.tsx:43-50 | the master password or the user's own password logs out and clears the error; any other password sets the error and changes nothing; the session survives exactly when the password is refused |
| `ProfilePage.HandleManualCleanup` | pages/Profile.tsx:52-57 | a confirmed cleanup throws before dispatching, since the action creator it calls is not exported by the store; the success alert never shows and the store does not change |

## Left out

- The socket service, timers, `FileReader`, and the profile form's delayed save (pages/Profile.tsx:17-25, 32-41) are not modelled. They only schedule work or read files.
- `document.body.className` and JSX rendering are output only. `formatText` renders to `Block`/`Inline` values instead.
- The textarea height logic (pages/AiAssistant.tsx:42-46) is output only.
- Alerts and console output are not modelled.
- `window.matchMedia` is not modelled. Its answer is the parameter `prefersDark`.
- The email regular expression is not modelled. Its verdict is the parameter `emailValid`.
- Timestamps are integer milliseconds, not ISO strings. A log's id is the same clock reading `now`. The cleanup compares those integers, and the day length is 86,400,000 ms. In the source a repository whose `createdAt` is missing or unparsable becomes an Invalid Date at store/index.ts:261, no comparison with it holds, and the cleanup always removes it; such a repository can arrive from the backend through `setRepositories`. The model's `createdAt` is always an integer, so that case does not arise.
- A handler reads the clock once, as `now`. The reducer's live-sync entry and the page's own `addLog` entry both use it, so the two always share id and timestamp. The source calls `Date.now()` separately for each (store/index.ts:129-130, 245-246), so its two entries may differ by a millisecond or more.
- Reading back a value that fails `JSON.parse` is not modelled. The constructor's validity promise needs `WellFormed` storage, which the store's own writes give (`ConsistentStorageWellFormed`).
- An ok response whose body is not JSON is not modelled: `Reply` always carries parsed data. In the source, `response.json()` at services/apiService.ts:17 then rejects, so a list call gives `[]` and a mutating call fails.
- `Number(days) || 14` is modelled for the three periods the type allows. It cannot represent other stored strings.
- The context string the AI request builds from the store (store/index.ts:83-87) is not modelled. The backend answer is a parameter, so the prompt's context does not affect it.
- The rejected AI request's error message is left out. The reducer ignores it.
- Strings are sequences of Unicode characters, whereas JavaScript strings are UTF-16. The only string length the core measures is the password's (pages/Auth.tsx:25), and `Text.Utf16Length` counts it in UTF-16 code units. The one string slice, `part.slice(2, -2)` at pages/AiAssistant.tsx:53, cuts off ASCII asterisks, where both counts agree.
- JavaScript `undefined`, `null` and `""` are all modelled as `""` for string fields. The source's `||` treats them alike.
- `localStorage` keys are the enumeration `Key` rather than strings. `KeyName` gives each key's string, and `KeyNamesDistinct` shows nothing is conflated.
- The `repos &&` null test in pages/GoogleSheets.tsx:18 is not modelled. A list call returns `[]` on failure, so the length test is all that matters.
- `HandleManualCleanup`: pages/Profile.tsx:3 imports `runManualCleanup`, but store/index.ts:284-293 does not export it. A strict ES-module build refuses to link the page. A bundle that tolerates the import binds it to `undefined`, so `runManualCleanup()` at pages/Profile.tsx:54 throws a `TypeError` before anything is dispatched, and the alert at line 55 never shows. The model takes the second reading; the link failure is not modelled. Cleanup itself is `Store.AdminStore.RunCleanup`.
- In these places the code behaves as follows, and so does the model:
  - the cleanup cutoff is strict, so an entry stamped exactly at the cutoff is removed;
  - after cleanup the persisted log list can exceed 100 entries;
  - `removeInquiry`, `removeAppointment` and `removeManualMatch` add no live-sync log;
  - `logout` keeps `rt_user`;
  - `clearAiChat` does not persist the cleared unread flag;
  - a rejected AI request persists nothing.

## Findings

| source | as written | input that shows it | evidently intended | confidence | as-written member | corrected member |
|---|---|---|---|---|---|---|
| pages/AiAssistant.tsx:58-61 | a list item shows `renderedLine.slice(1)`, which drops the first rendered piece; for a line without bold text that piece is the whole line | the reply line "- item" renders as an empty list item | drop only the leading "- " or "* " marker and show the rest of the line | not executed | `AiAssistantPage.BulletTextLost` (over `FormatLineAsWritten`) | `AiAssistantPage.BulletWithoutStars` (over `FormatLine`) |

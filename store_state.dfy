/**
 * The state of the `admin` Redux slice of store/index.ts as a value: entity collections, the audit
 * log, retention settings, session, theme and the AI-chat transcript, together with `localStorage`.
 *
 * Each reducer's effect is a function of the state here (`ThemeToggled`, `InquiryAdded`, ...); the
 * methods of `Store.AdminStore` are proved to have exactly that effect, and page handlers are
 * specified with these functions. `Consistent` is what the reducers keep between memory and
 * `localStorage`, and `Loaded` is the page load that reads it back.
 */
module StoreState {
  import opened Types
  import opened Seqs
  import opened Api

  const LiveSyncPrefix := "[LIVE SYNC] "
  const Greeting := "Hello! I can help you summarize calls, find tutors, or check schedule gaps. What do you need?"
  const EmptyReplyText := "I'm ready to assist. Please ask your question again."
  const NetworkFailureText := "Network timeout. Retrieval failed."
  /** Number of newest log entries `addLog` and `triggerLiveSync` persist. */
  const LogCap := 100
  /** `24 * 60 * 60 * 1000`. */
  const DayMs := 86_400_000

  /** The `localStorage` keys the console uses. */
  datatype Key =
    | UserKey | AuthKey | TokenKey | ReposKey | InquiriesKey | AppointmentsKey | ManualMatchesKey
    | LogsKey | RetentionEnabledKey | RetentionDaysKey | AiDraftKey | AiHistoryKey | AiUnreadKey
    | ThemeKey | UserDbKey

  /** The key's string in `localStorage`. */
  function KeyName(k: Key): string
  {
    match k
    case UserKey => "rt_user"
    case AuthKey => "rt_auth"
    case TokenKey => "token"
    case ReposKey => "rt_repos"
    case InquiriesKey => "rt_inquiries"
    case AppointmentsKey => "rt_appointments"
    case ManualMatchesKey => "rt_manual_matches"
    case LogsKey => "rt_logs"
    case RetentionEnabledKey => "rt_retention_enabled"
    case RetentionDaysKey => "rt_retention_days"
    case AiDraftKey => "rt_ai_draft"
    case AiHistoryKey => "rt_ai_history"
    case AiUnreadKey => "rt_ai_unread"
    case ThemeKey => "rt_theme"
    case UserDbKey => "rt_user_db"
  }

  /** A `localStorage` value: a plain string, or the JSON text of one of the store's values. */
  datatype Stored =
    | Raw(text: string)
    | InquiryList(inquiries: seq<ContactInquiry>)
    | AppointmentList(appointments: seq<Appointment>)
    | MatchList(matches: seq<ManualMatch>)
    | RepoList(repositories: seq<Repository>)
    | LogList(logs: seq<SystemLog>)
    | ChatList(messages: seq<ChatMessage>)
    | UserRecord(user: AdminUser)

  /** No two keys share a string. */
  lemma KeyNamesDistinct(a: Key, b: Key)
    ensures KeyName(a) == KeyName(b) ==> a == b
  {
  }

  /** `String(b)`. */
  function BoolText(b: bool): string { if b then "true" else "false" }

  /** `String(days)`. */
  function DaysText(d: RetentionPeriod): string { if d == 7 then "7" else if d == 14 then "14" else "21" }

  function ThemeText(t: Theme): string { if t == Light then "light" else "dark" }

  /** The slice state (`AdminState` in the source) together with `localStorage`. */
  datatype AdminState = AdminState(
    user: Option<AdminUser>,
    isAuthenticated: bool,
    repositories: seq<Repository>,
    inquiries: seq<ContactInquiry>,
    appointments: seq<Appointment>,
    manualMatches: seq<ManualMatch>,
    logs: seq<SystemLog>,
    retentionEnabled: bool,
    retentionDays: RetentionPeriod,
    aiDraft: string,
    aiMessages: seq<ChatMessage>,
    isAiGenerating: bool,
    hasUnreadAiResponse: bool,
    theme: Theme,
    isSidebarOpen: bool,
    storage: map<Key, Stored>)

  // ---------------------------------------------------------------------------------------------
  // Page load

  /** `localStorage.getItem(k) === 'true'`. */
  predicate StoredTrue(st: map<Key, Stored>, k: Key) { k in st && st[k] == Raw("true") }

  /** `Number(localStorage.getItem('rt_retention_days')) || 14`, for the three values the type allows. */
  function LoadedDays(st: map<Key, Stored>): RetentionPeriod {
    if RetentionDaysKey in st && st[RetentionDaysKey] == Raw("7") then 7
    else if RetentionDaysKey in st && st[RetentionDaysKey] == Raw("21") then 21
    else 14
  }

  /** `getInitialTheme`: a saved 'light' or 'dark', otherwise the colour-scheme preference. */
  function LoadedTheme(st: map<Key, Stored>, prefersDark: bool): Theme {
    if ThemeKey in st && st[ThemeKey] == Raw("light") then Light
    else if ThemeKey in st && st[ThemeKey] == Raw("dark") then Dark
    else if prefersDark then Dark else Light
  }

  /** `initialState`: every persisted field read back from `st`, every other one at its default. */
  function Loaded(st: map<Key, Stored>, prefersDark: bool): AdminState {
    AdminState(
      if UserKey in st && st[UserKey].UserRecord? then Some(st[UserKey].user) else None,
      StoredTrue(st, AuthKey),
      if ReposKey in st && st[ReposKey].RepoList? then st[ReposKey].repositories else [],
      if InquiriesKey in st && st[InquiriesKey].InquiryList? then st[InquiriesKey].inquiries else [],
      if AppointmentsKey in st && st[AppointmentsKey].AppointmentList? then st[AppointmentsKey].appointments else [],
      if ManualMatchesKey in st && st[ManualMatchesKey].MatchList? then st[ManualMatchesKey].matches else [],
      if LogsKey in st && st[LogsKey].LogList? then st[LogsKey].logs else [],
      StoredTrue(st, RetentionEnabledKey),
      LoadedDays(st),
      if AiDraftKey in st && st[AiDraftKey].Raw? then st[AiDraftKey].text else "",
      if AiHistoryKey in st && st[AiHistoryKey].ChatList? then st[AiHistoryKey].messages else [ChatMessage(Ai, Greeting)],
      false,
      StoredTrue(st, AiUnreadKey),
      LoadedTheme(st, prefersDark),
      false,
      st)
  }

  /** How each key the store reads is laid out when it was written by the store itself. */
  predicate WellFormed(st: map<Key, Stored>) {
    && (UserKey in st ==> st[UserKey].UserRecord?)
    && (AuthKey in st ==> st[AuthKey] in {Raw("true"), Raw("false")})
    && (ReposKey in st ==> st[ReposKey].RepoList?)
    && (InquiriesKey in st ==> st[InquiriesKey].InquiryList?)
    && (AppointmentsKey in st ==> st[AppointmentsKey].AppointmentList?)
    && (ManualMatchesKey in st ==> st[ManualMatchesKey].MatchList?)
    && (LogsKey in st ==> st[LogsKey].LogList?)
    && (RetentionEnabledKey in st ==> st[RetentionEnabledKey] in {Raw("true"), Raw("false")})
    && (RetentionDaysKey in st ==> st[RetentionDaysKey] in {Raw("7"), Raw("14"), Raw("21")})
    && (AiDraftKey in st ==> st[AiDraftKey].Raw?)
    && (AiHistoryKey in st ==> st[AiHistoryKey].ChatList?)
    && (ThemeKey in st ==> st[ThemeKey] in {Raw("light"), Raw("dark")})
  }

  // ---------------------------------------------------------------------------------------------
  // The persistence invariant

  /** `key` holds `v`, or is absent and the field still has the value a page load gives an absent key. */
  predicate Mirrors(storage: map<Key, Stored>, key: Key, v: Stored, atDefault: bool) {
    if key in storage then storage[key] == v else atDefault
  }

  /** The persisted log list is a prefix of the in-memory one that holds at least its newest 100 entries. */
  predicate LogsMirrored(storage: map<Key, Stored>, logs: seq<SystemLog>) {
    if LogsKey in storage then
      storage[LogsKey].LogList? && IsPrefix(storage[LogsKey].logs, logs) && Min(LogCap, |logs|) <= |storage[LogsKey].logs|
    else logs == []
  }

  /**
   * What every reducer keeps: the four collections, the retention settings, the draft and the
   * session flag agree with their keys; the persisted logs and chat history are prefixes of the
   * in-memory ones (the rejected AI request appends without persisting); a signed-in user is
   * persisted. The unread flag has no such relation: `clearAiChat` clears it without persisting.
   */
  predicate Consistent(s: AdminState) {
    && Mirrors(s.storage, InquiriesKey, InquiryList(s.inquiries), s.inquiries == [])
    && Mirrors(s.storage, AppointmentsKey, AppointmentList(s.appointments), s.appointments == [])
    && Mirrors(s.storage, ManualMatchesKey, MatchList(s.manualMatches), s.manualMatches == [])
    && Mirrors(s.storage, ReposKey, RepoList(s.repositories), s.repositories == [])
    && LogsMirrored(s.storage, s.logs)
    && Mirrors(s.storage, RetentionEnabledKey, Raw(BoolText(s.retentionEnabled)), !s.retentionEnabled)
    && Mirrors(s.storage, RetentionDaysKey, Raw(DaysText(s.retentionDays)), s.retentionDays == 14)
    && Mirrors(s.storage, AiDraftKey, Raw(s.aiDraft), s.aiDraft == "")
    && Mirrors(s.storage, AuthKey, Raw(BoolText(s.isAuthenticated)), !s.isAuthenticated)
    && (ThemeKey in s.storage ==> s.storage[ThemeKey] == Raw(ThemeText(s.theme)))
    && (AiHistoryKey in s.storage ==> s.storage[AiHistoryKey].ChatList? && IsPrefix(s.storage[AiHistoryKey].messages, s.aiMessages))
    && (UserKey in s.storage ==> s.storage[UserKey].UserRecord?)
    && (s.user.Some? ==> UserKey in s.storage && s.storage[UserKey] == UserRecord(s.user.value))
  }

  /** A first visit: loading an empty `localStorage` gives the defaults, and they are consistent. */
  lemma EmptyStorageLoadsDefaults(prefersDark: bool)
    ensures var s := Loaded(map[], prefersDark);
      && s == AdminState(None, false, [], [], [], [], [], false, 14, "", [ChatMessage(Ai, Greeting)], false, false,
                         if prefersDark then Dark else Light, false, map[])
      && Consistent(s)
  {
  }

  /** Whatever the store writes is laid out as the page load expects. */
  lemma ConsistentStorageWellFormed(s: AdminState)
    requires Consistent(s)
    ensures WellFormed(s.storage)
  {
  }

  /** Loading well-formed storage gives a consistent state over the same storage. */
  lemma LoadedConsistent(st: map<Key, Stored>, prefersDark: bool)
    requires WellFormed(st)
    ensures Loaded(st, prefersDark).storage == st
    ensures Consistent(Loaded(st, prefersDark))
  {
    var s := Loaded(st, prefersDark);
    if LogsKey in st {
      PrefixRefl(st[LogsKey].logs);
    }
    if AiHistoryKey in st {
      PrefixRefl(st[AiHistoryKey].messages);
    }
    if RetentionEnabledKey in st {
      assert st[RetentionEnabledKey] == Raw(BoolText(s.retentionEnabled));
    }
    if RetentionDaysKey in st {
      assert st[RetentionDaysKey] == Raw(DaysText(s.retentionDays));
    }
    if AuthKey in st {
      assert st[AuthKey] == Raw(BoolText(s.isAuthenticated));
    }
    if ThemeKey in st {
      assert st[ThemeKey] == Raw(ThemeText(s.theme));
    }
  }

  /**
   * Reloading the page restores what the reducers persisted: the collections, retention settings,
   * draft, session flag and theme come back as they were; a signed-in user comes back; the logs
   * come back as a prefix holding at least the newest 100; the chat transcript as a prefix.
   */
  lemma ReloadRestores(s: AdminState, prefersDark: bool)
    requires Consistent(s)
    ensures var r := Loaded(s.storage, prefersDark);
      && r.inquiries == s.inquiries && r.appointments == s.appointments
      && r.manualMatches == s.manualMatches && r.repositories == s.repositories
      && r.retentionEnabled == s.retentionEnabled && r.retentionDays == s.retentionDays
      && r.aiDraft == s.aiDraft && r.isAuthenticated == s.isAuthenticated
      && (s.user.Some? ==> r.user == s.user)
      && (ThemeKey in s.storage ==> r.theme == s.theme)
      && IsPrefix(r.logs, s.logs) && Min(LogCap, |s.logs|) <= |r.logs|
      && (AiHistoryKey in s.storage ==> IsPrefix(r.aiMessages, s.aiMessages))
  {
    var r := Loaded(s.storage, prefersDark);
    assert r.retentionDays == s.retentionDays by {
      if RetentionDaysKey in s.storage {
        assert s.storage[RetentionDaysKey] == Raw(DaysText(s.retentionDays));
      }
    }
    assert r.theme == s.theme || ThemeKey !in s.storage by {
      if ThemeKey in s.storage {
        assert s.storage[ThemeKey] == Raw(ThemeText(s.theme));
      }
    }
    assert r.isAuthenticated == s.isAuthenticated by {
      if AuthKey in s.storage {
        assert s.storage[AuthKey] == Raw(BoolText(s.isAuthenticated));
      }
    }
    assert r.retentionEnabled == s.retentionEnabled by {
      if RetentionEnabledKey in s.storage {
        assert s.storage[RetentionEnabledKey] == Raw(BoolText(s.retentionEnabled));
      }
    }
  }

  // ---------------------------------------------------------------------------------------------
  // The reducers as functions of the state

  function ThemeToggled(s: AdminState): AdminState {
    var t := if s.theme == Light then Dark else Light;
    s.(theme := t, storage := s.storage[ThemeKey := Raw(ThemeText(t))])
  }

  function UserSet(s: AdminState, u: AdminUser): AdminState {
    s.(user := Some(u), storage := s.storage[UserKey := UserRecord(u)])
  }

  function AuthSet(s: AdminState, b: bool): AdminState {
    s.(isAuthenticated := b, storage := s.storage[AuthKey := Raw(BoolText(b))])
  }

  function LoggedOut(s: AdminState): AdminState {
    s.(user := None, isAuthenticated := false, storage := s.storage - {AuthKey, TokenKey})
  }

  /** `state.logs.unshift(log)` followed by persisting `state.logs.slice(0, 100)`. */
  function PushLog(s: AdminState, log: SystemLog): AdminState {
    var logs := [log] + s.logs;
    s.(logs := logs, storage := s.storage[LogsKey := LogList(Take(logs, LogCap))])
  }

  /** The effect of `triggerLiveSync(payload)` at clock reading `now`; the actor falls back to 'Automated Sync'. */
  function LiveSynced(s: AdminState, payload: string, now: int): AdminState {
    PushLog(s, SystemLog(now, now, LiveSyncPrefix + payload, ActorName(s.user, "Automated Sync"), Success))
  }

  /** The effect of `addLog({activity, admin, status})` at clock reading `now`. */
  function Logged(s: AdminState, activity: string, admin: string, status: LogStatus, now: int): AdminState {
    PushLog(s, SystemLog(now, now, activity, admin, status))
  }

  /** The whole log list persisted, as `runCleanup` does (no cap). */
  function LogsStored(s: AdminState, logs: seq<SystemLog>): AdminState {
    s.(logs := logs, storage := s.storage[LogsKey := LogList(logs)])
  }

  function RepositoriesStored(s: AdminState, xs: seq<Repository>): AdminState {
    s.(repositories := xs, storage := s.storage[ReposKey := RepoList(xs)])
  }

  function RepositoryAdded(s: AdminState, x: Repository, now: int): AdminState {
    LiveSynced(RepositoriesStored(s, [x.(createdAt := now)] + s.repositories), "Repository '" + x.name + "' mirrored to Sheets", now)
  }

  function RepositoryUpdated(s: AdminState, x: Repository, now: int): AdminState {
    if FirstIndex(s.repositories, RepositoryId, x.id) == -1 then s
    else LiveSynced(RepositoriesStored(s, UpdateFirst(s.repositories, RepositoryId, x)), "Updates for repository '" + x.name + "' pushed to Sheets", now)
  }

  /** `repositories.find(r => r.id === id)?.name`, which prints as 'undefined' when absent. */
  function RemovedName(repos: seq<Repository>, id: string): (name: string)
    ensures Find(repos, RepositoryId, id).None? ==> name == "undefined"
    ensures Find(repos, RepositoryId, id).Some? ==> name == Find(repos, RepositoryId, id).value.name
  {
    match Find(repos, RepositoryId, id)
    case Some(r) => r.name
    case None => "undefined"
  }

  function RepositoryRemoved(s: AdminState, id: string, now: int): AdminState {
    LiveSynced(RepositoriesStored(s, RemoveById(s.repositories, RepositoryId, id)),
               "Repository '" + RemovedName(s.repositories, id) + "' unlinked and synced", now)
  }

  function InquiriesStored(s: AdminState, xs: seq<ContactInquiry>): AdminState {
    s.(inquiries := xs, storage := s.storage[InquiriesKey := InquiryList(xs)])
  }

  function InquiryAdded(s: AdminState, x: ContactInquiry, now: int): AdminState {
    LiveSynced(InquiriesStored(s, [x] + s.inquiries), "Inquiry from " + x.name + " recorded and backed up", now)
  }

  function InquiryUpdated(s: AdminState, x: ContactInquiry, now: int): AdminState {
    if FirstIndex(s.inquiries, InquiryId, x.id) == -1 then s
    else LiveSynced(InquiriesStored(s, UpdateFirst(s.inquiries, InquiryId, x)), "Status update for inquiry " + x.name + " mirrored", now)
  }

  function InquiryRemoved(s: AdminState, id: string): AdminState {
    InquiriesStored(s, RemoveById(s.inquiries, InquiryId, id))
  }

  function AppointmentsStored(s: AdminState, xs: seq<Appointment>): AdminState {
    s.(appointments := xs, storage := s.storage[AppointmentsKey := AppointmentList(xs)])
  }

  function AppointmentAdded(s: AdminState, x: Appointment, now: int): AdminState {
    LiveSynced(AppointmentsStored(s, [x] + s.appointments), "Booking for " + x.parentName + " established and synced", now)
  }

  function AppointmentUpdated(s: AdminState, x: Appointment, now: int): AdminState {
    if FirstIndex(s.appointments, AppointmentId, x.id) == -1 then s
    else LiveSynced(AppointmentsStored(s, UpdateFirst(s.appointments, AppointmentId, x)), "Match Profile/Status for " + x.parentName + " updated", now)
  }

  function AppointmentRemoved(s: AdminState, id: string): AdminState {
    AppointmentsStored(s, RemoveById(s.appointments, AppointmentId, id))
  }

  function ManualMatchesStored(s: AdminState, xs: seq<ManualMatch>): AdminState {
    s.(manualMatches := xs, storage := s.storage[ManualMatchesKey := MatchList(xs)])
  }

  function ManualMatchAdded(s: AdminState, x: ManualMatch, now: int): AdminState {
    LiveSynced(ManualMatchesStored(s, [x] + s.manualMatches), "Registry record for " + x.parentName + " pushed to database", now)
  }

  function ManualMatchUpdated(s: AdminState, x: ManualMatch, now: int): AdminState {
    if FirstIndex(s.manualMatches, ManualMatchId, x.id) == -1 then s
    else LiveSynced(ManualMatchesStored(s, UpdateFirst(s.manualMatches, ManualMatchId, x)), "Updated match details for " + x.parentName + " mirrored", now)
  }

  function ManualMatchRemoved(s: AdminState, id: string): AdminState {
    ManualMatchesStored(s, RemoveById(s.manualMatches, ManualMatchId, id))
  }

  function RetentionSet(s: AdminState, enabled: bool, days: RetentionPeriod): AdminState {
    s.(retentionEnabled := enabled, retentionDays := days,
       storage := s.storage[RetentionEnabledKey := Raw(BoolText(enabled))][RetentionDaysKey := Raw(DaysText(days))])
  }

  /** `Date.now() - retentionDays * 24 * 60 * 60 * 1000`. */
  function Cutoff(now: int, days: RetentionPeriod): int {
    now - days * DayMs
  }

  function KeepLog(cutoff: int): SystemLog -> bool { (l: SystemLog) => l.timestamp > cutoff }

  function KeepRepository(cutoff: int): Repository -> bool { (r: Repository) => r.createdAt > cutoff }

  /** The effect of `runCleanup` at clock reading `now`: both lists persisted uncapped. */
  function CleanedUp(s: AdminState, now: int): (t: AdminState)
    ensures !s.retentionEnabled ==> t == s
    ensures |t.logs| <= |s.logs| && |t.repositories| <= |s.repositories|
    ensures t.(logs := s.logs, repositories := s.repositories, storage := s.storage) == s
    ensures t.storage.Keys == s.storage.Keys + (if s.retentionEnabled then {LogsKey, ReposKey} else {})
  {
    if !s.retentionEnabled then s
    else
      var cutoff := Cutoff(now, s.retentionDays);
      RepositoriesStored(LogsStored(s, Filter(s.logs, KeepLog(cutoff))), Filter(s.repositories, KeepRepository(cutoff)))
  }

  function DraftSet(s: AdminState, text: string): AdminState {
    s.(aiDraft := text, storage := s.storage[AiDraftKey := Raw(text)])
  }

  /** `state.aiMessages.push(m)` followed by persisting the whole transcript. */
  function MessagePersisted(s: AdminState, m: ChatMessage): AdminState {
    var messages := s.aiMessages + [m];
    s.(aiMessages := messages, storage := s.storage[AiHistoryKey := ChatList(messages)])
  }

  function UserMessageAdded(s: AdminState, text: string): AdminState {
    MessagePersisted(s, ChatMessage(User, text))
  }

  function ChatCleared(s: AdminState): AdminState {
    s.(aiMessages := [ChatMessage(Ai, Greeting)], hasUnreadAiResponse := false,
       storage := s.storage[AiHistoryKey := ChatList([ChatMessage(Ai, Greeting)])])
  }

  function MarkedRead(s: AdminState): AdminState {
    s.(hasUnreadAiResponse := false, storage := s.storage[AiUnreadKey := Raw("false")])
  }

  /** `triggerAiRequest.pending`. */
  function AiStarted(s: AdminState): AdminState {
    s.(isAiGenerating := true)
  }

  /** Generation over, the response flagged unread and that flag persisted. */
  function ReplyFlagged(s: AdminState): AdminState {
    s.(isAiGenerating := false, hasUnreadAiResponse := true, storage := s.storage[AiUnreadKey := Raw("true")])
  }

  /** `triggerAiRequest.fulfilled`: the reply is appended and the transcript and the unread flag persisted. */
  function AiAnswered(s: AdminState, reply: string): AdminState {
    ReplyFlagged(MessagePersisted(s, ChatMessage(Ai, reply)))
  }

  lemma ReplyFlaggedConsistent(s: AdminState)
    ensures Consistent(s) ==> Consistent(ReplyFlagged(s))
  {
  }

  /** A pushed log keeps the persisted list a prefix holding the newest 100. */
  lemma PushLogConsistent(s: AdminState, log: SystemLog)
    ensures Consistent(s) ==> Consistent(PushLog(s, log))
  {
    var logs := [log] + s.logs;
    IsPrefixIff(Take(logs, LogCap), logs);
  }

  lemma MessagePersistedConsistent(s: AdminState, m: ChatMessage)
    ensures Consistent(s) ==> Consistent(MessagePersisted(s, m))
  {
    PrefixRefl(MessagePersisted(s, m).aiMessages);
  }

  /** The rejected request appends without persisting: the persisted transcript stays a prefix. */
  lemma AiFailedConsistent(s: AdminState)
    ensures Consistent(s) ==> Consistent(AiFailed(s))
  {
    if Consistent(s) && AiHistoryKey in s.storage {
      PrefixExtend(s.storage[AiHistoryKey].messages, s.aiMessages, ChatMessage(Ai, NetworkFailureText));
    }
  }

  /** `triggerAiRequest.rejected`: nothing is persisted. */
  function AiFailed(s: AdminState): AdminState {
    s.(isAiGenerating := false, aiMessages := s.aiMessages + [ChatMessage(Ai, NetworkFailureText)], hasUnreadAiResponse := true)
  }

  /** The `triggerAiRequest` payload: an empty reply is replaced by a prompt to ask again. */
  function AiReply(backend: Outcome<string>): (r: Outcome<string>)
    ensures r.Ok? <==> backend.Ok?
    ensures r.Ok? ==> r.value != ""
    ensures r.Ok? && backend.value != "" ==> r.value == backend.value
  {
    match backend
    case Ok(text) => Ok(OrElse(text, EmptyReplyText))
    case Err(m) => Err(OrElse(m, NetworkFailureText))
  }

  /** The settled `triggerAiRequest`: the reply is appended, or the fixed failure text is. */
  function AiSettled(s: AdminState, backend: Outcome<string>): AdminState {
    match AiReply(backend)
    case Ok(text) => AiAnswered(s, text)
    case Err(_) => AiFailed(s)
  }

  // ---------------------------------------------------------------------------------------------
  // Each reducer keeps the persistence invariant

  lemma ThemeToggledConsistent(s: AdminState)
    ensures Consistent(s) ==> Consistent(ThemeToggled(s))
  {
  }

  lemma UserSetConsistent(s: AdminState, u: AdminUser)
    ensures Consistent(s) ==> Consistent(UserSet(s, u))
  {
  }

  lemma AuthSetConsistent(s: AdminState, b: bool)
    ensures Consistent(s) ==> Consistent(AuthSet(s, b))
  {
  }

  lemma LoggedOutConsistent(s: AdminState)
    ensures Consistent(s) ==> Consistent(LoggedOut(s))
  {
  }

  lemma LogsStoredConsistent(s: AdminState, logs: seq<SystemLog>)
    ensures Consistent(s) ==> Consistent(LogsStored(s, logs))
  {
    PrefixRefl(logs);
  }

  lemma RepositoriesStoredConsistent(s: AdminState, xs: seq<Repository>)
    ensures Consistent(s) ==> Consistent(RepositoriesStored(s, xs))
  {
  }

  lemma InquiriesStoredConsistent(s: AdminState, xs: seq<ContactInquiry>)
    ensures Consistent(s) ==> Consistent(InquiriesStored(s, xs))
  {
  }

  lemma AppointmentsStoredConsistent(s: AdminState, xs: seq<Appointment>)
    ensures Consistent(s) ==> Consistent(AppointmentsStored(s, xs))
  {
  }

  lemma ManualMatchesStoredConsistent(s: AdminState, xs: seq<ManualMatch>)
    ensures Consistent(s) ==> Consistent(ManualMatchesStored(s, xs))
  {
  }

  lemma RetentionSetConsistent(s: AdminState, enabled: bool, days: RetentionPeriod)
    ensures Consistent(s) ==> Consistent(RetentionSet(s, enabled, days))
  {
  }

  lemma DraftSetConsistent(s: AdminState, text: string)
    ensures Consistent(s) ==> Consistent(DraftSet(s, text))
  {
  }

  lemma ChatClearedConsistent(s: AdminState)
    ensures Consistent(s) ==> Consistent(ChatCleared(s))
  {
    PrefixRefl([ChatMessage(Ai, Greeting)]);
  }

  /** Writing the signup account under `rt_user_db` touches no mirrored key. */
  lemma AccountSavedConsistent(s: AdminState, u: AdminUser)
    ensures Consistent(s) ==> Consistent(s.(storage := s.storage[UserDbKey := UserRecord(u)]))
  {
  }

  lemma MarkedReadConsistent(s: AdminState)
    ensures Consistent(s) ==> Consistent(MarkedRead(s))
  {
  }

  // ---------------------------------------------------------------------------------------------
  // Properties of the log and of cleanup

  /** A log push persists exactly the newest min(100, n) of the n in-memory entries, newest first. */
  lemma PushLogPersistsNewest(s: AdminState, log: SystemLog)
    ensures var t := PushLog(s, log);
      && t.logs == [log] + s.logs
      && t.storage[LogsKey] == LogList(t.logs[..Min(LogCap, |t.logs|)])
      && |t.storage[LogsKey].logs| <= LogCap
      && t.storage[LogsKey].logs[0] == log
  {
  }

  /**
   * A reducer that live-syncs followed by an `addLog` leaves two new entries on top of the old
   * logs: the page's entry first, then the live-sync entry.
   */
  lemma LiveSyncThenLog(s: AdminState, payload: string, activity: string, admin: string, status: LogStatus, now: int)
    ensures var t := Logged(LiveSynced(s, payload, now), activity, admin, status, now);
      && t.logs == [SystemLog(now, now, activity, admin, status),
                    SystemLog(now, now, LiveSyncPrefix + payload, ActorName(s.user, "Automated Sync"), Success)] + s.logs
      && t.storage[LogsKey].logs == t.logs[..Min(LogCap, |t.logs|)]
  {
  }

  /**
   * With retention on, cleanup keeps exactly the logs and repositories strictly newer than the
   * cutoff (one stamped exactly at the cutoff goes), each as often as before, and persists both
   * lists uncapped; every other field is untouched. With retention off it changes nothing.
   */
  lemma CleanupKeepsExactlyNewer(s: AdminState, now: int)
    ensures !s.retentionEnabled ==> CleanedUp(s, now) == s
    ensures s.retentionEnabled ==>
      var t, cutoff := CleanedUp(s, now), Cutoff(now, s.retentionDays);
      && (forall l :: multiset(t.logs)[l] == if l.timestamp > cutoff then multiset(s.logs)[l] else 0)
      && (forall r :: multiset(t.repositories)[r] == if r.createdAt > cutoff then multiset(s.repositories)[r] else 0)
      && t.storage[LogsKey] == LogList(t.logs) && t.storage[ReposKey] == RepoList(t.repositories)
      && t == s.(logs := t.logs, repositories := t.repositories, storage := t.storage)
  {
    if s.retentionEnabled {
      var cutoff := Cutoff(now, s.retentionDays);
      FilterMultiset(s.logs, KeepLog(cutoff));
      FilterMultiset(s.repositories, KeepRepository(cutoff));
    }
  }

  /**
   * Cleanup keeps order: with retention on, the surviving logs and repositories sit at increasing
   * positions of the old lists, and every old entry newer than the cutoff is among them. Cleaning
   * the logs `a + b` is cleaning `a`, then `b`.
   */
  lemma CleanupKeepsOrder(s: AdminState, now: int, a: seq<SystemLog>, b: seq<SystemLog>)
    ensures s.retentionEnabled ==>
      var t, cutoff := CleanedUp(s, now), Cutoff(now, s.retentionDays);
      && Embeds(t.logs, s.logs, KeptPositions(s.logs, KeepLog(cutoff)))
      && (forall i :: 0 <= i < |s.logs| && s.logs[i].timestamp > cutoff ==> i in KeptPositions(s.logs, KeepLog(cutoff)))
      && Embeds(t.repositories, s.repositories, KeptPositions(s.repositories, KeepRepository(cutoff)))
      && (forall i :: 0 <= i < |s.repositories| && s.repositories[i].createdAt > cutoff ==>
            i in KeptPositions(s.repositories, KeepRepository(cutoff)))
    ensures CleanedUp(s.(logs := a + b), now).logs == CleanedUp(s.(logs := a), now).logs + CleanedUp(s.(logs := b), now).logs
  {
    var cutoff := Cutoff(now, s.retentionDays);
    if s.retentionEnabled {
      FilterKeepsOrder(s.logs, KeepLog(cutoff));
      FilterKeepsOrder(s.repositories, KeepRepository(cutoff));
      FilterAppend(a, b, KeepLog(cutoff));
    }
  }

  /** Running cleanup twice at the same instant is running it once. */
  lemma CleanupIdempotent(s: AdminState, now: int)
    ensures CleanedUp(CleanedUp(s, now), now) == CleanedUp(s, now)
  {
    if s.retentionEnabled {
      var cutoff := Cutoff(now, s.retentionDays);
      var t := CleanedUp(s, now);
      FilterIdempotent(s.logs, KeepLog(cutoff));
      FilterIdempotent(s.repositories, KeepRepository(cutoff));
      assert t.storage[LogsKey := LogList(t.logs)][ReposKey := RepoList(t.repositories)] == t.storage;
    }
  }

  /** Cleanup keeps the persistence invariant. */
  lemma CleanupConsistent(s: AdminState, now: int)
    ensures Consistent(s) ==> Consistent(CleanedUp(s, now))
  {
    if s.retentionEnabled {
      var cutoff := Cutoff(now, s.retentionDays);
      var pruned := LogsStored(s, Filter(s.logs, KeepLog(cutoff)));
      LogsStoredConsistent(s, pruned.logs);
      RepositoriesStoredConsistent(pruned, Filter(s.repositories, KeepRepository(cutoff)));
    }
  }

}

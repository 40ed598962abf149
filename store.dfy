/**
 * The `admin` Redux slice of store/index.ts as an object: its state as fields, `localStorage` as
 * the field `storage`, and one method per reducer. Each method is proved to leave `Model()` equal
 * to the matching function of `StoreState` applied to the old state, and to keep `Valid()`, the
 * persistence invariant `Consistent`.
 */
module Store {
  import opened Types
  import opened Seqs
  import opened Api
  import opened StoreState

  class AdminStore {
    var user: Option<AdminUser>
    var isAuthenticated: bool
    var repositories: seq<Repository>
    var inquiries: seq<ContactInquiry>
    var appointments: seq<Appointment>
    var manualMatches: seq<ManualMatch>
    var logs: seq<SystemLog>
    var retentionEnabled: bool
    var retentionDays: RetentionPeriod
    var aiDraft: string
    var aiMessages: seq<ChatMessage>
    var isAiGenerating: bool
    var hasUnreadAiResponse: bool
    var theme: Theme
    var isSidebarOpen: bool
    /** `localStorage`. */
    var storage: map<Key, Stored>

    function Model(): AdminState
      reads this
    {
      AdminState(user, isAuthenticated, repositories, inquiries, appointments, manualMatches, logs,
                 retentionEnabled, retentionDays, aiDraft, aiMessages, isAiGenerating,
                 hasUnreadAiResponse, theme, isSidebarOpen, storage)
    }

    ghost predicate Valid()
      reads this
    {
      Consistent(Model())
    }

    /**
     * The page load over the `localStorage` contents `saved`; `prefersDark` is the colour-scheme
     * media query. Storage the store wrote itself gives a valid store.
     */
    constructor (saved: map<Key, Stored>, prefersDark: bool)
      ensures Model() == Loaded(saved, prefersDark)
      ensures WellFormed(saved) ==> Valid()
    {
      var s := Loaded(saved, prefersDark);
      user, isAuthenticated, repositories, inquiries := s.user, s.isAuthenticated, s.repositories, s.inquiries;
      appointments, manualMatches, logs := s.appointments, s.manualMatches, s.logs;
      retentionEnabled, retentionDays, aiDraft, aiMessages := s.retentionEnabled, s.retentionDays, s.aiDraft, s.aiMessages;
      isAiGenerating, hasUnreadAiResponse, theme, isSidebarOpen := s.isAiGenerating, s.hasUnreadAiResponse, s.theme, s.isSidebarOpen;
      storage := s.storage;
      new;
      if WellFormed(saved) {
        LoadedConsistent(saved, prefersDark);
      }
    }

    method ToggleTheme()
      requires Valid()
      modifies this
      ensures Model() == ThemeToggled(old(Model()))
      ensures Valid()
    {
      ThemeToggledConsistent(Model());
      var t := if theme == Light then Dark else Light;
      theme, storage := t, storage[ThemeKey := Raw(ThemeText(t))];
    }

    method ToggleSidebar()
      requires Valid()
      modifies this
      ensures Model() == old(Model()).(isSidebarOpen := !old(isSidebarOpen))
      ensures Valid()
    {
      isSidebarOpen := !isSidebarOpen;
    }

    method SetSidebarOpen(open: bool)
      requires Valid()
      modifies this
      ensures Model() == old(Model()).(isSidebarOpen := open)
      ensures Valid()
    {
      isSidebarOpen := open;
    }

    method SetUser(u: AdminUser)
      requires Valid()
      modifies this
      ensures Model() == UserSet(old(Model()), u)
      ensures Valid()
    {
      UserSetConsistent(Model(), u);
      user, storage := Some(u), storage[UserKey := UserRecord(u)];
    }

    method SetAuth(b: bool)
      requires Valid()
      modifies this
      ensures Model() == AuthSet(old(Model()), b)
      ensures Valid()
    {
      AuthSetConsistent(Model(), b);
      isAuthenticated, storage := b, storage[AuthKey := Raw(BoolText(b))];
    }

    /** Ends the session; the persisted user record (`rt_user`) and every collection stay. */
    method Logout()
      requires Valid()
      modifies this
      ensures Model() == LoggedOut(old(Model()))
      ensures Valid()
    {
      LoggedOutConsistent(Model());
      user, isAuthenticated, storage := None, false, storage - {AuthKey, TokenKey};
    }

    method TriggerLiveSync(payload: string, now: int)
      requires Valid()
      modifies this
      ensures Model() == LiveSynced(old(Model()), payload, now)
      ensures Valid()
    {
      PushLogConsistent(Model(), SystemLog(now, now, LiveSyncPrefix + payload, ActorName(user, "Automated Sync"), Success));
      var entry := SystemLog(now, now, LiveSyncPrefix + payload, ActorName(user, "Automated Sync"), Success);
      var pushed := [entry] + logs;
      logs, storage := pushed, storage[LogsKey := LogList(Take(pushed, LogCap))];
    }

    method AddLog(activity: string, admin: string, status: LogStatus, now: int)
      requires Valid()
      modifies this
      ensures Model() == Logged(old(Model()), activity, admin, status, now)
      ensures Valid()
    {
      PushLogConsistent(Model(), SystemLog(now, now, activity, admin, status));
      var pushed := [SystemLog(now, now, activity, admin, status)] + logs;
      logs, storage := pushed, storage[LogsKey := LogList(Take(pushed, LogCap))];
    }

    method SetRepositories(xs: seq<Repository>)
      requires Valid()
      modifies this
      ensures Model() == RepositoriesStored(old(Model()), xs)
      ensures Valid()
    {
      RepositoriesStoredConsistent(Model(), xs);
      repositories, storage := xs, storage[ReposKey := RepoList(xs)];
    }

    /** Prepends `x` stamped with the current time and logs the mirroring. */
    method AddRepository(x: Repository, now: int)
      requires Valid()
      modifies this
      ensures Model() == RepositoryAdded(old(Model()), x, now)
      ensures Valid()
    {
      var added := x.(createdAt := now);
      SetRepositories([added] + repositories);
      TriggerLiveSync("Repository '" + added.name + "' mirrored to Sheets", now);
    }

    method UpdateRepository(x: Repository, now: int)
      requires Valid()
      modifies this
      ensures Model() == RepositoryUpdated(old(Model()), x, now)
      ensures Valid()
    {
      var index := FirstIndex(repositories, RepositoryId, x.id);
      if index != -1 {
        SetRepositories(repositories[index := x]);
        TriggerLiveSync("Updates for repository '" + x.name + "' pushed to Sheets", now);
      }
    }

    /** Always logs, even for an unknown id. */
    method RemoveRepository(id: string, now: int)
      requires Valid()
      modifies this
      ensures Model() == RepositoryRemoved(old(Model()), id, now)
      ensures Valid()
    {
      var name := RemovedName(repositories, id);
      SetRepositories(RemoveById(repositories, RepositoryId, id));
      TriggerLiveSync("Repository '" + name + "' unlinked and synced", now);
    }

    method SetInquiries(xs: seq<ContactInquiry>)
      requires Valid()
      modifies this
      ensures Model() == InquiriesStored(old(Model()), xs)
      ensures Valid()
    {
      InquiriesStoredConsistent(Model(), xs);
      inquiries, storage := xs, storage[InquiriesKey := InquiryList(xs)];
    }

    method AddInquiry(x: ContactInquiry, now: int)
      requires Valid()
      modifies this
      ensures Model() == InquiryAdded(old(Model()), x, now)
      ensures Valid()
    {
      SetInquiries([x] + inquiries);
      TriggerLiveSync("Inquiry from " + x.name + " recorded and backed up", now);
    }

    method UpdateInquiry(x: ContactInquiry, now: int)
      requires Valid()
      modifies this
      ensures Model() == InquiryUpdated(old(Model()), x, now)
      ensures Valid()
    {
      var index := FirstIndex(inquiries, InquiryId, x.id);
      if index != -1 {
        SetInquiries(inquiries[index := x]);
        TriggerLiveSync("Status update for inquiry " + x.name + " mirrored", now);
      }
    }

    /** Adds no log. */
    method RemoveInquiry(id: string)
      requires Valid()
      modifies this
      ensures Model() == InquiryRemoved(old(Model()), id)
      ensures Valid()
    {
      SetInquiries(RemoveById(inquiries, InquiryId, id));
    }

    method SetAppointments(xs: seq<Appointment>)
      requires Valid()
      modifies this
      ensures Model() == AppointmentsStored(old(Model()), xs)
      ensures Valid()
    {
      AppointmentsStoredConsistent(Model(), xs);
      appointments, storage := xs, storage[AppointmentsKey := AppointmentList(xs)];
    }

    method AddAppointment(x: Appointment, now: int)
      requires Valid()
      modifies this
      ensures Model() == AppointmentAdded(old(Model()), x, now)
      ensures Valid()
    {
      SetAppointments([x] + appointments);
      TriggerLiveSync("Booking for " + x.parentName + " established and synced", now);
    }

    method UpdateAppointment(x: Appointment, now: int)
      requires Valid()
      modifies this
      ensures Model() == AppointmentUpdated(old(Model()), x, now)
      ensures Valid()
    {
      var index := FirstIndex(appointments, AppointmentId, x.id);
      if index != -1 {
        SetAppointments(appointments[index := x]);
        TriggerLiveSync("Match Profile/Status for " + x.parentName + " updated", now);
      }
    }

    /** Adds no log. */
    method RemoveAppointment(id: string)
      requires Valid()
      modifies this
      ensures Model() == AppointmentRemoved(old(Model()), id)
      ensures Valid()
    {
      SetAppointments(RemoveById(appointments, AppointmentId, id));
    }

    method SetManualMatches(xs: seq<ManualMatch>)
      requires Valid()
      modifies this
      ensures Model() == ManualMatchesStored(old(Model()), xs)
      ensures Valid()
    {
      ManualMatchesStoredConsistent(Model(), xs);
      manualMatches, storage := xs, storage[ManualMatchesKey := MatchList(xs)];
    }

    method AddManualMatch(x: ManualMatch, now: int)
      requires Valid()
      modifies this
      ensures Model() == ManualMatchAdded(old(Model()), x, now)
      ensures Valid()
    {
      SetManualMatches([x] + manualMatches);
      TriggerLiveSync("Registry record for " + x.parentName + " pushed to database", now);
    }

    method UpdateManualMatch(x: ManualMatch, now: int)
      requires Valid()
      modifies this
      ensures Model() == ManualMatchUpdated(old(Model()), x, now)
      ensures Valid()
    {
      var index := FirstIndex(manualMatches, ManualMatchId, x.id);
      if index != -1 {
        SetManualMatches(manualMatches[index := x]);
        TriggerLiveSync("Updated match details for " + x.parentName + " mirrored", now);
      }
    }

    /** Adds no log. */
    method RemoveManualMatch(id: string)
      requires Valid()
      modifies this
      ensures Model() == ManualMatchRemoved(old(Model()), id)
      ensures Valid()
    {
      SetManualMatches(RemoveById(manualMatches, ManualMatchId, id));
    }

    method SetRetention(enabled: bool, days: RetentionPeriod)
      requires Valid()
      modifies this
      ensures Model() == RetentionSet(old(Model()), enabled, days)
      ensures Valid()
    {
      RetentionSetConsistent(Model(), enabled, days);
      retentionEnabled, retentionDays, storage :=
        enabled, days, storage[RetentionEnabledKey := Raw(BoolText(enabled))][RetentionDaysKey := Raw(DaysText(days))];
    }

    method RunCleanup(now: int)
      requires Valid()
      modifies this
      ensures Model() == CleanedUp(old(Model()), now)
      ensures Valid()
    {
      if retentionEnabled {
        var cutoff := Cutoff(now, retentionDays);
        var keptLogs := Filter(logs, KeepLog(cutoff));
        var keptRepositories := Filter(repositories, KeepRepository(cutoff));
        StoreLogs(keptLogs);
        SetRepositories(keptRepositories);
      }
    }

    /** Replaces the logs and persists the whole list. */
    method StoreLogs(xs: seq<SystemLog>)
      requires Valid()
      modifies this
      ensures Model() == LogsStored(old(Model()), xs)
      ensures Valid()
    {
      LogsStoredConsistent(Model(), xs);
      logs, storage := xs, storage[LogsKey := LogList(xs)];
    }

    method SetAiDraft(text: string)
      requires Valid()
      modifies this
      ensures Model() == DraftSet(old(Model()), text)
      ensures Valid()
    {
      DraftSetConsistent(Model(), text);
      aiDraft, storage := text, storage[AiDraftKey := Raw(text)];
    }

    method AddUserMessage(text: string)
      requires Valid()
      modifies this
      ensures Model() == UserMessageAdded(old(Model()), text)
      ensures Valid()
    {
      PushMessage(ChatMessage(User, text));
    }

    /** Appends one message to the transcript and persists the whole transcript. */
    method PushMessage(m: ChatMessage)
      requires Valid()
      modifies this
      ensures Model() == MessagePersisted(old(Model()), m)
      ensures Valid()
    {
      MessagePersistedConsistent(Model(), m);
      var messages := aiMessages + [m];
      aiMessages, storage := messages, storage[AiHistoryKey := ChatList(messages)];
    }

    /** Resets the transcript to the greeting; the cleared unread flag is not persisted. */
    method ClearAiChat()
      requires Valid()
      modifies this
      ensures Model() == ChatCleared(old(Model()))
      ensures Valid()
    {
      ChatClearedConsistent(Model());
      var greeting := [ChatMessage(Ai, Greeting)];
      aiMessages, hasUnreadAiResponse, storage := greeting, false, storage[AiHistoryKey := ChatList(greeting)];
    }

    method MarkAiAsRead()
      requires Valid()
      modifies this
      ensures Model() == MarkedRead(old(Model()))
      ensures Valid()
    {
      MarkedReadConsistent(Model());
      hasUnreadAiResponse, storage := false, storage[AiUnreadKey := Raw("false")];
    }

    /** `triggerAiRequest.pending`. */
    method AiPending()
      requires Valid()
      modifies this
      ensures Model() == AiStarted(old(Model()))
      ensures Valid()
    {
      isAiGenerating := true;
    }

    /** `triggerAiRequest.fulfilled`. */
    method AiFulfilled(reply: string)
      requires Valid()
      modifies this
      ensures Model() == AiAnswered(old(Model()), reply)
      ensures Valid()
    {
      PushMessage(ChatMessage(Ai, reply));
      ReplyFlaggedConsistent(Model());
      isAiGenerating, hasUnreadAiResponse, storage := false, true, storage[AiUnreadKey := Raw("true")];
    }

    /** `triggerAiRequest.rejected`. */
    method AiRejected()
      requires Valid()
      modifies this
      ensures Model() == AiFailed(old(Model()))
      ensures Valid()
    {
      AiFailedConsistent(Model());
      isAiGenerating, aiMessages, hasUnreadAiResponse := false, aiMessages + [ChatMessage(Ai, NetworkFailureText)], true;
    }

    /**
     * Settles a pending `triggerAiRequest` with the chat call's outcome: exactly one AI message is
     * appended, generation stops and the response is flagged unread; a failure persists nothing.
     */
    method CompleteAiRequest(backend: Outcome<string>)
      requires Valid()
      modifies this
      ensures Model() == AiSettled(old(Model()), backend)
      ensures !isAiGenerating && hasUnreadAiResponse
      ensures aiMessages == old(aiMessages) + [ChatMessage(Ai, if backend.Ok? then AiReply(backend).value else NetworkFailureText)]
      ensures backend.Err? ==> storage == old(storage)
      ensures Valid()
    {
      match AiReply(backend)
      case Ok(text) => AiFulfilled(text);
      case Err(_) => AiRejected();
    }
  }
}

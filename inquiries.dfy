/**
 * pages/ContactInquiries.tsx: the inquiry list's fetch normaliser and its handlers (resolved
 * toggle, manual add, edit, delete). Handlers take the store, their inputs, the settled backend
 * call and the clock reading `now`; `today` is `new Date().toISOString().split('T')[0]`.
 */
module ContactInquiriesPage {
  import opened Types
  import opened Api
  import opened StoreState
  import Store

  /** A contact as the backend returns it; a missing string field is "". */
  datatype RawContact = RawContact(
    id: string,
    name: string,
    email: string,
    phone: string,
    subject: string,
    message: string,
    date: string,
    status: Option<Status>)

  /** The `contacts.map(...)` body: each missing field takes its page default. */
  function FormatContact(c: RawContact, today: string): (iq: ContactInquiry)
    ensures iq.id == c.id && iq.email == c.email && iq.phone == c.phone && iq.message == c.message
    ensures iq.name == OrElse(c.name, "Unknown") && iq.subject == OrElse(c.subject, "General Inquiry")
    ensures iq.date == OrElse(c.date, today) && iq.status == c.status.GetOr(Pending)
  {
    ContactInquiry(c.id, OrElse(c.name, "Unknown"), c.email, c.phone, OrElse(c.subject, "General Inquiry"),
                   c.message, OrElse(c.date, today), c.status.GetOr(Pending))
  }

  function FormatContacts(cs: seq<RawContact>, today: string): (r: seq<ContactInquiry>)
    ensures |r| == |cs|
    ensures forall i :: 0 <= i < |cs| ==> r[i] == FormatContact(cs[i], today)
  {
    if cs == [] then [] else [FormatContact(cs[0], today)] + FormatContacts(cs[1..], today)
  }

  /** The backend form of a stored inquiry. */
  function ToRaw(iq: ContactInquiry): RawContact {
    RawContact(iq.id, iq.name, iq.email, iq.phone, iq.subject, iq.message, iq.date, Some(iq.status))
  }

  /** An inquiry whose name, subject and date are filled in comes back from the backend unchanged. */
  lemma FormatContactRoundTrip(iq: ContactInquiry, today: string)
    requires iq.name != "" && iq.subject != "" && iq.date != ""
    ensures FormatContact(ToRaw(iq), today) == iq
  {
  }

  /** Replaces the inquiries with the normalised fetch result, unless it is empty (or the call failed). */
  method FetchContacts(st: Store.AdminStore, t: Transport<seq<RawContact>>, today: string)
    requires st.Valid()
    modifies st
    ensures st.Model() == if ListCall(t) == [] then old(st.Model()) else InquiriesStored(old(st.Model()), FormatContacts(ListCall(t), today))
    ensures st.Valid()
  {
    var contacts := ListCall(t);
    if |contacts| > 0 {
      st.SetInquiries(FormatContacts(contacts, today));
    }
  }

  /** `handleToggleResolved`: sends the inquiry as Resolved (ticked) or Pending and, on success, updates and logs it. */
  method HandleToggleResolved(st: Store.AdminStore, iq: ContactInquiry, checked: bool, backend: Outcome<()>, now: int)
    returns (request: ContactInquiry)
    requires st.Valid()
    modifies st
    ensures request == iq.(status := if checked then Resolved else Pending)
    ensures backend.Ok? ==>
      st.Model() == Logged(InquiryUpdated(old(st.Model()), request, now),
                           "Marked inquiry from " + iq.name + " as " + StatusName(request.status),
                           ActorName(old(st.user), "Admin"), Info, now)
    ensures backend.Err? ==> st.Model() == old(st.Model())
    ensures st.Valid()
  {
    var newStatus := if checked then Resolved else Pending;
    request := iq.(status := newStatus);
    if backend.Ok? {
      var admin := ActorName(st.user, "Admin");
      st.UpdateInquiry(request, now);
      st.AddLog("Marked inquiry from " + iq.name + " as " + StatusName(newStatus), admin, Info, now);
    }
  }

  /** The manual-entry form (`Partial<ContactInquiry>`); an untouched field is "". */
  datatype InquiryForm = InquiryForm(name: string, email: string, phone: string, subject: string, message: string, status: Status)

  const EmptyInquiryForm := InquiryForm("", "", "", "", "", Pending)

  /** The body sent to `addContact`: the form stamped with today's date. */
  datatype ContactRequest = ContactRequest(form: InquiryForm, date: string)

  /** What `addContact` returns; `mongoId` is its `_id` ("" when absent). */
  datatype SavedContact = SavedContact(id: string, mongoId: string, name: string, email: string, phone: string,
                                       subject: string, message: string, date: string, status: Status)

  /** The inquiry `handleAddSubmit` builds from the saved contact. */
  function InquiryFromSaved(saved: SavedContact): (iq: ContactInquiry)
    ensures iq.id == (if saved.id != "" then saved.id else saved.mongoId)
    ensures iq.name == saved.name && iq.email == saved.email && iq.phone == saved.phone && iq.subject == saved.subject
    ensures iq.message == saved.message && iq.date == saved.date && iq.status == saved.status
  {
    ContactInquiry(OrElse(saved.id, saved.mongoId), saved.name, saved.email, saved.phone, saved.subject,
                   saved.message, saved.date, saved.status)
  }

  /**
   * `handleAddSubmit`: without a name or an email nothing happens; otherwise the entry is sent and,
   * if saved, added to the store (which live-syncs) and logged, and the form is reset.
   */
  method HandleAddSubmit(st: Store.AdminStore, form: InquiryForm, backend: Outcome<SavedContact>, today: string, now: int)
    returns (request: Option<ContactRequest>, form': InquiryForm)
    requires st.Valid()
    modifies st
    ensures request.None? <==> form.name == "" || form.email == ""
    ensures request.Some? ==> request.value == ContactRequest(form, today)
    ensures request.Some? && backend.Ok? ==>
      var iq := InquiryFromSaved(backend.value);
      st.Model() == Logged(InquiryAdded(old(st.Model()), iq, now), "Manually added inquiry from " + iq.name,
                           ActorName(old(st.user), "Admin"), Success, now)
      && form' == EmptyInquiryForm
    ensures request.None? || backend.Err? ==> st.Model() == old(st.Model()) && form' == form
    ensures st.Valid()
  {
    form' := form;
    if form.name == "" || form.email == "" {
      return None, form';
    }
    request := Some(ContactRequest(form, today));
    if backend.Ok? {
      var iq := InquiryFromSaved(backend.value);
      var admin := ActorName(st.user, "Admin");
      st.AddInquiry(iq, now);
      st.AddLog("Manually added inquiry from " + iq.name, admin, Success, now);
      form' := EmptyInquiryForm;
    }
  }

  /** A successful manual add leaves two new log entries on top: the page's, then the live-sync one. */
  lemma AddSubmitLogsTwice(s: AdminState, iq: ContactInquiry, admin: string, now: int)
    ensures var t := Logged(InquiryAdded(s, iq, now), "Manually added inquiry from " + iq.name, admin, Success, now);
      && |t.logs| == |s.logs| + 2 && t.logs[2..] == s.logs
      && t.logs[0].activity == "Manually added inquiry from " + iq.name && t.logs[0].status == Success
      && t.logs[1].activity == LiveSyncPrefix + "Inquiry from " + iq.name + " recorded and backed up" && t.logs[1].status == Success
      && t.inquiries == [iq] + s.inquiries
  {
    LiveSyncThenLog(InquiriesStored(s, [iq] + s.inquiries), "Inquiry from " + iq.name + " recorded and backed up",
                    "Manually added inquiry from " + iq.name, admin, Success, now);
  }

  /** `handleUpdateSubmit`: sends the edited inquiry and, on success, updates it, logs it and closes the editor. */
  method HandleUpdateSubmit(st: Store.AdminStore, editing: Option<ContactInquiry>, backend: Outcome<()>, now: int)
    returns (request: Option<ContactInquiry>, editing': Option<ContactInquiry>)
    requires st.Valid()
    modifies st
    ensures request == editing
    ensures request.Some? && backend.Ok? ==>
      st.Model() == Logged(InquiryUpdated(old(st.Model()), editing.value, now), "Updated inquiry state for " + editing.value.name,
                           ActorName(old(st.user), "Admin"), Info, now)
      && editing'.None?
    ensures request.None? || backend.Err? ==> st.Model() == old(st.Model()) && editing' == editing
    ensures st.Valid()
  {
    request, editing' := editing, editing;
    if editing.Some? && backend.Ok? {
      var admin := ActorName(st.user, "Admin");
      st.UpdateInquiry(editing.value, now);
      st.AddLog("Updated inquiry state for " + editing.value.name, admin, Info, now);
      editing' := None;
    }
  }

  /** `handleDelete`: only after confirmation; on success the inquiry goes and a warning is logged. */
  method HandleDelete(st: Store.AdminStore, id: string, name: string, confirmed: bool, backend: Outcome<bool>, now: int)
    returns (requested: bool)
    requires st.Valid()
    modifies st
    ensures requested == confirmed
    ensures confirmed && backend.Ok? ==>
      st.Model() == Logged(InquiryRemoved(old(st.Model()), id), "Deleted inquiry record: " + name,
                           ActorName(old(st.user), "Admin"), Warning, now)
    ensures !confirmed || backend.Err? ==> st.Model() == old(st.Model())
    ensures st.Valid()
  {
    requested := confirmed;
    if confirmed && backend.Ok? {
      var admin := ActorName(st.user, "Admin");
      st.RemoveInquiry(id);
      st.AddLog("Deleted inquiry record: " + name, admin, Warning, now);
    }
  }
}

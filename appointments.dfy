/**
 * pages/AppointmentDetails.tsx: the booking list's fetch normaliser, its handlers (attendance
 * toggle, new booking, edit, delete, match-profile save) and the match-profile form helpers.
 *
 * A handler takes the store, the form or record it acts on, the answer to its `window.confirm`
 * (where it asks one), the settled backend call and the clock reading `now`. It returns the
 * request it sent to the backend (`None` when a guard stopped it first) and the page state it
 * resets.
 */
module AppointmentDetailsPage {
  import opened Types
  import opened Text
  import opened Seqs
  import opened Api
  import opened StoreState
  import Store

  // ---------------------------------------------------------------------------------------------
  // fetchBookings

  /** A booking as the backend returns it; a missing string field is "". */
  datatype RawBooking = RawBooking(
    id: string,
    parentName: string,
    name: string,
    childName: string,
    email: string,
    phone: string,
    date: string,
    time: string,
    topic: string,
    status: Option<Status>,
    matchProfile: Option<MatchProfile>)

  /** The `bookings.map(...)` body: each missing field takes its page default. */
  function FormatBooking(b: RawBooking): (a: Appointment)
    ensures a.id == b.id
    ensures a.parentName == (if b.parentName != "" then b.parentName else if b.name != "" then b.name else "Unknown")
    ensures a.childName == OrElse(b.childName, "Intake Pending") && a.email == b.email
    ensures a.phone == OrElse(b.phone, "N/A") && a.date == b.date && a.time == b.time
    ensures a.topic == OrElse(b.topic, "General Consultation")
    ensures a.status == b.status.GetOr(Scheduled) && a.matchProfile == b.matchProfile
    ensures a.parentName != "" && a.childName != "" && a.phone != "" && a.topic != ""
  {
    Appointment(
      b.id,
      OrElse(OrElse(b.parentName, b.name), "Unknown"),
      OrElse(b.childName, "Intake Pending"),
      b.email,
      OrElse(b.phone, "N/A"),
      b.date,
      b.time,
      OrElse(b.topic, "General Consultation"),
      b.status.GetOr(Scheduled),
      b.matchProfile)
  }

  function FormatBookings(bs: seq<RawBooking>): (r: seq<Appointment>)
    ensures |r| == |bs|
    ensures forall i :: 0 <= i < |bs| ==> r[i] == FormatBooking(bs[i])
  {
    if bs == [] then [] else [FormatBooking(bs[0])] + FormatBookings(bs[1..])
  }

  /** The backend form of a stored appointment. */
  function ToRaw(a: Appointment): RawBooking {
    RawBooking(a.id, a.parentName, "", a.childName, a.email, a.phone, a.date, a.time, a.topic, Some(a.status), a.matchProfile)
  }

  /** An appointment whose display fields are filled in comes back from the backend unchanged. */
  lemma FormatBookingRoundTrip(a: Appointment)
    requires a.parentName != "" && a.childName != "" && a.phone != "" && a.topic != ""
    ensures FormatBooking(ToRaw(a)) == a
  {
  }

  /** Normalising is a projection: a normalised booking is a fixed point. */
  lemma FormatBookingIdempotent(b: RawBooking)
    ensures FormatBooking(ToRaw(FormatBooking(b))) == FormatBooking(b)
  {
    FormatBookingRoundTrip(FormatBooking(b));
  }

  /** Replaces the appointments with the normalised fetch result, unless it is empty (or the call failed). */
  method FetchBookings(st: Store.AdminStore, t: Transport<seq<RawBooking>>)
    requires st.Valid()
    modifies st
    ensures st.Model() == if ListCall(t) == [] then old(st.Model()) else AppointmentsStored(old(st.Model()), FormatBookings(ListCall(t)))
    ensures st.Valid()
  {
    var bookings := ListCall(t);
    if |bookings| > 0 {
      st.SetAppointments(FormatBookings(bookings));
    }
  }

  /** The stored list after a non-empty fetch has the fetched length and ids, in order. */
  lemma FetchKeepsIds(bs: seq<RawBooking>)
    ensures |FormatBookings(bs)| == |bs|
    ensures forall i :: 0 <= i < |bs| ==> FormatBookings(bs)[i].id == bs[i].id
  {
  }

  // ---------------------------------------------------------------------------------------------
  // Handlers

  /** `apt.matchProfile?.isFinalized`. */
  predicate IsFinalized(apt: Appointment) {
    apt.matchProfile.Some? && apt.matchProfile.value.isFinalized
  }

  /**
   * `handleToggleAttended`: ticking an unfinalised booking asks first, and a refusal stops
   * everything; otherwise the booking is sent with status Completed (ticked) or Scheduled and, if
   * the backend accepts, updated in the store and logged.
   */
  method HandleToggleAttended(st: Store.AdminStore, apt: Appointment, checked: bool, confirmed: bool, backend: Outcome<()>, now: int)
    returns (request: Option<Appointment>)
    requires st.Valid()
    modifies st
    ensures checked && !IsFinalized(apt) && !confirmed ==> request == None && st.Model() == old(st.Model())
    ensures !(checked && !IsFinalized(apt) && !confirmed) ==> request == Some(apt.(status := if checked then Completed else Scheduled))
    ensures request.Some? && backend.Ok? ==>
      st.Model() == Logged(AppointmentUpdated(old(st.Model()), request.value, now),
                           "Marked booking for " + apt.parentName + " as " + StatusName(request.value.status),
                           ActorName(old(st.user), "Admin"), Info, now)
    ensures backend.Err? ==> st.Model() == old(st.Model())
    ensures st.Valid()
  {
    if checked && !IsFinalized(apt) {
      if !confirmed {
        return None;
      }
    }
    var newStatus := if checked then Completed else Scheduled;
    var updated := apt.(status := newStatus);
    request := Some(updated);
    if backend.Ok? {
      var admin := ActorName(st.user, "Admin");
      st.UpdateAppointment(updated, now);
      st.AddLog("Marked booking for " + apt.parentName + " as " + StatusName(newStatus), admin, Info, now);
    }
  }

  /** The new-booking form. */
  datatype BookingForm = BookingForm(parentName: string, phone: string, date: string, time: string)

  const EmptyBookingForm := BookingForm("", "", "", "")

  /** The body sent to `addBooking`. */
  datatype BookingRequest = BookingRequest(name: string, phone: string, date: string, time: string)

  /** What `addBooking` returns; `refId` is `ref?.id` ("" when absent). */
  datatype SavedBooking = SavedBooking(id: string, refId: string, name: string, phone: string, date: string, time: string)

  /** The appointment `handleConfirmBooking` builds from the saved booking. */
  function BookingFromSaved(saved: SavedBooking): (a: Appointment)
    ensures a.id == (if saved.id != "" then saved.id else saved.refId)
    ensures a.parentName == saved.name && a.phone == saved.phone && a.date == saved.date && a.time == saved.time
    ensures a.childName == "Intake Pending" && a.email == "" && a.topic == "General Consultation"
    ensures a.status == Scheduled && a.matchProfile.None?
  {
    Appointment(OrElse(saved.id, saved.refId), saved.name, "Intake Pending", "", saved.phone, saved.date, saved.time,
                "General Consultation", Scheduled, None)
  }

  /**
   * `handleConfirmBooking`: with any intake field empty nothing is sent; otherwise the booking is
   * sent and, if saved, prepended to the store and the form is cleared.
   */
  method HandleConfirmBooking(st: Store.AdminStore, form: BookingForm, backend: Outcome<SavedBooking>, now: int)
    returns (request: Option<BookingRequest>, form': BookingForm)
    requires st.Valid()
    modifies st
    ensures request.None? <==> form.parentName == "" || form.phone == "" || form.date == "" || form.time == ""
    ensures request.Some? ==> request.value == BookingRequest(form.parentName, form.phone, form.date, form.time)
    ensures request.Some? && backend.Ok? ==>
      st.Model() == AppointmentAdded(old(st.Model()), BookingFromSaved(backend.value), now) && form' == EmptyBookingForm
    ensures request.None? || backend.Err? ==> st.Model() == old(st.Model()) && form' == form
    ensures st.Valid()
  {
    form' := form;
    if form.parentName == "" || form.phone == "" || form.date == "" || form.time == "" {
      return None, form';
    }
    request := Some(BookingRequest(form.parentName, form.phone, form.date, form.time));
    if backend.Ok? {
      st.AddAppointment(BookingFromSaved(backend.value), now);
      form' := EmptyBookingForm;
    }
  }

  /**
   * `handleUpdateSubmit`: a booking may not be saved as Completed unless its profile is
   * finalised; that check comes before any backend call. On success the store is updated
   * (no extra log) and the editor closed.
   */
  method HandleUpdateSubmit(st: Store.AdminStore, editing: Option<Appointment>, backend: Outcome<()>, now: int)
    returns (request: Option<Appointment>, editing': Option<Appointment>)
    requires st.Valid()
    modifies st
    ensures request.None? <==> editing.None? || (editing.value.status == Completed && !IsFinalized(editing.value))
    ensures request.Some? ==> request == editing
    ensures request.Some? && backend.Ok? ==> st.Model() == AppointmentUpdated(old(st.Model()), editing.value, now) && editing'.None?
    ensures request.None? || backend.Err? ==> st.Model() == old(st.Model()) && editing' == editing
    ensures st.Valid()
  {
    editing' := editing;
    if editing.None? {
      return None, editing';
    }
    var apt := editing.value;
    if apt.status == Completed && !IsFinalized(apt) {
      return None, editing';
    }
    request := Some(apt);
    if backend.Ok? {
      st.UpdateAppointment(apt, now);
      editing' := None;
    }
  }

  /** `handleDelete`: only after confirmation; on success the booking goes and a warning is logged. */
  method HandleDelete(st: Store.AdminStore, id: string, name: string, confirmed: bool, backend: Outcome<bool>, now: int)
    returns (requested: bool)
    requires st.Valid()
    modifies st
    ensures requested == confirmed
    ensures confirmed && backend.Ok? ==>
      st.Model() == Logged(AppointmentRemoved(old(st.Model()), id), "Appointment for " + name + " deleted from registry",
                           ActorName(old(st.user), "Admin"), Warning, now)
    ensures !confirmed || backend.Err? ==> st.Model() == old(st.Model())
    ensures st.Valid()
  {
    requested := confirmed;
    if confirmed && backend.Ok? {
      var admin := ActorName(st.user, "Admin");
      st.RemoveAppointment(id);
      st.AddLog("Appointment for " + name + " deleted from registry", admin, Warning, now);
    }
  }

  // ---------------------------------------------------------------------------------------------
  // The match profile

  const DefaultProfile := MatchProfile("", [], false, Some(""), Medium, "", "", false)

  /** `openMatchProfile`: the booking's profile, or a blank one. */
  function OpenedProfile(apt: Appointment): (p: MatchProfile)
    ensures apt.matchProfile.Some? ==> p == apt.matchProfile.value
    ensures apt.matchProfile.None? ==> p.selectedClass == "" && p.subjects == [] && !p.isFinalized && p.urgency == Medium
  {
    apt.matchProfile.GetOr(DefaultProfile)
  }

  /** The booking `saveMatchProfile(finalize)` sends: the edited profile with its finalised flag set to `finalize`. */
  function WithProfile(apt: Appointment, profile: MatchProfile, finalize: bool): (r: Appointment)
    ensures r.matchProfile.Some? && r.matchProfile.value.isFinalized == finalize
    ensures r.matchProfile.value.(isFinalized := profile.isFinalized) == profile
    ensures r.(matchProfile := apt.matchProfile) == apt
    ensures IsFinalized(r) == finalize
  {
    apt.(matchProfile := Some(profile.(isFinalized := finalize)))
  }

  /**
   * `saveMatchProfile(finalize)`: sends the open booking with the edited profile and, on success,
   * stores it and closes the editor. (The finalise button is disabled unless `IsProfileValid`.)
   */
  method SaveMatchProfile(st: Store.AdminStore, open: Option<Appointment>, profile: MatchProfile, finalize: bool, backend: Outcome<()>, now: int)
    returns (request: Option<Appointment>, open': Option<Appointment>)
    requires st.Valid()
    modifies st
    ensures request.None? <==> open.None?
    ensures request.Some? ==> request.value == WithProfile(open.value, profile, finalize)
    ensures request.Some? && backend.Ok? ==> st.Model() == AppointmentUpdated(old(st.Model()), request.value, now) && open'.None?
    ensures request.None? || backend.Err? ==> st.Model() == old(st.Model()) && open' == open
    ensures st.Valid()
  {
    open' := open;
    if open.None? {
      return None, open';
    }
    var updated := WithProfile(open.value, profile, finalize);
    request := Some(updated);
    if backend.Ok? {
      st.UpdateAppointment(updated, now);
      open' := None;
    }
  }

  /** `isProfileValid`: a class, a budget that is not blank, and a subject name that is not blank when entered by hand. */
  function IsProfileValid(p: MatchProfile): (valid: bool)
    ensures valid <==> p.selectedClass != "" && !AllSpace(p.parentBudget)
                       && (p.isManualSubject ==> !AllSpace(p.manualSubjectName.GetOr("")))
  {
    TrimEmptyIff(p.parentBudget);
    TrimEmptyIff(p.manualSubjectName.GetOr(""));
    p.selectedClass != "" && Trim(p.parentBudget) != ""
    && (if p.isManualSubject then p.manualSubjectName.Some? && Trim(p.manualSubjectName.value) != "" else true)
  }

  /** `toggleSubject`: every occurrence removed when present, otherwise appended at the end. */
  function ToggleSubject(subjects: seq<string>, sub: string): (r: seq<string>)
    ensures sub in subjects ==> sub !in r && |r| <= |subjects|
    ensures sub !in subjects ==> r == subjects + [sub]
  {
    if sub in subjects then Filter(subjects, (s: string) => s != sub) else subjects + [sub]
  }

  /** Toggling flips membership of `sub` and keeps every other subject as often as it occurred. */
  lemma ToggleSubjectFlips(subjects: seq<string>, sub: string)
    ensures sub in ToggleSubject(subjects, sub) <==> sub !in subjects
    ensures forall s :: s != sub ==> multiset(ToggleSubject(subjects, sub))[s] == multiset(subjects)[s]
    ensures sub !in subjects ==> ToggleSubject(subjects, sub) == subjects + [sub]
  {
    if sub in subjects {
      FilterMembership(subjects, (s: string) => s != sub, sub);
      FilterMultiset(subjects, (s: string) => s != sub);
    }
  }

  /** Toggling a subject that was not selected, twice, gives the original selection back. */
  lemma ToggleSubjectTwice(subjects: seq<string>, sub: string)
    requires sub !in subjects
    ensures ToggleSubject(ToggleSubject(subjects, sub), sub) == subjects
  {
    var added := subjects + [sub];
    assert sub in added;
    FilterAppend(subjects, [sub], (s: string) => s != sub);
    FilterUnchangedIff(subjects, (s: string) => s != sub);
    assert Filter([sub], (s: string) => s != sub) == [];
  }

  /** A character `/[^0-9/h\s]/` does not match. */
  predicate BudgetChar(c: char) {
    ('0' <= c <= '9') || c == '/' || c == 'h' || IsSpace(c)
  }

  /** `handleBudgetInput`: `val.replace(/[^0-9/h\s]/g, '')`. */
  function CleanBudget(val: string): (r: string)
    ensures |r| <= |val|
    ensures forall k :: 0 <= k < |r| ==> BudgetChar(r[k])
  {
    Filter(val, BudgetChar)
  }

  /**
   * Cleaning keeps exactly the allowed characters, each as often as it occurred and in order; it
   * changes nothing exactly when every character is allowed, so cleaning twice is cleaning once.
   */
  lemma CleanBudgetSpec(val: string)
    ensures forall k :: 0 <= k < |CleanBudget(val)| ==> BudgetChar(CleanBudget(val)[k])
    ensures forall c :: multiset(CleanBudget(val))[c] == if BudgetChar(c) then multiset(val)[c] else 0
    ensures CleanBudget(val) == val <==> forall k :: 0 <= k < |val| ==> BudgetChar(val[k])
    ensures CleanBudget(CleanBudget(val)) == CleanBudget(val)
  {
    FilterMultiset(val, BudgetChar);
    FilterUnchangedIff(val, BudgetChar);
    FilterIdempotent(val, BudgetChar);
  }
}

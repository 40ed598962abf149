/** Entities of the admin console (types.ts and the interfaces at the top of store/index.ts). */
module Types {

  /** An optional value: a JavaScript `undefined`/`null` is `None`. */
  datatype Option<+T> = None | Some(value: T) {
    function GetOr(default: T): (r: T)
      ensures Some? ==> r == value
      ensures None? ==> r == default
    {
      match this
      case Some(v) => v
      case None => default
    }
  }

  /** The shared status enumeration of inquiries, bookings and manual matches. */
  datatype Status =
    | Pending | Resolved | Scheduled | Completed | Cancelled
    | Processing | TrialPending | Assigned | Dropped

  /** The string value each enumeration member carries in the source. */
  function StatusName(s: Status): (name: string)
    ensures name != ""
  {
    match s
    case Pending => "Pending"
    case Resolved => "Resolved"
    case Scheduled => "Scheduled"
    case Completed => "Completed"
    case Cancelled => "Cancelled"
    case Processing => "Processing"
    case TrialPending => "Trial Pending"
    case Assigned => "Assigned"
    case Dropped => "Dropped"
  }

  datatype Urgency = Low | Medium | High | Critical

  /** Academic requirements attached to a booking; `isFinalized` gates completion. */
  datatype MatchProfile = MatchProfile(
    selectedClass: string,
    subjects: seq<string>,
    isManualSubject: bool,
    manualSubjectName: Option<string>,
    urgency: Urgency,
    deadline: string,
    parentBudget: string,
    isFinalized: bool)

  /** `phone` is optional in the source; an absent phone is "". */
  datatype ContactInquiry = ContactInquiry(
    id: string,
    name: string,
    email: string,
    phone: string,
    subject: string,
    message: string,
    date: string,
    status: Status)

  datatype Appointment = Appointment(
    id: string,
    parentName: string,
    childName: string,
    email: string,
    phone: string,
    date: string,
    time: string,
    topic: string,
    status: Status,
    matchProfile: Option<MatchProfile>)

  datatype ManualMatch = ManualMatch(
    id: string,
    parentName: string,
    phoneNumber: string,
    subject: string,
    gradeLevel: string,
    status: Status,
    dateAdded: string)

  /** `RetentionPeriod = 7 | 14 | 21`. */
  type RetentionPeriod = d: int | d == 7 || d == 14 || d == 21 witness 14

  /** `password` is optional: only a locally registered user carries one. */
  datatype AdminUser = AdminUser(name: string, email: string, avatar: string, phone: string, password: Option<string>)

  /** A sheet link; `createdAt` is the creation instant in milliseconds. */
  datatype Repository = Repository(
    id: string,
    name: string,
    url: string,
    category: string,
    assignedTo: string,
    lastSync: string,
    createdAt: int)

  datatype LogStatus = Success | Info | Warning

  /** An audit entry; `id` and `timestamp` are the clock reading (ms) at which it was made. */
  datatype SystemLog = SystemLog(id: int, timestamp: int, activity: string, admin: string, status: LogStatus)

  datatype Role = User | Ai

  datatype ChatMessage = ChatMessage(role: Role, text: string)

  datatype Theme = Light | Dark

  function InquiryId(x: ContactInquiry): string { x.id }
  function AppointmentId(x: Appointment): string { x.id }
  function ManualMatchId(x: ManualMatch): string { x.id }
  function RepositoryId(x: Repository): string { x.id }
  function LogTime(x: SystemLog): int { x.timestamp }
  function RepositoryTime(x: Repository): int { x.createdAt }

  /** `user?.name || fallback`: the acting admin's name, or `fallback` when signed out or nameless. */
  function ActorName(user: Option<AdminUser>, fallback: string): (name: string)
    ensures user.Some? && user.value.name != "" ==> name == user.value.name
    ensures user.None? || user.value.name == "" ==> name == fallback
  {
    if user.Some? && user.value.name != "" then user.value.name else fallback
  }

  /** `a || fallback` on strings: the empty string is falsy. */
  function OrElse(a: string, fallback: string): (r: string)
    ensures a != "" ==> r == a
    ensures a == "" ==> r == fallback
  {
    if a != "" then a else fallback
  }
}

/** Entities and status rules of the pickup module (model.go and store.go). */
module PickupModel {
  import opened Common

  type Time = nat
  type Day = int

  datatype OperationStatus = Draft | Confirmed | Started | Finished | Cancelled

  datatype MemberStatus =
    | Planned | PickedUp | SelfArrived | ParentPickedUp | Leave | Absent
    | Arrived | NotArrived | Left | MidwayLeft | Abnormal
    | Unknown(text: string)  // any other string a caller may pass

  predicate IsValidMemberStatus(status: MemberStatus) { !status.Planned? && !status.Unknown? }

  predicate IsValidMemberTransition(from: MemberStatus, to: MemberStatus) {
    from == to ||
    match from
    case Planned => to in {PickedUp, SelfArrived, ParentPickedUp, Leave, Absent}
    case PickedUp => to in {Arrived, NotArrived, Abnormal}
    case SelfArrived => to in {Arrived, Left, MidwayLeft, Abnormal}
    case NotArrived => to in {Arrived, Abnormal}
    case Abnormal => to in {Arrived, Abnormal}
    case Arrived => to in {Left, MidwayLeft, Abnormal}
    case _ => false
  }

  predicate IsReadyToFinish(status: MemberStatus) {
    status in {SelfArrived, ParentPickedUp, Leave, Absent, Arrived, Left, MidwayLeft}
  }

  datatype Teacher = Teacher(id: Option<nat>, name: string)

  const NO_TEACHER := Teacher(None, "")

  /** What is planned for an operation besides its day, class and roster. */
  datatype Details = Details(
    pickupMode: string, schoolId: nat, careClassId: Option<nat>, teacher: Teacher, expectedTime: string, notes: string)

  function CleanedDetails(d: Details): Details {
    d.(teacher := Teacher(d.teacher.id, Trim(d.teacher.name)), expectedTime := Trim(d.expectedTime), notes := Trim(d.notes))
  }

  /** What a confirmation says besides who will go. */
  datatype Confirmation = Confirmation(author: Teacher, role: string, expectedTime: string, notes: string)

  datatype Operation = Operation(
    id: nat, org: nat, date: Day, details: Details, schoolClassId: nat, status: OperationStatus,
    executing: Teacher, teacherRole: string, confirmedBy: Teacher,
    confirmedAt: Option<Time>, startedAt: Option<Time>, finishedAt: Option<Time>, updatedAt: Time)

  datatype Member = Member(
    id: nat, org: nat, operationId: nat, studentId: nat, studentName: string, status: MemberStatus,
    photo: string, checkedAt: Option<Time>, note: string, isTemporary: bool, profilePending: bool,
    pickupMode: string, createdAt: Time, updatedAt: Time)

  datatype EventKind = Marked(status: MemberStatus) | Correction(target: MemberStatus)

  datatype EventNote = Text(text: string) | LatePhoto | CorrectionOf(eventId: nat, reason: string)

  datatype Event = Event(
    id: nat, org: nat, operationId: nat, memberId: nat, studentId: nat, kind: EventKind,
    at: Time, operator: string, photo: string, note: EventNote)

  /** Titles and bodies, kept as what they are computed from. */
  datatype Message =
    | StatusChanged(studentName: string, status: MemberStatus)
    | Corrected(studentName: string, status: MemberStatus, reason: string)
    | Custom(title: string, content: string)

  datatype NoticeStatus = NoticePending | NoticeSent | NoticeFailed

  datatype Notification = Notification(
    id: nat, org: nat, studentId: nat, operationId: Option<nat>, eventId: Option<nat>, kind: string,
    message: Message, status: NoticeStatus, sentAt: Option<Time>, attempts: nat,
    lastAttemptAt: Option<Time>, nextRetryAt: Option<Time>, readAt: Option<Time>, error: string, createdAt: Time)

  datatype RowStatus = Pending | Processing | Processed | Failed

  datatype OutboxRow = OutboxRow(
    id: nat, org: nat, notificationId: nat, status: RowStatus, attempts: nat,
    availableAt: Time, lockedAt: Option<Time>, processedAt: Option<Time>, lastError: string)

  datatype LogStatus = LogPending | LogSent | LogFailed | LogSkipped

  datatype DeliveryLog = DeliveryLog(
    id: nat, org: nat, notificationId: nat, accountId: nat, messageKind: string, templateId: string,
    status: LogStatus, attempts: nat, lastAttemptAt: Option<Time>, sentAt: Option<Time>, nextRetryAt: Option<Time>, error: string)

  datatype RequestStatus = RequestPending | Approved | Rejected

  datatype ChangeRequest = ChangeRequest(
    id: nat, org: nat, studentId: nat, operationId: Option<nat>, changeDate: Day,
    requestedStatus: MemberStatus, note: string, submittedBy: string, status: RequestStatus,
    reviewer: Option<nat>, reviewNote: string, reviewedAt: Option<Time>)

  datatype Handoff = Handoff(
    id: nat, org: nat, operationId: nat, from: Teacher, to: Teacher, teacherRole: string, note: string, at: Time,
    author: Teacher)

  datatype StudentRef = StudentRef(id: nat, name: string)

  datatype NoticeParams = NoticeParams(
    studentId: nat, operationId: Option<nat>, eventId: Option<nat>, kind: string, title: string, content: string)

  function DefaultRole(value: string): string {
    if Trim(value) in {"lead", "collaborator", "substitute"} then Trim(value) else "lead"
  }

  function DefaultPickupMode(value: string, fallback: string): string {
    if Trim(value) in {"school_pickup", "self_arrival", "parent_picked_up"} then Trim(value)
    else if Trim(fallback) != "" then Trim(fallback)
    else "school_pickup"
  }

  // ---------------------------------------------------------- lookup keys

  function OperationKey(org: nat, id: nat): Operation -> bool {
    (o: Operation) => o.org == org && o.id == id
  }

  function LiveKey(org: nat, date: Day, classId: nat): Operation -> bool {
    (o: Operation) => o.org == org && o.date == date && o.schoolClassId == classId && o.status != Cancelled
  }

  function MemberKey(org: nat, operationId: nat, studentId: nat): Member -> bool {
    (m: Member) => m.org == org && m.operationId == operationId && m.studentId == studentId
  }

  function UnreadyKey(operationId: nat): Member -> bool {
    (m: Member) => m.operationId == operationId && !IsReadyToFinish(m.status)
  }

  function EventKey(org: nat, operationId: nat, id: nat): Event -> bool {
    (e: Event) => e.org == org && e.operationId == operationId && e.id == id
  }

  function NoticeKey(org: nat, id: nat): Notification -> bool {
    (n: Notification) => n.org == org && n.id == id
  }

  function RowKey(org: nat, id: nat): OutboxRow -> bool {
    (r: OutboxRow) => r.org == org && r.id == id
  }

  function ClaimableKey(org: nat, id: nat): OutboxRow -> bool {
    (r: OutboxRow) => r.org == org && r.id == id && (r.status == Pending || r.status == Failed)
  }

  function RowOfNotice(org: nat, notificationId: nat): OutboxRow -> bool {
    (r: OutboxRow) => r.org == org && r.notificationId == notificationId
  }

  function LogKey(org: nat, notificationId: nat, accountId: nat, kind: string, template: string): DeliveryLog -> bool {
    (l: DeliveryLog) =>
      l.org == org && l.notificationId == notificationId && l.accountId == accountId
      && l.messageKind == kind && l.templateId == template
  }

  function LogById(org: nat, id: nat): DeliveryLog -> bool {
    (l: DeliveryLog) => l.org == org && l.id == id
  }

  function RequestKey(org: nat, id: nat): ChangeRequest -> bool {
    (r: ChangeRequest) => r.org == org && r.id == id
  }

  function PendingRequestKey(org: nat, studentId: nat, date: Day): ChangeRequest -> bool {
    (r: ChangeRequest) => r.org == org && r.studentId == studentId && r.changeDate == date && r.status == RequestPending
  }

  function RefId(): StudentRef -> nat { (r: StudentRef) => r.id }

  function Same(): nat -> nat { (n: nat) => n }
}

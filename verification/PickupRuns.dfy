/** Runs of the pickup store: any sequence of calls, by any callers. */
module PickupRuns {
  import opened Common
  import opened PickupModel
  import opened PickupSpec
  import opened PickupBatch

  datatype Command =
    | CmdCreate(date: Day, details: Details, classId: nat, roster: seq<StudentRef>)
    | CmdSetStatus(id: nat, status: OperationStatus)
    | CmdConfirm(id: nat, teacher: Teacher, confirmation: Confirmation)
    | CmdHandoff(id: nat, toId: nat, toName: string, role: string, note: string, author: Teacher)
    | CmdAddStudent(operationId: nat, studentId: nat, name: string, temporary: bool, pending: bool, mode: string, note: string)
    | CmdCompleteProfile(operationId: nat, studentId: nat)
    | CmdMark(operationId: nat, studentId: nat, mark: MemberStatus, photo: string, operator: string, note: string)
    | CmdBulkArrive(operationId: nat, studentIds: seq<nat>, operator: string, note: string)
    | CmdCorrect(operationId: nat, eventId: nat, target: MemberStatus, operator: string, reason: string)
    | CmdNotify(params: seq<NoticeParams>)
    | CmdMarkRead(id: nat)
    | CmdSubmitChange(studentId: nat, date: Day, requested: MemberStatus, note: string)
    | CmdReview(id: nat, review: RequestStatus, reviewer: Option<nat>, note: string)
    | CmdRetry(id: nat)
    | CmdClaim(id: nat)
    | CmdComplete(id: nat, row: RowStatus, availableAt: Option<Time>, error: string)
    | CmdOpenLog(notificationId: nat, accountId: nat, kind: string, template: string)
    | CmdSetLog(id: nat, log: LogStatus, attempts: nat, lastAttemptAt: Option<Time>, sentAt: Option<Time>, nextRetryAt: Option<Time>, error: string)
    | CmdSetNotice(id: nat, notice: NoticeStatus, attempts: nat, sentAt: Option<Time>, lastAttemptAt: Option<Time>, nextRetryAt: Option<Time>, error: string)

  /** The statuses a parent may ask for. */
  predicate Requestable(status: MemberStatus) { status in {ParentPickedUp, SelfArrived, Leave, Absent} }

  /** The day's operations that have the student on their list. */
  function CoversKey(ms: seq<Member>, org: nat, date: Day, studentId: nat): Operation -> bool {
    (o: Operation) => o.org == org && o.date == date && FirstIndex(ms, MemberKey(org, o.id, studentId)).Some?
  }

  /** The parent's request is filed under the first such operation, or none. */
  function OperationFor(s: State, org: nat, date: Day, studentId: nat): Option<nat> {
    match FirstIndex(s.operations, CoversKey(s.members, org, date, studentId))
    case None => None
    case Some(i) => Some(s.operations[i].id)
  }

  function SubmitChange(s: State, org: nat, studentId: nat, date: Day, requested: MemberStatus, note: string): Outcome<ChangeRequest> {
    if !Requestable(requested) || Trim(note) == "" then Outcome(s, Err(InvalidInput))
    else CreateRequest(s, org, studentId, OperationFor(s, org, date, studentId), date, requested, note, "parent")
  }

  function Step(s: State, org: nat, c: Command, now: Time): State {
    match c
    case CmdCreate(date, details, classId, roster) => CreateOperation(s, org, date, details, classId, roster, now).state
    case CmdSetStatus(id, status) => SetOperationStatus(s, org, id, status, now).state
    case CmdConfirm(id, teacher, confirmation) => ConfirmOperation(s, org, id, teacher, confirmation, now).state
    case CmdHandoff(id, toId, toName, role, note, author) => HandoffOperation(s, org, id, toId, toName, role, note, author, now).state
    case CmdAddStudent(op, student, name, temporary, pending, mode, note) =>
      AddOperationStudent(s, org, op, student, name, temporary, pending, mode, note, now).state
    case CmdCompleteProfile(op, student) => CompleteProfile(s, org, op, student, now).state
    case CmdMark(op, student, status, photo, operator, note) => MarkStudent(s, org, op, student, status, photo, operator, note, now).state
    case CmdBulkArrive(op, ids, operator, note) => BulkArrive(s, org, op, ids, operator, note, now).state
    case CmdCorrect(op, event, target, operator, reason) => CorrectEvent(s, org, op, event, target, operator, reason, now).state
    case CmdNotify(params) => NotifyAll(s, org, params, now)
    case CmdMarkRead(id) => MarkRead(s, org, id, now).state
    case CmdSubmitChange(student, date, requested, note) => SubmitChange(s, org, student, date, requested, note).state
    case CmdReview(id, review, reviewer, note) => ReviewRequest(s, org, id, review, reviewer, note, now).state
    case CmdRetry(id) => Retry(s, org, id, now).state
    case CmdClaim(id) => Claim(s, org, id, now).state
    case CmdComplete(id, row, availableAt, error) => CompleteRow(s, org, id, row, availableAt, error, now).state
    case CmdOpenLog(notice, account, kind, template) => OpenLog(s, org, notice, account, kind, template).state
    case CmdSetLog(id, log, attempts, last, sent, next, error) => SetLog(s, org, id, log, attempts, last, sent, next, error).state
    case CmdSetNotice(id, notice, attempts, sent, last, next, error) =>
      SetNotice(s, org, id, notice, attempts, sent, last, next, error).state
  }

  datatype Call = Call(org: nat, command: Command, now: Time)

  function Run(s: State, calls: seq<Call>): State {
    if calls == [] then s
    else var c := calls[|calls| - 1]; Step(Run(s, calls[..|calls| - 1]), c.org, c.command, c.now)
  }

  lemma RunAppend(s: State, calls: seq<Call>, c: Call)
    ensures Run(s, calls + [c]) == Step(Run(s, calls), c.org, c.command, c.now)
  {
    assert (calls + [c])[..|calls|] == calls;
  }
}

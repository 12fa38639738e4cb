/** What each call on the pickup store does to its state, as functions of the
    state before.  The class in PickupStore.dfy is proved against these, and the
    properties of whole runs are proved about them. */
module PickupSpec {
  import opened Common
  import opened PickupModel

  datatype State = State(
    nextId: nat, operations: seq<Operation>, members: seq<Member>, events: seq<Event>,
    notifications: seq<Notification>, outbox: seq<OutboxRow>, logs: seq<DeliveryLog>,
    requests: seq<ChangeRequest>, handoffs: seq<Handoff>)

  const INIT := State(1, [], [], [], [], [], [], [], [])

  datatype Outcome<+T> = Outcome(state: State, result: Result<T>)

  // ------------------------------------------------------------ operations

  /** The roster as members with consecutive ids from `base`. */
  function Enrol(base: nat, org: nat, operationId: nat, roster: seq<StudentRef>, now: Time): (ms: seq<Member>)
    ensures |ms| == |roster|
  {
    seq(|roster|, k requires 0 <= k < |roster| =>
      Member(base + k, org, operationId, roster[k].id, roster[k].name, Planned, "", None, "", false, false, "", now, now))
  }

  function CreateOperation(s: State, org: nat, date: Day, details: Details, classId: nat, roster: seq<StudentRef>, now: Time)
    : Outcome<Operation>
  {
    if FirstIndex(s.operations, LiveKey(org, date, classId)).Some? then Outcome(s, Err(Conflict))
    else if roster == [] then Outcome(s, Err(InvalidState))
    else
      var operation := Operation(s.nextId, org, date, CleanedDetails(details), classId, Draft, NO_TEACHER, "", NO_TEACHER, None, None, None, now);
      var distinct := DistinctBy(roster, RefId());
      var s' := s.(nextId := s.nextId + 1 + |distinct|, operations := s.operations + [operation],
                   members := s.members + Enrol(s.nextId + 1, org, s.nextId, distinct, now));
      Outcome(s', if distinct == [] then Err(InvalidState) else Ok(operation))
  }

  function SetOperationStatus(s: State, org: nat, id: nat, status: OperationStatus, now: Time): Outcome<Operation> {
    match FirstIndex(s.operations, OperationKey(org, id))
    case None => Outcome(s, Err(NotFound))
    case Some(i) =>
      var item := s.operations[i];
      if item.status in {Draft, Confirmed} && status == Started then
        var item' := item.(status := Started, startedAt := Some(now), updatedAt := now);
        Outcome(s.(operations := s.operations[i := item']), Ok(item'))
      else if item.status == Started && status == Finished && FirstIndex(s.members, UnreadyKey(item.id)).None? then
        var item' := item.(status := Finished, finishedAt := Some(now), updatedAt := now);
        Outcome(s.(operations := s.operations[i := item']), Ok(item'))
      else
        Outcome(s, Err(InvalidState))
  }

  function ConfirmOperation(s: State, org: nat, id: nat, teacher: Teacher, c: Confirmation, now: Time): Outcome<Operation> {
    match FirstIndex(s.operations, OperationKey(org, id))
    case None => Outcome(s, Err(NotFound))
    case Some(i) =>
      var item := s.operations[i];
      if item.status != Draft then Outcome(s, Err(InvalidState))
      else
        var item' := item.(status := Confirmed, confirmedAt := Some(now), executing := Teacher(teacher.id, Trim(teacher.name)),
                           teacherRole := DefaultRole(c.role), confirmedBy := Teacher(c.author.id, Trim(c.author.name)),
                           details := ConfirmedDetails(item.details, c), updatedAt := now);
        Outcome(s.(operations := s.operations[i := item']), Ok(item'))
  }

  /** The expected time is replaced, the notes only by new ones. */
  function ConfirmedDetails(d: Details, c: Confirmation): Details {
    d.(expectedTime := Trim(c.expectedTime), notes := if Trim(c.notes) != "" then Trim(c.notes) else d.notes)
  }

  function HandoffOperation(s: State, org: nat, id: nat, toId: nat, toName: string, role: string, note: string, author: Teacher, now: Time)
    : Outcome<Operation>
  {
    match FirstIndex(s.operations, OperationKey(org, id))
    case None => Outcome(s, Err(NotFound))
    case Some(i) =>
      var item := s.operations[i];
      if item.status != Started || toId == 0 || Trim(toName) == "" then Outcome(s, Err(InvalidState))
      else
        var from := Teacher(item.executing.id, Trim(item.executing.name));
        var to := Teacher(Some(toId), Trim(toName));
        var item' := item.(executing := to, teacherRole := DefaultRole(role), updatedAt := now);
        var handoff := Handoff(s.nextId, org, item.id, from, to, DefaultRole(role), Trim(note), now, Teacher(author.id, Trim(author.name)));
        Outcome(s.(nextId := s.nextId + 1, operations := s.operations[i := item'], handoffs := s.handoffs + [handoff]), Ok(item'))
  }

  // --------------------------------------------------------------- members

  function AddOperationStudent(s: State, org: nat, operationId: nat, studentId: nat, name: string, temporary: bool,
                               pending: bool, mode: string, note: string, now: Time): Outcome<Member>
  {
    match FirstIndex(s.operations, OperationKey(org, operationId))
    case None => Outcome(s, Err(NotFound))
    case Some(i) =>
      if s.operations[i].status in {Finished, Cancelled} then Outcome(s, Err(InvalidState))
      else if studentId == 0 || Trim(name) == "" then Outcome(s, Err(InvalidState))
      else if FirstIndex(s.members, MemberKey(org, operationId, studentId)).Some? then Outcome(s, Err(Conflict))
      else
        var item := Member(s.nextId, org, operationId, studentId, Trim(name), Planned, "", None, Trim(note), temporary,
                           pending, DefaultPickupMode(mode, s.operations[i].details.pickupMode), now, now);
        Outcome(s.(nextId := s.nextId + 1, members := s.members + [item]), Ok(item))
  }

  function CompleteProfile(s: State, org: nat, operationId: nat, studentId: nat, now: Time): Outcome<()> {
    match FirstIndex(s.members, MemberKey(org, operationId, studentId))
    case None => Outcome(s, Err(NotFound))
    case Some(i) =>
      if !s.members[i].isTemporary then Outcome(s, Ok(()))
      else Outcome(s.(members := s.members[i := s.members[i].(profilePending := false, updatedAt := now)]), Ok(()))
  }

  /** A new event for member `m`, carrying the member's photo. */
  function Record(s: State, m: Member, kind: EventKind, operator: string, note: EventNote, now: Time): State {
    s.(nextId := s.nextId + 1,
       events := s.events + [Event(s.nextId, m.org, m.operationId, m.id, m.studentId, kind, now, Trim(operator), m.photo, note)])
  }

  /** A new pending notification and, with the next id, its outbox row. */
  function Notify(s: State, org: nat, studentId: nat, operationId: Option<nat>, eventId: Option<nat>, kind: string,
                  message: Message, now: Time): State
  {
    var n := Notification(s.nextId, org, studentId, operationId, eventId, kind, message, NoticePending, None, 0, None, None, None, "", now);
    var row := OutboxRow(s.nextId + 1, org, s.nextId, Pending, 0, now, None, None, "");
    s.(nextId := s.nextId + 2, notifications := s.notifications + [n], outbox := s.outbox + [row])
  }

  /** Member `i` takes a new status: the edit, its event, its notification and outbox row. */
  function Change(s: State, i: nat, status: MemberStatus, photo: string, operator: string, note: string, now: Time): State
    requires i < |s.members|
  {
    var m := s.members[i];
    var m' := m.(status := status, checkedAt := Some(now), note := Trim(note), updatedAt := now,
                 photo := if Trim(photo) != "" then Trim(photo) else m.photo);
    var s' := Record(s.(members := s.members[i := m']), m', Marked(status), operator, Text(Trim(note)), now);
    Notify(s', m.org, m.studentId, Some(m.operationId), Some(s.nextId), "pickup_status", StatusChanged(m.studentName, status), now)
  }

  /** Member `i` keeps its status and gets a photo it did not have. */
  function AttachPhoto(s: State, i: nat, photo: string, operator: string, now: Time): State
    requires i < |s.members|
  {
    var m' := s.members[i].(photo := photo, updatedAt := now);
    Record(s.(members := s.members[i := m']), m', Marked(m'.status), operator, LatePhoto, now)
  }

  function MarkStudent(s: State, org: nat, operationId: nat, studentId: nat, status: MemberStatus, photo: string,
                       operator: string, note: string, now: Time): (r: Outcome<Member>)
  {
    match FirstIndex(s.operations, OperationKey(org, operationId))
    case None => Outcome(s, Err(NotFound))
    case Some(o) =>
      if s.operations[o].status != Started then Outcome(s, Err(InvalidState))
      else if !IsValidMemberStatus(status) then Outcome(s, Err(InvalidStatus))
      else
        match FirstIndex(s.members, MemberKey(org, operationId, studentId))
        case None => Outcome(s, Err(NotFound))
        case Some(i) =>
          var m := s.members[i];
          if !IsValidMemberTransition(m.status, status) then Outcome(s, Err(InvalidState))
          else if m.status == status then
            var s' := if Trim(photo) != "" && Trim(photo) != m.photo then AttachPhoto(s, i, Trim(photo), operator, now) else s;
            Outcome(s', Ok(s'.members[i]))
          else
            var s' := Change(s, i, status, photo, operator, note, now);
            Outcome(s', Ok(s'.members[i]))
  }

  /** The member each id names in the lookup table the batch fills from `table`. */
  function InTable(table: seq<Member>, org: nat, operationId: nat, studentId: nat): (r: Option<nat>)
    ensures r.Some? ==> r.value < |table|
  {
    LastIndex(table, MemberKey(org, operationId, studentId))
  }

  /** The check the batch makes of every id before it changes anything. */
  function CannotArrive(table: seq<Member>, org: nat, operationId: nat, studentId: nat): Option<Error> {
    match InTable(table, org, operationId, studentId)
    case None => Some(NotFound)
    case Some(i) => if IsValidMemberTransition(table[i].status, Arrived) then None else Some(InvalidState)
  }

  function FirstRefusal(table: seq<Member>, org: nat, operationId: nat, ids: seq<nat>): (r: Option<Error>)
    ensures r.None? ==> forall k | 0 <= k < |ids| :: CannotArrive(table, org, operationId, ids[k]).None?
    ensures r.Some? ==> exists k | 0 <= k < |ids| :: CannotArrive(table, org, operationId, ids[k]).Some?
  {
    if ids == [] then None
    else
      match FirstRefusal(table, org, operationId, ids[..|ids| - 1])
      case Some(e) => Some(e)
      case None => CannotArrive(table, org, operationId, ids[|ids| - 1])
  }

  /** One accepted id of the batch. */
  function ArriveOne(s: State, table: seq<Member>, org: nat, operationId: nat, studentId: nat, operator: string, note: string, now: Time)
    : (r: State)
    requires |s.members| == |table|
    ensures |r.members| == |table|
  {
    match InTable(table, org, operationId, studentId)
    case None => s
    case Some(i) => if s.members[i].status == Arrived then s else Change(s, i, Arrived, "", operator, note, now)
  }

  function ArriveAll(s: State, org: nat, operationId: nat, ids: seq<nat>, operator: string, note: string, now: Time): (r: State)
    ensures |r.members| == |s.members|
  {
    if ids == [] then s
    else
      ArriveOne(ArriveAll(s, org, operationId, ids[..|ids| - 1], operator, note, now),
                s.members, org, operationId, ids[|ids| - 1], operator, note, now)
  }

  /** The member of each accepted id, as the batch leaves it. */
  function Arrivals(s: State, org: nat, operationId: nat, ids: seq<nat>, operator: string, note: string, now: Time): seq<Member> {
    if ids == [] then []
    else
      var i := InTable(s.members, org, operationId, ids[|ids| - 1]);
      Arrivals(s, org, operationId, ids[..|ids| - 1], operator, note, now)
      + if i.Some? then [ArriveAll(s, org, operationId, ids, operator, note, now).members[i.value]] else []
  }

  function BulkArrive(s: State, org: nat, operationId: nat, studentIds: seq<nat>, operator: string, note: string, now: Time)
    : Outcome<seq<Member>>
  {
    match FirstIndex(s.operations, OperationKey(org, operationId))
    case None => Outcome(s, Err(NotFound))
    case Some(o) =>
      var ids := DistinctBy(studentIds, Same());
      if s.operations[o].status != Started || ids == [] then Outcome(s, Err(InvalidState))
      else
        match FirstRefusal(s.members, org, operationId, ids)
        case Some(e) => Outcome(s, Err(e))
        case None => Outcome(ArriveAll(s, org, operationId, ids, operator, note, now), Ok(Arrivals(s, org, operationId, ids, operator, note, now)))
  }

  /** Member `i` is corrected to `status` because of event `eventId`. */
  function Correct(s: State, i: nat, eventId: nat, status: MemberStatus, operator: string, reason: string, now: Time): State
    requires i < |s.members|
  {
    var m := s.members[i];
    var m' := m.(status := status, checkedAt := Some(now), note := Trim(reason), updatedAt := now);
    var s' := Record(s.(members := s.members[i := m']), m', Correction(status), operator, CorrectionOf(eventId, Trim(reason)), now);
    Notify(s', m.org, m.studentId, Some(m.operationId), Some(s.nextId), "pickup_status", Corrected(m.studentName, status, Trim(reason)), now)
  }

  function CorrectEvent(s: State, org: nat, operationId: nat, eventId: nat, status: MemberStatus, operator: string,
                        reason: string, now: Time): Outcome<Member>
  {
    if !IsValidMemberStatus(status) || Trim(reason) == "" then Outcome(s, Err(InvalidState))
    else
      match FirstIndex(s.operations, OperationKey(org, operationId))
      case None => Outcome(s, Err(NotFound))
      case Some(o) =>
        if s.operations[o].status == Cancelled then Outcome(s, Err(InvalidState))
        else
          match FirstIndex(s.events, EventKey(org, operationId, eventId))
          case None => Outcome(s, Err(NotFound))
          case Some(e) =>
            match FirstIndex(s.members, MemberKey(org, operationId, s.events[e].studentId))
            case None => Outcome(s, Err(NotFound))
            case Some(i) =>
              var s' := Correct(s, i, eventId, status, operator, reason, now);
              Outcome(s', Ok(s'.members[i]))
  }

  // ---------------------------------------------------------- notifications

  function NotifyAll(s: State, org: nat, params: seq<NoticeParams>, now: Time): State {
    if params == [] then s
    else
      var p := params[|params| - 1];
      Notify(NotifyAll(s, org, params[..|params| - 1], now), org, p.studentId, p.operationId, p.eventId, Trim(p.kind),
             Custom(Trim(p.title), Trim(p.content)), now)
  }

  function MarkRead(s: State, org: nat, id: nat, now: Time): Outcome<()> {
    match FirstIndex(s.notifications, NoticeKey(org, id))
    case None => Outcome(s, Err(NotFound))
    case Some(i) => Outcome(s.(notifications := s.notifications[i := s.notifications[i].(readAt := Some(now))]), Ok(()))
  }

  function SetNotice(s: State, org: nat, id: nat, status: NoticeStatus, attempts: nat, sentAt: Option<Time>,
                     lastAttemptAt: Option<Time>, nextRetryAt: Option<Time>, error: string): Outcome<()>
  {
    match FirstIndex(s.notifications, NoticeKey(org, id))
    case None => Outcome(s, Err(NotFound))
    case Some(i) =>
      var n := s.notifications[i].(status := status, sentAt := sentAt, attempts := attempts,
                                   lastAttemptAt := lastAttemptAt, nextRetryAt := nextRetryAt, error := error);
      Outcome(s.(notifications := s.notifications[i := n]), Ok(()))
  }

  // ----------------------------------------------------------------- outbox

  predicate Listed(r: OutboxRow, now: Time, staleBefore: int) {
    (r.status == Pending || r.status == Failed) && r.availableAt <= now && (r.lockedAt.Some? ==> r.lockedAt.value <= staleBefore)
  }

  /** The first `limit` rows a dispatcher may try to claim. */
  function ListOutbox(rows: seq<OutboxRow>, now: Time, staleBefore: int, limit: nat): (out: seq<OutboxRow>)
    ensures |out| <= limit && forall r | r in out :: r in rows && Listed(r, now, staleBefore)
  {
    if rows == [] then []
    else
      var out := ListOutbox(rows[..|rows| - 1], now, staleBefore, limit);
      if |out| < limit && Listed(rows[|rows| - 1], now, staleBefore) then out + [rows[|rows| - 1]] else out
  }

  function Claim(s: State, org: nat, id: nat, at: Time): Outcome<bool> {
    match FirstIndex(s.outbox, ClaimableKey(org, id))
    case None => Outcome(s, Ok(false))
    case Some(i) =>
      var r := s.outbox[i];
      Outcome(s.(outbox := s.outbox[i := r.(status := Processing, attempts := r.attempts + 1, lockedAt := Some(at))]), Ok(true))
  }

  function CompleteRow(s: State, org: nat, id: nat, status: RowStatus, availableAt: Option<Time>, error: string, now: Time): Outcome<()> {
    if status == Processing then Outcome(s, Err(InvalidState))
    else
      match FirstIndex(s.outbox, RowKey(org, id))
      case None => Outcome(s, Err(NotFound))
      case Some(i) =>
        var r := s.outbox[i].(status := status, lockedAt := None, lastError := Trim(error),
                              availableAt := if availableAt.Some? then availableAt.value else now);
        Outcome(s.(outbox := s.outbox[i := if status == Processed then r.(processedAt := Some(now)) else r]), Ok(()))
  }

  function OpenLog(s: State, org: nat, notificationId: nat, accountId: nat, kind: string, template: string): Outcome<DeliveryLog> {
    match FirstIndex(s.logs, LogKey(org, notificationId, accountId, kind, template))
    case Some(i) => Outcome(s, Ok(s.logs[i]))
    case None =>
      var log := DeliveryLog(s.nextId, org, notificationId, accountId, Trim(kind), Trim(template), LogPending, 0, None, None, None, "");
      Outcome(s.(nextId := s.nextId + 1, logs := s.logs + [log]), Ok(log))
  }

  function SetLog(s: State, org: nat, id: nat, status: LogStatus, attempts: nat, lastAttemptAt: Option<Time>, sentAt: Option<Time>,
                  nextRetryAt: Option<Time>, error: string)
    : Outcome<()>
  {
    match FirstIndex(s.logs, LogById(org, id))
    case None => Outcome(s, Err(NotFound))
    case Some(i) =>
      var l := s.logs[i].(status := status, attempts := attempts, lastAttemptAt := lastAttemptAt, sentAt := sentAt,
                           nextRetryAt := nextRetryAt, error := Trim(error));
      Outcome(s.(logs := s.logs[i := l]), Ok(()))
  }

  function Retry(s: State, org: nat, notificationId: nat, now: Time): Outcome<()> {
    match FirstIndex(s.notifications, NoticeKey(org, notificationId))
    case None => Outcome(s, Err(NotFound))
    case Some(n) =>
      match FirstIndex(s.outbox, RowOfNotice(org, notificationId))
      case None => Outcome(s, Err(NotFound))
      case Some(i) =>
        if s.outbox[i].status != Failed then Outcome(s, Err(InvalidState))
        else
          var r := s.outbox[i].(status := Pending, attempts := 0, availableAt := now, lockedAt := None, processedAt := None, lastError := "");
          var notice := s.notifications[n].(status := NoticePending, attempts := 0, lastAttemptAt := None, nextRetryAt := None, sentAt := None, error := "");
          Outcome(s.(outbox := s.outbox[i := r], notifications := s.notifications[n := notice]), Ok(()))
  }

  // --------------------------------------------------------- change requests

  function CreateRequest(s: State, org: nat, studentId: nat, operationId: Option<nat>, date: Day, requested: MemberStatus, note: string, author: string)
    : Outcome<ChangeRequest>
  {
    if studentId == 0 || (requested.Unknown? && Trim(requested.text) == "") then Outcome(s, Err(InvalidState))
    else if FirstIndex(s.requests, PendingRequestKey(org, studentId, date)).Some? then Outcome(s, Err(Conflict))
    else
      var r := ChangeRequest(s.nextId, org, studentId, operationId, date, requested, Trim(note), Trim(author), RequestPending, None, "", None);
      Outcome(s.(nextId := s.nextId + 1, requests := s.requests + [r]), Ok(r))
  }

  function ReviewRequest(s: State, org: nat, id: nat, status: RequestStatus, reviewer: Option<nat>, note: string, now: Time): Outcome<ChangeRequest> {
    if status == RequestPending then Outcome(s, Err(InvalidStatus))
    else
      match FirstIndex(s.requests, RequestKey(org, id))
      case None => Outcome(s, Err(NotFound))
      case Some(i) =>
        if s.requests[i].status != RequestPending then Outcome(s, Err(InvalidState))
        else
          var r := s.requests[i].(status := status, reviewer := reviewer, reviewNote := Trim(note), reviewedAt := Some(now));
          Outcome(s.(requests := s.requests[i := r]), Ok(r))
  }
}

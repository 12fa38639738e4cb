/** The in-memory pickup store: each method edits the fields in place, in the
    order the server does, and is proved to have the effect PickupSpec gives it. */
module PickupStore {
  import opened Common
  import opened PickupModel
  import S = PickupSpec

  class MemoryStore {
    var nextId: nat
    var operations: seq<Operation>
    var members: seq<Member>
    var events: seq<Event>
    var notifications: seq<Notification>
    var outbox: seq<OutboxRow>
    var logs: seq<DeliveryLog>
    var requests: seq<ChangeRequest>
    var handoffs: seq<Handoff>

    /** The state the specification speaks of. */
    function View(): S.State
      reads this
    {
      S.State(nextId, operations, members, events, notifications, outbox, logs, requests, handoffs)
    }

    constructor ()
      ensures View() == S.INIT
    {
      nextId := 1;
      operations, members, events, notifications, outbox, logs, requests, handoffs := [], [], [], [], [], [], [], [];
    }

    method NewId() returns (id: nat)
      modifies this`nextId
      ensures id == old(nextId) && nextId == old(nextId) + 1
    {
      id := nextId;
      nextId := nextId + 1;
    }

    // ---------------------------------------------------------- operations

    method CreateOperation(org: nat, date: Day, details: Details, classId: nat, roster: seq<StudentRef>, now: Time)
      returns (result: Result<Operation>)
      modifies this
      ensures S.Outcome(View(), result) == S.CreateOperation(old(View()), org, date, details, classId, roster, now)
    {
      var existing := Scan(operations, LiveKey(org, date, classId));
      if existing.Some? {
        return Err(Conflict);
      }
      if roster == [] {
        return Err(InvalidState);
      }
      var id := NewId();
      var operation := Operation(id, org, date, CleanedDetails(details), classId, Draft, NO_TEACHER, "", NO_TEACHER, None, None, None, now);
      operations := operations + [operation];
      var distinct := Distinct(roster, RefId());
      EnrolMembers(org, id, distinct, now);
      result := if distinct == [] then Err(InvalidState) else Ok(operation);
    }

    method EnrolMembers(org: nat, operationId: nat, roster: seq<StudentRef>, now: Time)
      modifies this`nextId, this`members
      ensures nextId == old(nextId) + |roster|
      ensures members == old(members) + S.Enrol(old(nextId), org, operationId, roster, now)
    {
      for k := 0 to |roster|
        invariant nextId == old(nextId) + k
        invariant members == old(members) + S.Enrol(old(nextId), org, operationId, roster, now)[..k]
      {
        var id := NewId();
        members := members + [Member(id, org, operationId, roster[k].id, roster[k].name, Planned, "", None, "", false, false, "", now, now)];
      }
    }

    method SetOperationStatus(org: nat, id: nat, status: OperationStatus, now: Time) returns (result: Result<Operation>)
      modifies this`operations
      ensures S.Outcome(View(), result) == S.SetOperationStatus(old(View()), org, id, status, now)
      ensures result.Ok? && status == Finished ==> forall i | 0 <= i < |members| && members[i].operationId == id ::
                members[i].status in {SelfArrived, ParentPickedUp, Leave, Absent, Arrived, Left, MidwayLeft}
    {
      var found := Scan(operations, OperationKey(org, id));
      if found.None? {
        return Err(NotFound);
      }
      var item := operations[found.value];
      if (item.status == Draft || item.status == Confirmed) && status == Started {
        item := item.(status := Started, startedAt := Some(now));
      } else if item.status == Started && status == Finished {
        var unready := Scan(members, UnreadyKey(item.id));
        if unready.Some? {
          return Err(InvalidState);
        }
        item := item.(status := Finished, finishedAt := Some(now));
      } else {
        return Err(InvalidState);
      }
      assert status == Finished ==> forall i | 0 <= i < |members| :: !UnreadyKey(id)(members[i]);
      item := item.(updatedAt := now);
      operations := operations[found.value := item];
      result := Ok(item);
    }

    method ConfirmOperation(org: nat, id: nat, teacher: Teacher, c: Confirmation, now: Time) returns (result: Result<Operation>)
      modifies this`operations
      ensures S.Outcome(View(), result) == S.ConfirmOperation(old(View()), org, id, teacher, c, now)
    {
      var found := Scan(operations, OperationKey(org, id));
      if found.None? {
        return Err(NotFound);
      }
      var item := operations[found.value];
      if item.status != Draft {
        return Err(InvalidState);
      }
      item := item.(status := Confirmed, confirmedAt := Some(now), confirmedBy := Teacher(c.author.id, Trim(c.author.name)));
      item := item.(executing := Teacher(teacher.id, Trim(teacher.name)), teacherRole := DefaultRole(c.role), updatedAt := now);
      item := item.(details := item.details.(expectedTime := Trim(c.expectedTime)));
      if Trim(c.notes) != "" {
        item := item.(details := item.details.(notes := Trim(c.notes)));
      }
      operations := operations[found.value := item];
      result := Ok(item);
    }

    method HandoffOperation(org: nat, id: nat, toId: nat, toName: string, role: string, note: string, author: Teacher, now: Time)
      returns (result: Result<Operation>)
      modifies this
      ensures S.Outcome(View(), result) == S.HandoffOperation(old(View()), org, id, toId, toName, role, note, author, now)
    {
      var found := Scan(operations, OperationKey(org, id));
      if found.None? {
        return Err(NotFound);
      }
      var item := operations[found.value];
      if item.status != Started || toId == 0 || Trim(toName) == "" {
        return Err(InvalidState);
      }
      var from := Teacher(item.executing.id, Trim(item.executing.name));
      item := item.(executing := Teacher(Some(toId), Trim(toName)), teacherRole := DefaultRole(role), updatedAt := now);
      operations := operations[found.value := item];
      var handoffId := NewId();
      handoffs := handoffs + [Handoff(handoffId, org, item.id, from, item.executing, item.teacherRole, Trim(note), now,
                                       Teacher(author.id, Trim(author.name)))];
      result := Ok(item);
    }

    // ------------------------------------------------------------- members

    method AddOperationStudent(org: nat, operationId: nat, studentId: nat, name: string, temporary: bool, pending: bool,
                               mode: string, note: string, now: Time) returns (result: Result<Member>)
      modifies this
      ensures S.Outcome(View(), result)
           == S.AddOperationStudent(old(View()), org, operationId, studentId, name, temporary, pending, mode, note, now)
    {
      var found := Scan(operations, OperationKey(org, operationId));
      if found.None? {
        return Err(NotFound);
      }
      var operation := operations[found.value];
      if operation.status == Finished || operation.status == Cancelled {
        return Err(InvalidState);
      }
      if studentId == 0 || Trim(name) == "" {
        return Err(InvalidState);
      }
      var existing := Scan(members, MemberKey(org, operationId, studentId));
      if existing.Some? {
        return Err(Conflict);
      }
      var id := NewId();
      var item := Member(id, org, operationId, studentId, Trim(name), Planned, "", None, Trim(note), temporary, pending,
                         DefaultPickupMode(mode, operation.details.pickupMode), now, now);
      members := members + [item];
      result := Ok(item);
    }

    method CompleteProfile(org: nat, operationId: nat, studentId: nat, now: Time) returns (result: Result<()>)
      modifies this`members
      ensures S.Outcome(View(), result) == S.CompleteProfile(old(View()), org, operationId, studentId, now)
    {
      var found := Scan(members, MemberKey(org, operationId, studentId));
      if found.None? {
        return Err(NotFound);
      }
      if members[found.value].isTemporary {
        members := members[found.value := members[found.value].(profilePending := false, updatedAt := now)];
      }
      result := Ok(());
    }

    method AppendEvent(m: Member, kind: EventKind, operator: string, note: EventNote, now: Time) returns (id: nat)
      modifies this`nextId, this`events
      ensures View() == S.Record(old(View()), m, kind, operator, note, now) && id == old(nextId)
    {
      id := NewId();
      events := events + [Event(id, m.org, m.operationId, m.id, m.studentId, kind, now, Trim(operator), m.photo, note)];
    }

    method AppendNotification(org: nat, studentId: nat, operationId: Option<nat>, eventId: Option<nat>, kind: string, message: Message, now: Time)
      modifies this`nextId, this`notifications, this`outbox
      ensures View() == S.Notify(old(View()), org, studentId, operationId, eventId, kind, message, now)
    {
      var id := NewId();
      notifications := notifications
      + [Notification(id, org, studentId, operationId, eventId, kind, message, NoticePending, None, 0, None, None, None, "", now)];
      var rowId := NewId();
      outbox := outbox + [OutboxRow(rowId, org, id, Pending, 0, now, None, None, "")];
    }

    method MarkStudent(org: nat, operationId: nat, studentId: nat, status: MemberStatus, photo: string, operator: string,
                       note: string, now: Time) returns (result: Result<Member>)
      modifies this
      ensures S.Outcome(View(), result)
           == S.MarkStudent(old(View()), org, operationId, studentId, status, photo, operator, note, now)
    {
      var operation := Scan(operations, OperationKey(org, operationId));
      if operation.None? {
        return Err(NotFound);
      }
      if operations[operation.value].status != Started {
        return Err(InvalidState);
      }
      if !IsValidMemberStatus(status) {
        return Err(InvalidStatus);
      }
      var found := Scan(members, MemberKey(org, operationId, studentId));
      if found.None? {
        return Err(NotFound);
      }
      var item := members[found.value];
      if !IsValidMemberTransition(item.status, status) {
        return Err(InvalidState);
      }
      if item.status == status {
        if Trim(photo) != "" && Trim(photo) != item.photo {
          item := item.(photo := Trim(photo), updatedAt := now);
          members := members[found.value := item];
          var late := AppendEvent(item, Marked(status), operator, LatePhoto, now);
        }
        return Ok(item);
      }
      item := item.(status := status, checkedAt := Some(now), note := Trim(note), updatedAt := now);
      if Trim(photo) != "" {
        item := item.(photo := Trim(photo));
      }
      members := members[found.value := item];
      var eventId := AppendEvent(item, Marked(status), operator, Text(item.note), now);
      AppendNotification(org, item.studentId, Some(item.operationId), Some(eventId), "pickup_status",
                         StatusChanged(item.studentName, status), now);
      result := Ok(item);
    }

    method BulkArrive(org: nat, operationId: nat, studentIds: seq<nat>, operator: string, note: string, now: Time)
      returns (result: Result<seq<Member>>)
      modifies this
      ensures S.Outcome(View(), result) == S.BulkArrive(old(View()), org, operationId, studentIds, operator, note, now)
    {
      var operation := Scan(operations, OperationKey(org, operationId));
      if operation.None? {
        return Err(NotFound);
      }
      if operations[operation.value].status != Started {
        return Err(InvalidState);
      }
      var ids := Distinct(studentIds, Same());
      if ids == [] {
        return Err(InvalidState);
      }
      var table := MemberTable(org, operationId);
      var refusal := CheckBatch(org, operationId, ids, table);
      if refusal.Some? {
        return Err(refusal.value);
      }
      var arrived := ArriveEach(org, operationId, ids, table, operator, note, now);
      result := Ok(arrived);
    }

    /** The lookup table of the operation's members: a later row overwrites an earlier one. */
    method MemberTable(org: nat, operationId: nat) returns (table: map<nat, nat>)
      ensures forall id :: id in table <==> S.InTable(members, org, operationId, id).Some?
      ensures forall id :: id in table ==> S.InTable(members, org, operationId, id) == Some(table[id])
    {
      table := map[];
      for index := 0 to |members|
        invariant forall id :: id in table <==> S.InTable(members[..index], org, operationId, id).Some?
        invariant forall id :: id in table ==> S.InTable(members[..index], org, operationId, id) == Some(table[id])
      {
        assert members[..index + 1][..index] == members[..index];
        if members[index].org == org && members[index].operationId == operationId {
          table := table[members[index].studentId := index];
        }
      }
      assert members[..|members|] == members;
    }

    method CheckBatch(org: nat, operationId: nat, ids: seq<nat>, table: map<nat, nat>) returns (refusal: Option<Error>)
      requires forall id :: id in table <==> S.InTable(members, org, operationId, id).Some?
      requires forall id :: id in table ==> S.InTable(members, org, operationId, id) == Some(table[id])
      ensures refusal == S.FirstRefusal(members, org, operationId, ids)
    {
      for k := 0 to |ids|
        invariant S.FirstRefusal(members, org, operationId, ids[..k]).None?
      {
        assert ids[..k + 1][..k] == ids[..k];
        if ids[k] !in table {
          RefusedPrefix(members, org, operationId, ids, k);
          return Some(NotFound);
        }
        if !IsValidMemberTransition(members[table[ids[k]]].status, Arrived) {
          RefusedPrefix(members, org, operationId, ids, k);
          return Some(InvalidState);
        }
      }
      assert ids[..|ids|] == ids;
      refusal := None;
    }

    method ArriveEach(org: nat, operationId: nat, ids: seq<nat>, table: map<nat, nat>, operator: string, note: string, now: Time)
      returns (out: seq<Member>)
      requires forall id :: id in table <==> S.InTable(members, org, operationId, id).Some?
      requires forall id :: id in table ==> S.InTable(members, org, operationId, id) == Some(table[id])
      requires forall k | 0 <= k < |ids| :: ids[k] in table
      modifies this`nextId, this`members, this`events, this`notifications, this`outbox
      ensures View() == S.ArriveAll(old(View()), org, operationId, ids, operator, note, now)
      ensures out == S.Arrivals(old(View()), org, operationId, ids, operator, note, now)
    {
      ghost var before := View();
      out := [];
      for k := 0 to |ids|
        invariant View() == S.ArriveAll(before, org, operationId, ids[..k], operator, note, now)
        invariant out == S.Arrivals(before, org, operationId, ids[..k], operator, note, now)
      {
        assert ids[..k + 1][..k] == ids[..k];
        ArriveOne(table[ids[k]], operator, note, now);
        assert View() == S.ArriveAll(before, org, operationId, ids[..k + 1], operator, note, now);
        out := out + [members[table[ids[k]]]];
      }
      assert ids[..|ids|] == ids;
    }

    method ArriveOne(i: nat, operator: string, note: string, now: Time)
      requires i < |members|
      modifies this`nextId, this`members, this`events, this`notifications, this`outbox
      ensures View() == if old(members)[i].status == Arrived then old(View())
                        else S.Change(old(View()), i, Arrived, "", operator, note, now)
    {
      var member := members[i];
      if member.status != Arrived {
        member := member.(status := Arrived, checkedAt := Some(now), note := Trim(note), updatedAt := now);
        members := members[i := member];
        var eventId := AppendEvent(member, Marked(Arrived), operator, Text(member.note), now);
        AppendNotification(member.org, member.studentId, Some(member.operationId), Some(eventId), "pickup_status",
                           StatusChanged(member.studentName, Arrived), now);
      }
    }

    static lemma {:induction false} RefusedPrefix(table: seq<Member>, org: nat, operationId: nat, ids: seq<nat>, k: nat)
      requires k < |ids| && S.FirstRefusal(table, org, operationId, ids[..k]).None?
      requires S.CannotArrive(table, org, operationId, ids[k]).Some?
      ensures S.FirstRefusal(table, org, operationId, ids) == S.CannotArrive(table, org, operationId, ids[k])
      decreases |ids|
    {
      var init := ids[..|ids| - 1];
      if k < |init| {
        assert init[..k] == ids[..k];
        RefusedPrefix(table, org, operationId, init, k);
      }
    }

    method CorrectEvent(org: nat, operationId: nat, eventId: nat, status: MemberStatus, operator: string, reason: string, now: Time)
      returns (result: Result<Member>)
      modifies this
      ensures S.Outcome(View(), result)
           == S.CorrectEvent(old(View()), org, operationId, eventId, status, operator, reason, now)
    {
      if status == Planned || !IsValidMemberStatus(status) || Trim(reason) == "" {
        return Err(InvalidState);
      }
      var operation := Scan(operations, OperationKey(org, operationId));
      if operation.None? {
        return Err(NotFound);
      }
      if operations[operation.value].status == Cancelled {
        return Err(InvalidState);
      }
      var original := Scan(events, EventKey(org, operationId, eventId));
      if original.None? {
        return Err(NotFound);
      }
      var found := Scan(members, MemberKey(org, operationId, events[original.value].studentId));
      if found.None? {
        return Err(NotFound);
      }
      var member := members[found.value];
      member := member.(status := status, checkedAt := Some(now), note := Trim(reason), updatedAt := now);
      members := members[found.value := member];
      var correctionId := AppendEvent(member, Correction(status), operator, CorrectionOf(eventId, Trim(reason)), now);
      AppendNotification(org, member.studentId, Some(operationId), Some(correctionId), "pickup_status",
                         Corrected(member.studentName, status, Trim(reason)), now);
      result := Ok(member);
    }

    // -------------------------------------------------------- notifications

    method CreateNotifications(org: nat, params: seq<NoticeParams>, now: Time) returns (created: seq<Notification>)
      modifies this
      ensures View() == S.NotifyAll(old(View()), org, params, now)
      ensures notifications == old(notifications) + created && |created| == |params|
    {
      created := [];
      for k := 0 to |params|
        modifies this
        invariant View() == S.NotifyAll(old(View()), org, params[..k], now)
        invariant notifications == old(notifications) + created && |created| == k
      {
        assert params[..k + 1][..k] == params[..k];
        var p := params[k];
        AppendNotification(org, p.studentId, p.operationId, p.eventId, Trim(p.kind), Custom(Trim(p.title), Trim(p.content)), now);
        created := created + [notifications[|notifications| - 1]];
      }
      assert params[..|params|] == params;
    }

    method MarkRead(org: nat, id: nat, now: Time) returns (result: Result<()>)
      modifies this`notifications
      ensures S.Outcome(View(), result) == S.MarkRead(old(View()), org, id, now)
    {
      var found := Scan(notifications, NoticeKey(org, id));
      if found.None? {
        return Err(NotFound);
      }
      notifications := notifications[found.value := notifications[found.value].(readAt := Some(now))];
      result := Ok(());
    }

    method SetNotice(org: nat, id: nat, status: NoticeStatus, attempts: nat, sentAt: Option<Time>, lastAttemptAt: Option<Time>,
                     nextRetryAt: Option<Time>, error: string) returns (result: Result<()>)
      modifies this`notifications
      ensures S.Outcome(View(), result) == S.SetNotice(old(View()), org, id, status, attempts, sentAt, lastAttemptAt, nextRetryAt, error)
    {
      var found := Scan(notifications, NoticeKey(org, id));
      if found.None? {
        return Err(NotFound);
      }
      var item := notifications[found.value].(status := status, sentAt := sentAt, attempts := attempts);
      item := item.(lastAttemptAt := lastAttemptAt, nextRetryAt := nextRetryAt, error := error);
      notifications := notifications[found.value := item];
      result := Ok(());
    }

    // --------------------------------------------------------------- outbox

    method ListOutbox(now: Time, staleBefore: int, limit: int) returns (out: seq<OutboxRow>)
      ensures out == S.ListOutbox(outbox, now, staleBefore, if limit <= 0 || limit > 100 then 100 else limit)
    {
      var cap := if limit <= 0 || limit > 100 then 100 else limit;
      out := [];
      for index := 0 to |outbox|
        invariant out == S.ListOutbox(outbox[..index], now, staleBefore, cap) && |out| < cap
      {
        assert outbox[..index + 1][..index] == outbox[..index];
        var item := outbox[index];
        if item.status != Pending && item.status != Failed {
          continue;
        }
        if item.availableAt > now || (item.lockedAt.Some? && item.lockedAt.value > staleBefore) {
          continue;
        }
        out := out + [item];
        if |out| >= cap {
          FullList(outbox, now, staleBefore, cap, index + 1);
          return;
        }
      }
      assert outbox[..|outbox|] == outbox;
    }

    static lemma {:induction false} FullList(rows: seq<OutboxRow>, now: Time, staleBefore: int, limit: nat, k: nat)
      requires k <= |rows| && |S.ListOutbox(rows[..k], now, staleBefore, limit)| == limit
      ensures S.ListOutbox(rows, now, staleBefore, limit) == S.ListOutbox(rows[..k], now, staleBefore, limit)
      decreases |rows|
    {
      if k == |rows| {
        assert rows[..k] == rows;
      } else {
        var init := rows[..|rows| - 1];
        assert init[..k] == rows[..k];
        FullList(init, now, staleBefore, limit, k);
      }
    }

    method Claim(org: nat, id: nat, at: Time) returns (result: Result<bool>)
      modifies this`outbox
      ensures S.Outcome(View(), result) == S.Claim(old(View()), org, id, at)
    {
      var found := Scan(outbox, ClaimableKey(org, id));
      if found.None? {
        return Ok(false);
      }
      var item := outbox[found.value];
      item := item.(status := Processing, attempts := item.attempts + 1, lockedAt := Some(at));
      outbox := outbox[found.value := item];
      result := Ok(true);
    }

    method CompleteRow(org: nat, id: nat, status: RowStatus, availableAt: Option<Time>, error: string, now: Time) returns (result: Result<()>)
      modifies this`outbox
      ensures S.Outcome(View(), result) == S.CompleteRow(old(View()), org, id, status, availableAt, error, now)
    {
      if status != Pending && status != Processed && status != Failed {
        return Err(InvalidState);
      }
      var found := Scan(outbox, RowKey(org, id));
      if found.None? {
        return Err(NotFound);
      }
      var item := outbox[found.value].(status := status, lockedAt := None, lastError := Trim(error), availableAt := now);
      if availableAt.Some? {
        item := item.(availableAt := availableAt.value);
      }
      if status == Processed {
        item := item.(processedAt := Some(now));
      }
      outbox := outbox[found.value := item];
      result := Ok(());
    }

    method OpenLog(org: nat, notificationId: nat, accountId: nat, kind: string, template: string) returns (result: Result<DeliveryLog>)
      modifies this
      ensures S.Outcome(View(), result) == S.OpenLog(old(View()), org, notificationId, accountId, kind, template)
    {
      var found := Scan(logs, LogKey(org, notificationId, accountId, kind, template));
      if found.Some? {
        return Ok(logs[found.value]);
      }
      var id := NewId();
      var item := DeliveryLog(id, org, notificationId, accountId, Trim(kind), Trim(template), LogPending, 0, None, None, None, "");
      logs := logs + [item];
      result := Ok(item);
    }

    method SetLog(org: nat, id: nat, status: LogStatus, attempts: nat, lastAttemptAt: Option<Time>, sentAt: Option<Time>,
                  nextRetryAt: Option<Time>, error: string)
      returns (result: Result<()>)
      modifies this`logs
      ensures S.Outcome(View(), result) == S.SetLog(old(View()), org, id, status, attempts, lastAttemptAt, sentAt, nextRetryAt, error)
    {
      var found := Scan(logs, LogById(org, id));
      if found.None? {
        return Err(NotFound);
      }
      var item := logs[found.value].(status := status, attempts := attempts, lastAttemptAt := lastAttemptAt, sentAt := sentAt);
      item := item.(nextRetryAt := nextRetryAt, error := Trim(error));
      logs := logs[found.value := item];
      result := Ok(());
    }

    method Retry(org: nat, notificationId: nat, now: Time) returns (result: Result<()>)
      modifies this`outbox, this`notifications
      ensures S.Outcome(View(), result) == S.Retry(old(View()), org, notificationId, now)
    {
      var notice := Scan(notifications, NoticeKey(org, notificationId));
      if notice.None? {
        return Err(NotFound);
      }
      var found := Scan(outbox, RowOfNotice(org, notificationId));
      if found.None? {
        return Err(NotFound);
      }
      var item := outbox[found.value];
      if item.status != Failed {
        return Err(InvalidState);
      }
      item := item.(status := Pending, attempts := 0, availableAt := now, lockedAt := None, processedAt := None, lastError := "");
      outbox := outbox[found.value := item];
      var n := notifications[notice.value].(status := NoticePending, attempts := 0, lastAttemptAt := None, nextRetryAt := None, sentAt := None, error := "");
      notifications := notifications[notice.value := n];
      result := Ok(());
    }

    // ------------------------------------------------------ change requests

    method CreateRequest(org: nat, studentId: nat, operationId: Option<nat>, date: Day, requested: MemberStatus, note: string, author: string)
      returns (result: Result<ChangeRequest>)
      modifies this
      ensures S.Outcome(View(), result) == S.CreateRequest(old(View()), org, studentId, operationId, date, requested, note, author)
    {
      if studentId == 0 || (requested.Unknown? && Trim(requested.text) == "") {
        return Err(InvalidState);
      }
      var pending := Scan(requests, PendingRequestKey(org, studentId, date));
      if pending.Some? {
        return Err(Conflict);
      }
      var id := NewId();
      var item := ChangeRequest(id, org, studentId, operationId, date, requested, Trim(note), Trim(author), RequestPending, None, "", None);
      requests := requests + [item];
      result := Ok(item);
    }

    method ReviewRequest(org: nat, id: nat, status: RequestStatus, reviewer: Option<nat>, note: string, now: Time) returns (result: Result<ChangeRequest>)
      modifies this`requests
      ensures S.Outcome(View(), result) == S.ReviewRequest(old(View()), org, id, status, reviewer, note, now)
    {
      if status != Approved && status != Rejected {
        return Err(InvalidStatus);
      }
      var found := Scan(requests, RequestKey(org, id));
      if found.None? {
        return Err(NotFound);
      }
      if requests[found.value].status != RequestPending {
        return Err(InvalidState);
      }
      var item := requests[found.value].(status := status, reviewer := reviewer, reviewNote := Trim(note), reviewedAt := Some(now));
      requests := requests[found.value := item];
      result := Ok(item);
    }
  }
}

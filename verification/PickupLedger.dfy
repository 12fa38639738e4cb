/** Every id the store issues lands on exactly one record, and each log is in id order. */
module PickupLedger {
  import opened Common
  import opened PickupModel
  import opened PickupSpec
  import opened PickupBatch
  import opened PickupRuns
  import opened PickupHistory

  /** The next id, and the ids of each of the store's eight lists. */
  datatype Ledger = Ledger(next: nat, lists: seq<seq<nat>>)

  function LedgerOf(s: State): Ledger {
    Ledger(s.nextId, [
      seq(|s.operations|, i requires 0 <= i < |s.operations| => s.operations[i].id),
      seq(|s.members|, i requires 0 <= i < |s.members| => s.members[i].id),
      seq(|s.events|, i requires 0 <= i < |s.events| => s.events[i].id),
      seq(|s.notifications|, i requires 0 <= i < |s.notifications| => s.notifications[i].id),
      seq(|s.outbox|, i requires 0 <= i < |s.outbox| => s.outbox[i].id),
      seq(|s.logs|, i requires 0 <= i < |s.logs| => s.logs[i].id),
      seq(|s.requests|, i requires 0 <= i < |s.requests| => s.requests[i].id),
      seq(|s.handoffs|, i requires 0 <= i < |s.handoffs| => s.handoffs[i].id)])
  }

  const OPERATIONS := 0
  const MEMBERS := 1
  const EVENTS := 2
  const NOTICES := 3
  const ROWS := 4
  const LOGS := 5
  const REQUESTS := 6
  const HANDOFFS := 7

  /** The next id goes to a new record of list `k`. */
  function Issue(l: Ledger, k: nat): Ledger
    requires k < |l.lists|
  {
    Ledger(l.next + 1, l.lists[k := l.lists[k] + [l.next]])
  }

  ghost predicate Rising(ids: seq<nat>, next: nat) {
    && (forall i, j | 0 <= i < j < |ids| :: ids[i] < ids[j])
    && (forall i | 0 <= i < |ids| :: 1 <= ids[i] < next)
  }

  function Total(lists: seq<seq<nat>>): multiset<nat> {
    if lists == [] then multiset{} else Total(lists[..|lists| - 1]) + multiset(lists[|lists| - 1])
  }

  ghost predicate Tidy(l: Ledger) {
    && l.next >= 1
    && (forall k | 0 <= k < |l.lists| :: Rising(l.lists[k], l.next))
    && (forall id :: Total(l.lists)[id] == if 1 <= id < l.next then 1 else 0)
  }

  lemma {:induction false} TotalUpdate(lists: seq<seq<nat>>, k: nat, id: nat)
    requires k < |lists|
    ensures Total(lists[k := lists[k] + [id]]) == Total(lists) + multiset{id}
  {
    var last := |lists| - 1;
    var lists' := lists[k := lists[k] + [id]];
    if k < last {
      TotalUpdate(lists[..last], k, id);
      assert lists'[..last] == lists[..last][k := lists[k] + [id]];
    } else {
      assert lists'[..last] == lists[..last];
    }
  }

  lemma {:induction false} TotalOfEmpty(lists: seq<seq<nat>>)
    requires forall k | 0 <= k < |lists| :: lists[k] == []
    ensures Total(lists) == multiset{}
  {
    if lists != [] { TotalOfEmpty(lists[..|lists| - 1]); }
  }

  lemma RisingAppend(ids: seq<nat>, next: nat)
    requires Rising(ids, next) && next >= 1
    ensures Rising(ids + [next], next + 1)
  {
  }

  lemma IssueIsTidy(l: Ledger, k: nat)
    requires Tidy(l) && k < |l.lists|
    ensures Tidy(Issue(l, k))
  {
    TotalUpdate(l.lists, k, l.next);
    RisingAppend(l.lists[k], l.next);
  }

  /** The next `n` ids go to new records of list `k`. */
  function IssueMany(l: Ledger, k: nat, n: nat): (r: Ledger)
    requires k < |l.lists|
    ensures |r.lists| == |l.lists|
  {
    if n == 0 then l else Issue(IssueMany(l, k, n - 1), k)
  }

  lemma {:induction false} IssueManyIsTidy(l: Ledger, k: nat, n: nat)
    requires Tidy(l) && k < |l.lists|
    ensures Tidy(IssueMany(l, k, n))
  {
    if n > 0 {
      IssueManyIsTidy(l, k, n - 1);
      IssueIsTidy(IssueMany(l, k, n - 1), k);
    }
  }

  lemma {:induction false} IssueManyLists(l: Ledger, k: nat, n: nat)
    requires k < |l.lists|
    ensures IssueMany(l, k, n).next == l.next + n
    ensures IssueMany(l, k, n).lists == l.lists[k := l.lists[k] + seq(n, i => l.next + i)]
  {
    if n == 0 {
      assert l.lists[k] + seq(0, i => l.next + i) == l.lists[k];
    } else {
      IssueManyLists(l, k, n - 1);
      assert l.lists[k] + seq(n - 1, i => l.next + i) + [l.next + (n - 1)] == l.lists[k] + seq(n, i => l.next + i);
    }
  }

  lemma ByLists(a: Ledger, b: Ledger)
    requires a.next == b.next && |a.lists| == |b.lists| == 8
    requires a.lists[0] == b.lists[0] && a.lists[1] == b.lists[1] && a.lists[2] == b.lists[2] && a.lists[3] == b.lists[3]
    requires a.lists[4] == b.lists[4] && a.lists[5] == b.lists[5] && a.lists[6] == b.lists[6] && a.lists[7] == b.lists[7]
    ensures a == b
  {
    assert a.lists == b.lists;
  }

  ghost predicate TidyState(s: State) { Tidy(LedgerOf(s)) }

  // ----------------------------------------------------------- what calls issue

  lemma NotifyIssues(s: State, org: nat, student: nat, op: Option<nat>, event: Option<nat>, kind: string, message: Message, now: Time)
    ensures LedgerOf(Notify(s, org, student, op, event, kind, message, now)) == Issue(Issue(LedgerOf(s), NOTICES), ROWS)
  {
    ByLists(LedgerOf(Notify(s, org, student, op, event, kind, message, now)), Issue(Issue(LedgerOf(s), NOTICES), ROWS));
  }

  lemma RecordIssues(s: State, i: nat, m: Member, kind: EventKind, operator: string, note: EventNote, now: Time)
    requires i < |s.members| && m.id == s.members[i].id
    ensures LedgerOf(Record(s.(members := s.members[i := m]), m, kind, operator, note, now)) == Issue(LedgerOf(s), EVENTS)
  {
    ByLists(LedgerOf(Record(s.(members := s.members[i := m]), m, kind, operator, note, now)), Issue(LedgerOf(s), EVENTS));
  }

  lemma ChangeKeepsTidy(s: State, i: nat, status: MemberStatus, photo: string, operator: string, note: string, now: Time)
    requires TidyState(s) && i < |s.members|
    ensures TidyState(Change(s, i, status, photo, operator, note, now))
  {
    var m := s.members[i];
    var m' := m.(status := status, checkedAt := Some(now), note := Trim(note), updatedAt := now,
                 photo := if Trim(photo) != "" then Trim(photo) else m.photo);
    RecordIssues(s, i, m', Marked(status), operator, Text(Trim(note)), now);
    var mid := Record(s.(members := s.members[i := m']), m', Marked(status), operator, Text(Trim(note)), now);
    IssueIsTidy(LedgerOf(s), EVENTS);
    NotifyKeepsTidy(mid, m.org, m.studentId, Some(m.operationId), Some(s.nextId), "pickup_status", StatusChanged(m.studentName, status), now);
  }

  lemma NotifyKeepsTidy(s: State, org: nat, student: nat, op: Option<nat>, event: Option<nat>, kind: string, message: Message, now: Time)
    requires TidyState(s)
    ensures TidyState(Notify(s, org, student, op, event, kind, message, now))
  {
    NotifyIssues(s, org, student, op, event, kind, message, now);
    IssueIsTidy(LedgerOf(s), NOTICES);
    IssueIsTidy(Issue(LedgerOf(s), NOTICES), ROWS);
  }

  lemma MarkKeepsTidy(s: State, org: nat, operationId: nat, studentId: nat, status: MemberStatus, photo: string,
                      operator: string, note: string, now: Time)
    requires TidyState(s)
    ensures TidyState(MarkStudent(s, org, operationId, studentId, status, photo, operator, note, now).state)
  {
    var f := FirstIndex(s.members, MemberKey(org, operationId, studentId));
    if f.Some? {
      var i := f.value;
      ChangeKeepsTidy(s, i, status, photo, operator, note, now);
      var m' := s.members[i].(photo := Trim(photo), updatedAt := now);
      RecordIssues(s, i, m', Marked(m'.status), operator, LatePhoto, now);
      IssueIsTidy(LedgerOf(s), EVENTS);
    }
  }

  lemma CorrectKeepsTidy(s: State, i: nat, eventId: nat, status: MemberStatus, operator: string, reason: string, now: Time)
    requires TidyState(s) && i < |s.members|
    ensures TidyState(Correct(s, i, eventId, status, operator, reason, now))
  {
    var m := s.members[i];
    var m' := m.(status := status, checkedAt := Some(now), note := Trim(reason), updatedAt := now);
    RecordIssues(s, i, m', Correction(status), operator, CorrectionOf(eventId, Trim(reason)), now);
    var mid := Record(s.(members := s.members[i := m']), m', Correction(status), operator, CorrectionOf(eventId, Trim(reason)), now);
    IssueIsTidy(LedgerOf(s), EVENTS);
    NotifyKeepsTidy(mid, m.org, m.studentId, Some(m.operationId), Some(s.nextId), "pickup_status", Corrected(m.studentName, status, Trim(reason)), now);
  }

  lemma CreateKeepsTidy(s: State, org: nat, date: Day, details: Details, classId: nat, roster: seq<StudentRef>, now: Time)
    requires TidyState(s)
    ensures TidyState(CreateOperation(s, org, date, details, classId, roster, now).state)
  {
    var t := CreateOperation(s, org, date, details, classId, roster, now).state;
    if t != s {
      var n, first := |DistinctBy(roster, RefId())|, Issue(LedgerOf(s), OPERATIONS);
      IssueIsTidy(LedgerOf(s), OPERATIONS);
      IssueManyIsTidy(first, MEMBERS, n);
      IssueManyLists(first, MEMBERS, n);
      ByLists(LedgerOf(t), IssueMany(first, MEMBERS, n));
    }
  }

  lemma {:induction false} MarksKeepTidy(s: State, org: nat, operationId: nat, ids: seq<nat>, operator: string, note: string, now: Time)
    requires TidyState(s)
    ensures TidyState(MarkEach(s, org, operationId, ids, operator, note, now).state)
  {
    if ids != [] {
      var init := ids[..|ids| - 1];
      MarksKeepTidy(s, org, operationId, init, operator, note, now);
      MarkKeepsTidy(MarkEach(s, org, operationId, init, operator, note, now).state, org, operationId, ids[|ids| - 1], Arrived, "", operator, note, now);
    }
  }

  lemma {:induction false} NotifyAllKeepsTidy(s: State, org: nat, params: seq<NoticeParams>, now: Time)
    requires TidyState(s)
    ensures TidyState(NotifyAll(s, org, params, now))
  {
    if params != [] {
      NotifyAllKeepsTidy(s, org, params[..|params| - 1], now);
      var p, mid := params[|params| - 1], NotifyAll(s, org, params[..|params| - 1], now);
      NotifyKeepsTidy(mid, org, p.studentId, p.operationId, p.eventId, Trim(p.kind), Custom(Trim(p.title), Trim(p.content)), now);
    }
  }

  lemma BulkKeepsTidy(s: State, org: nat, operationId: nat, ids: seq<nat>, operator: string, note: string, now: Time)
    requires TidyState(s) && History(s)
    ensures TidyState(BulkArrive(s, org, operationId, ids, operator, note, now).state)
  {
    BulkArriveRefinesMarks(s, org, operationId, ids, operator, note, now);
    MarksKeepTidy(s, org, operationId, DistinctBy(ids, Same()), operator, note, now);
  }

  /** Calls that edit records without adding any. */
  predicate Edits(c: Command) {
    c.CmdSetStatus? || c.CmdConfirm? || c.CmdCompleteProfile? || c.CmdMarkRead? || c.CmdReview? || c.CmdRetry? || c.CmdClaim?
    || c.CmdComplete? || c.CmdSetLog? || c.CmdSetNotice?
  }

  lemma EditsKeepLedger(s: State, org: nat, c: Command, now: Time)
    requires Edits(c)
    ensures LedgerOf(Step(s, org, c, now)) == LedgerOf(s)
  {
    if c.CmdSetStatus? || c.CmdConfirm? { OperationEditsKeepLedger(s, org, c, now); }
    else if c.CmdCompleteProfile? || c.CmdReview? { RecordEditsKeepLedger(s, org, c, now); }
    else if c.CmdMarkRead? || c.CmdSetNotice? { NoticeEditsKeepLedger(s, org, c, now); }
    else if c.CmdClaim? || c.CmdComplete? { RowEditsKeepLedger(s, org, c, now); }
    else { DeliveryEditsKeepLedger(s, org, c, now); }
  }

  lemma OperationEditsKeepLedger(s: State, org: nat, c: Command, now: Time)
    requires c.CmdSetStatus? || c.CmdConfirm?
    ensures LedgerOf(Step(s, org, c, now)) == LedgerOf(s)
  {
    ByLists(LedgerOf(Step(s, org, c, now)), LedgerOf(s));
  }

  lemma RecordEditsKeepLedger(s: State, org: nat, c: Command, now: Time)
    requires c.CmdCompleteProfile? || c.CmdReview?
    ensures LedgerOf(Step(s, org, c, now)) == LedgerOf(s)
  {
    ByLists(LedgerOf(Step(s, org, c, now)), LedgerOf(s));
  }

  lemma NoticeEditsKeepLedger(s: State, org: nat, c: Command, now: Time)
    requires c.CmdMarkRead? || c.CmdSetNotice?
    ensures LedgerOf(Step(s, org, c, now)) == LedgerOf(s)
  {
    ByLists(LedgerOf(Step(s, org, c, now)), LedgerOf(s));
  }

  lemma RowEditsKeepLedger(s: State, org: nat, c: Command, now: Time)
    requires c.CmdClaim? || c.CmdComplete?
    ensures LedgerOf(Step(s, org, c, now)) == LedgerOf(s)
  {
    ByLists(LedgerOf(Step(s, org, c, now)), LedgerOf(s));
  }

  lemma DeliveryEditsKeepLedger(s: State, org: nat, c: Command, now: Time)
    requires c.CmdSetLog? || c.CmdRetry?
    ensures LedgerOf(Step(s, org, c, now)) == LedgerOf(s)
  {
    ByLists(LedgerOf(Step(s, org, c, now)), LedgerOf(s));
  }

  lemma HandoffKeepsTidy(s: State, org: nat, id: nat, toId: nat, toName: string, role: string, note: string, author: Teacher, now: Time)
    requires TidyState(s)
    ensures TidyState(HandoffOperation(s, org, id, toId, toName, role, note, author, now).state)
  {
    var t := HandoffOperation(s, org, id, toId, toName, role, note, author, now).state;
    if t != s {
      ByLists(LedgerOf(t), Issue(LedgerOf(s), HANDOFFS));
      IssueIsTidy(LedgerOf(s), HANDOFFS);
    }
  }

  lemma AddKeepsTidy(s: State, org: nat, operationId: nat, studentId: nat, name: string, temporary: bool, pending: bool,
                     mode: string, note: string, now: Time)
    requires TidyState(s)
    ensures TidyState(AddOperationStudent(s, org, operationId, studentId, name, temporary, pending, mode, note, now).state)
  {
    var t := AddOperationStudent(s, org, operationId, studentId, name, temporary, pending, mode, note, now).state;
    if t != s {
      ByLists(LedgerOf(t), Issue(LedgerOf(s), MEMBERS));
      IssueIsTidy(LedgerOf(s), MEMBERS);
    }
  }

  lemma RequestKeepsTidy(s: State, org: nat, studentId: nat, operationId: Option<nat>, date: Day, requested: MemberStatus, note: string, author: string)
    requires TidyState(s)
    ensures TidyState(CreateRequest(s, org, studentId, operationId, date, requested, note, author).state)
  {
    var t := CreateRequest(s, org, studentId, operationId, date, requested, note, author).state;
    if t != s {
      ByLists(LedgerOf(t), Issue(LedgerOf(s), REQUESTS));
      IssueIsTidy(LedgerOf(s), REQUESTS);
    }
  }

  lemma OpenLogKeepsTidy(s: State, org: nat, notificationId: nat, accountId: nat, kind: string, template: string)
    requires TidyState(s)
    ensures TidyState(OpenLog(s, org, notificationId, accountId, kind, template).state)
  {
    var t := OpenLog(s, org, notificationId, accountId, kind, template).state;
    if t != s {
      ByLists(LedgerOf(t), Issue(LedgerOf(s), LOGS));
      IssueIsTidy(LedgerOf(s), LOGS);
    }
  }

  lemma CorrectEventKeepsTidy(s: State, org: nat, operationId: nat, eventId: nat, target: MemberStatus, operator: string, reason: string, now: Time)
    requires TidyState(s)
    ensures TidyState(CorrectEvent(s, org, operationId, eventId, target, operator, reason, now).state)
  {
    var k := FirstIndex(s.events, EventKey(org, operationId, eventId));
    if k.Some? {
      var i := FirstIndex(s.members, MemberKey(org, operationId, s.events[k.value].studentId));
      if i.Some? { CorrectKeepsTidy(s, i.value, eventId, target, operator, reason, now); }
    }
  }

  lemma PlainStepKeepsTidy(s: State, org: nat, c: Command, now: Time)
    requires TidyState(s) && !c.CmdCreate? && !c.CmdMark? && !c.CmdBulkArrive? && !c.CmdCorrect? && !c.CmdNotify?
    ensures TidyState(Step(s, org, c, now))
  {
    match c
    case CmdHandoff(id, toId, toName, role, note, author) => HandoffKeepsTidy(s, org, id, toId, toName, role, note, author, now);
    case CmdAddStudent(op, student, name, temporary, pending, mode, note) =>
      AddKeepsTidy(s, org, op, student, name, temporary, pending, mode, note, now);
    case CmdSubmitChange(student, date, requested, note) =>
      RequestKeepsTidy(s, org, student, OperationFor(s, org, date, student), date, requested, note, "parent");
    case CmdOpenLog(notice, account, kind, template) => OpenLogKeepsTidy(s, org, notice, account, kind, template);
    case _ => EditsKeepLedger(s, org, c, now);
  }

  lemma StepKeepsTidy(s: State, org: nat, c: Command, now: Time)
    requires TidyState(s) && History(s)
    ensures TidyState(Step(s, org, c, now))
  {
    if c.CmdMark? || c.CmdBulkArrive? || c.CmdCorrect? || c.CmdNotify? { LoggedStepKeepsTidy(s, org, c, now); }
    else if c.CmdCreate? { CreateKeepsTidy(s, org, c.date, c.details, c.classId, c.roster, now); }
    else { PlainStepKeepsTidy(s, org, c, now); }
  }

  lemma LoggedStepKeepsTidy(s: State, org: nat, c: Command, now: Time)
    requires TidyState(s) && History(s) && (c.CmdMark? || c.CmdBulkArrive? || c.CmdCorrect? || c.CmdNotify?)
    ensures TidyState(Step(s, org, c, now))
  {
    match c
    case CmdMark(op, student, status, photo, operator, note) => MarkKeepsTidy(s, org, op, student, status, photo, operator, note, now);
    case CmdBulkArrive(op, ids, operator, note) => BulkKeepsTidy(s, org, op, ids, operator, note, now);
    case CmdCorrect(op, event, target, operator, reason) => CorrectEventKeepsTidy(s, org, op, event, target, operator, reason, now);
    case CmdNotify(params) => NotifyAllKeepsTidy(s, org, params, now);
  }

  /** After any run the ids 1, 2, ... below the next one are each on exactly one
      record of the store, and every list is in ascending id order. */
  lemma {:induction false} EveryIdOnce(calls: seq<Call>)
    ensures Tidy(LedgerOf(Run(INIT, calls)))
  {
    if calls == [] {
      TotalOfEmpty(LedgerOf(INIT).lists);
    } else {
      EveryIdOnce(calls[..|calls| - 1]);
      RunKeepsHistory(INIT, calls[..|calls| - 1]);
      var c := calls[|calls| - 1];
      StepKeepsTidy(Run(INIT, calls[..|calls| - 1]), c.org, c.command, c.now);
    }
  }
}

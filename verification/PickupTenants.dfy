/** One store serves many organizations: a call made for one of them leaves every
    record of the others as it is, and adds none to theirs. */
module PickupTenants {
  import opened Common
  import opened PickupModel
  import opened PickupSpec
  import opened PickupBatch
  import opened PickupRuns

  /** From `a` to `b`: records keep their place and organization, those of other
      organizations than `org` stay the same, and what is added is `org`'s. */
  ghost predicate Only<T(!new)>(a: seq<T>, b: seq<T>, orgOf: T -> nat, org: nat) {
    && |a| <= |b| && (forall k | 0 <= k < |a| :: orgOf(b[k]) == orgOf(a[k]) && (orgOf(a[k]) != org ==> b[k] == a[k]))
    && (forall k | |a| <= k < |b| :: orgOf(b[k]) == org)
  }

  lemma OnlyTwice<T(!new)>(a: seq<T>, b: seq<T>, c: seq<T>, orgOf: T -> nat, org: nat)
    requires Only(a, b, orgOf, org) && Only(b, c, orgOf, org)
    ensures Only(a, c, orgOf, org)
  {
  }

  function OrgOfOperation(): Operation -> nat { (x: Operation) => x.org }
  function OrgOfMember(): Member -> nat { (x: Member) => x.org }
  function OrgOfEvent(): Event -> nat { (x: Event) => x.org }
  function OrgOfNotice(): Notification -> nat { (x: Notification) => x.org }
  function OrgOfRow(): OutboxRow -> nat { (x: OutboxRow) => x.org }
  function OrgOfLog(): DeliveryLog -> nat { (x: DeliveryLog) => x.org }
  function OrgOfRequest(): ChangeRequest -> nat { (x: ChangeRequest) => x.org }
  function OrgOfHandoff(): Handoff -> nat { (x: Handoff) => x.org }

  ghost predicate Within(s: State, t: State, org: nat) {
    && Only(s.operations, t.operations, OrgOfOperation(), org) && Only(s.members, t.members, OrgOfMember(), org)
    && Only(s.events, t.events, OrgOfEvent(), org) && Only(s.notifications, t.notifications, OrgOfNotice(), org)
    && Only(s.outbox, t.outbox, OrgOfRow(), org) && Only(s.logs, t.logs, OrgOfLog(), org)
    && Only(s.requests, t.requests, OrgOfRequest(), org) && Only(s.handoffs, t.handoffs, OrgOfHandoff(), org)
  }

  lemma WithinTwice(s: State, m: State, t: State, org: nat)
    requires Within(s, m, org) && Within(m, t, org)
    ensures Within(s, t, org)
  {
    OnlyTwice(s.operations, m.operations, t.operations, OrgOfOperation(), org);
    OnlyTwice(s.members, m.members, t.members, OrgOfMember(), org);
    OnlyTwice(s.events, m.events, t.events, OrgOfEvent(), org);
    OnlyTwice(s.notifications, m.notifications, t.notifications, OrgOfNotice(), org);
    OnlyTwice(s.outbox, m.outbox, t.outbox, OrgOfRow(), org);
    OnlyTwice(s.logs, m.logs, t.logs, OrgOfLog(), org);
    OnlyTwice(s.requests, m.requests, t.requests, OrgOfRequest(), org);
    OnlyTwice(s.handoffs, m.handoffs, t.handoffs, OrgOfHandoff(), org);
  }

  // ------------------------------------------------------------- each call

  lemma RecordWithin(s: State, m: Member, kind: EventKind, operator: string, note: EventNote, now: Time)
    ensures Within(s, Record(s, m, kind, operator, note, now), m.org)
  {
  }

  lemma NotifyWithin(s: State, org: nat, student: nat, op: Option<nat>, event: Option<nat>, kind: string, message: Message, now: Time)
    ensures Within(s, Notify(s, org, student, op, event, kind, message, now), org)
  {
  }

  lemma EditWithin(s: State, i: nat, m: Member, org: nat)
    requires i < |s.members| && s.members[i].org == org && m.org == org
    ensures Within(s, s.(members := s.members[i := m]), org)
  {
  }

  lemma ChangeWithin(s: State, i: nat, status: MemberStatus, photo: string, operator: string, note: string, now: Time, org: nat)
    requires i < |s.members| && s.members[i].org == org
    ensures Within(s, Change(s, i, status, photo, operator, note, now), org)
  {
    var t := Change(s, i, status, photo, operator, note, now);
    var edited := s.(members := t.members);
    EditWithin(s, i, t.members[i], org);
    var logged := s.(members := t.members, events := t.events);
    assert Within(edited, logged, org);
    WithinTwice(s, edited, logged, org);
    assert Within(logged, t, org);
    WithinTwice(s, logged, t, org);
  }

  lemma CorrectWithin(s: State, i: nat, eventId: nat, status: MemberStatus, operator: string, reason: string, now: Time, org: nat)
    requires i < |s.members| && s.members[i].org == org
    ensures Within(s, Correct(s, i, eventId, status, operator, reason, now), org)
  {
    var t := Correct(s, i, eventId, status, operator, reason, now);
    var edited := s.(members := t.members);
    EditWithin(s, i, t.members[i], org);
    var logged := s.(members := t.members, events := t.events);
    assert Within(edited, logged, org);
    WithinTwice(s, edited, logged, org);
    assert Within(logged, t, org);
    WithinTwice(s, logged, t, org);
  }

  lemma AttachWithin(s: State, i: nat, photo: string, operator: string, now: Time, org: nat)
    requires i < |s.members| && s.members[i].org == org
    ensures Within(s, AttachPhoto(s, i, photo, operator, now), org)
  {
    var t := AttachPhoto(s, i, photo, operator, now);
    EditWithin(s, i, t.members[i], org);
    assert Within(s.(members := t.members), t, org);
    WithinTwice(s, s.(members := t.members), t, org);
  }

  lemma NothingWithin(s: State, org: nat)
    ensures Within(s, s, org)
  {
  }

  lemma MarkWithin(s: State, org: nat, operationId: nat, studentId: nat, status: MemberStatus, photo: string, operator: string, note: string, now: Time)
    ensures Within(s, MarkStudent(s, org, operationId, studentId, status, photo, operator, note, now).state, org)
  {
    var f := FirstIndex(s.members, MemberKey(org, operationId, studentId));
    NothingWithin(s, org);
    if f.Some? {
      ChangeWithin(s, f.value, status, photo, operator, note, now, org);
      AttachWithin(s, f.value, Trim(photo), operator, now, org);
    }
  }

  lemma CorrectEventWithin(s: State, org: nat, operationId: nat, eventId: nat, target: MemberStatus, operator: string, reason: string, now: Time)
    ensures Within(s, CorrectEvent(s, org, operationId, eventId, target, operator, reason, now).state, org)
  {
    NothingWithin(s, org);
    var k := FirstIndex(s.events, EventKey(org, operationId, eventId));
    if k.Some? {
      var i := FirstIndex(s.members, MemberKey(org, operationId, s.events[k.value].studentId));
      if i.Some? { CorrectWithin(s, i.value, eventId, target, operator, reason, now, org); }
    }
  }

  lemma {:induction false} ArrivalsWithin(s: State, org: nat, operationId: nat, ids: seq<nat>, operator: string, note: string, now: Time)
    ensures Within(s, ArriveAll(s, org, operationId, ids, operator, note, now), org)
  {
    NothingWithin(s, org);
    if ids != [] {
      var init, id := ids[..|ids| - 1], ids[|ids| - 1];
      var mid := ArriveAll(s, org, operationId, init, operator, note, now);
      ArrivalsWithin(s, org, operationId, init, operator, note, now);
      var i := InTable(s.members, org, operationId, id);
      if i.Some? && mid.members[i.value].status != Arrived {
        assert OrgOfMember()(mid.members[i.value]) == OrgOfMember()(s.members[i.value]);
        ChangeWithin(mid, i.value, Arrived, "", operator, note, now, org);
        WithinTwice(s, mid, ArriveAll(s, org, operationId, ids, operator, note, now), org);
      }
    }
  }

  lemma BulkWithin(s: State, org: nat, operationId: nat, studentIds: seq<nat>, operator: string, note: string, now: Time)
    ensures Within(s, BulkArrive(s, org, operationId, studentIds, operator, note, now).state, org)
  {
    NothingWithin(s, org);
    ArrivalsWithin(s, org, operationId, DistinctBy(studentIds, Same()), operator, note, now);
  }

  lemma {:induction false} NotifyAllWithin(s: State, org: nat, params: seq<NoticeParams>, now: Time)
    ensures Within(s, NotifyAll(s, org, params, now), org)
  {
    NothingWithin(s, org);
    if params != [] {
      var p, mid := params[|params| - 1], NotifyAll(s, org, params[..|params| - 1], now);
      NotifyAllWithin(s, org, params[..|params| - 1], now);
      NotifyWithin(mid, org, p.studentId, p.operationId, p.eventId, Trim(p.kind), Custom(Trim(p.title), Trim(p.content)), now);
      WithinTwice(s, mid, NotifyAll(s, org, params, now), org);
    }
  }

  lemma CreateWithin(s: State, org: nat, date: Day, details: Details, classId: nat, roster: seq<StudentRef>, now: Time)
    ensures Within(s, CreateOperation(s, org, date, details, classId, roster, now).state, org)
  {
  }

  lemma SetStatusWithin(s: State, org: nat, id: nat, status: OperationStatus, now: Time)
    ensures Within(s, SetOperationStatus(s, org, id, status, now).state, org)
  {
  }

  lemma ConfirmWithin(s: State, org: nat, id: nat, teacher: Teacher, c: Confirmation, now: Time)
    ensures Within(s, ConfirmOperation(s, org, id, teacher, c, now).state, org)
  {
  }

  lemma HandoffWithin(s: State, org: nat, id: nat, toId: nat, toName: string, role: string, note: string, author: Teacher, now: Time)
    ensures Within(s, HandoffOperation(s, org, id, toId, toName, role, note, author, now).state, org)
  {
  }

  lemma AddWithin(s: State, org: nat, operationId: nat, studentId: nat, name: string, temporary: bool, pending: bool, mode: string, note: string, now: Time)
    ensures Within(s, AddOperationStudent(s, org, operationId, studentId, name, temporary, pending, mode, note, now).state, org)
  {
  }

  lemma ProfileWithin(s: State, org: nat, operationId: nat, studentId: nat, now: Time)
    ensures Within(s, CompleteProfile(s, org, operationId, studentId, now).state, org)
  {
  }

  lemma FileWithin(s: State, org: nat, studentId: nat, operationId: Option<nat>, date: Day, requested: MemberStatus, note: string, author: string)
    ensures Within(s, CreateRequest(s, org, studentId, operationId, date, requested, note, author).state, org)
  {
  }

  lemma SubmitWithin(s: State, org: nat, studentId: nat, date: Day, requested: MemberStatus, note: string)
    ensures Within(s, SubmitChange(s, org, studentId, date, requested, note).state, org)
  {
    NothingWithin(s, org);
    FileWithin(s, org, studentId, OperationFor(s, org, date, studentId), date, requested, note, "parent");
  }

  lemma ReviewWithin(s: State, org: nat, id: nat, status: RequestStatus, reviewer: Option<nat>, note: string, now: Time)
    ensures Within(s, ReviewRequest(s, org, id, status, reviewer, note, now).state, org)
  {
  }

  lemma ReadWithin(s: State, org: nat, id: nat, now: Time)
    ensures Within(s, MarkRead(s, org, id, now).state, org)
  {
  }

  lemma RetryWithin(s: State, org: nat, id: nat, now: Time)
    ensures Within(s, Retry(s, org, id, now).state, org)
  {
  }

  lemma SetNoticeWithin(s: State, org: nat, id: nat, status: NoticeStatus, attempts: nat, sent: Option<Time>, last: Option<Time>, next: Option<Time>, error: string)
    ensures Within(s, SetNotice(s, org, id, status, attempts, sent, last, next, error).state, org)
  {
  }

  lemma ClaimWithin(s: State, org: nat, id: nat, at: Time)
    ensures Within(s, Claim(s, org, id, at).state, org)
  {
  }

  lemma CompleteWithin(s: State, org: nat, id: nat, status: RowStatus, availableAt: Option<Time>, error: string, now: Time)
    ensures Within(s, CompleteRow(s, org, id, status, availableAt, error, now).state, org)
  {
  }

  lemma OpenLogWithin(s: State, org: nat, notificationId: nat, accountId: nat, kind: string, template: string)
    ensures Within(s, OpenLog(s, org, notificationId, accountId, kind, template).state, org)
  {
  }

  lemma SetLogWithin(s: State, org: nat, id: nat, status: LogStatus, attempts: nat, last: Option<Time>, sent: Option<Time>, next: Option<Time>, error: string)
    ensures Within(s, SetLog(s, org, id, status, attempts, last, sent, next, error).state, org)
  {
  }

  lemma StepWithin(s: State, org: nat, c: Command, now: Time)
    ensures Within(s, Step(s, org, c, now), org)
  {
    match c
    case CmdCreate(date, details, classId, roster) => CreateWithin(s, org, date, details, classId, roster, now);
    case CmdMark(op, student, status, photo, operator, note) => MarkWithin(s, org, op, student, status, photo, operator, note, now);
    case CmdBulkArrive(op, ids, operator, note) => BulkWithin(s, org, op, ids, operator, note, now);
    case CmdCorrect(op, event, target, operator, reason) => CorrectEventWithin(s, org, op, event, target, operator, reason, now);
    case CmdNotify(params) => NotifyAllWithin(s, org, params, now);
    case _ => PlainStepWithin(s, org, c, now);
  }

  lemma PlainStepWithin(s: State, org: nat, c: Command, now: Time)
    requires !c.CmdCreate? && !c.CmdMark? && !c.CmdBulkArrive? && !c.CmdCorrect? && !c.CmdNotify?
    ensures Within(s, Step(s, org, c, now), org)
  {
    match c
    case CmdSetStatus(id, status) => SetStatusWithin(s, org, id, status, now);
    case CmdConfirm(id, teacher, confirmation) => ConfirmWithin(s, org, id, teacher, confirmation, now);
    case CmdHandoff(id, toId, toName, role, note, author) => HandoffWithin(s, org, id, toId, toName, role, note, author, now);
    case CmdAddStudent(op, student, name, temporary, pending, mode, note) => AddWithin(s, org, op, student, name, temporary, pending, mode, note, now);
    case CmdCompleteProfile(op, student) => ProfileWithin(s, org, op, student, now);
    case CmdSubmitChange(student, date, requested, note) => SubmitWithin(s, org, student, date, requested, note);
    case CmdReview(id, review, reviewer, note) => ReviewWithin(s, org, id, review, reviewer, note, now);
    case _ => DeliveryStepWithin(s, org, c, now);
  }

  lemma DeliveryStepWithin(s: State, org: nat, c: Command, now: Time)
    requires c.CmdMarkRead? || c.CmdRetry? || c.CmdClaim? || c.CmdComplete? || c.CmdOpenLog? || c.CmdSetLog? || c.CmdSetNotice?
    ensures Within(s, Step(s, org, c, now), org)
  {
    match c
    case CmdMarkRead(id) => ReadWithin(s, org, id, now);
    case CmdRetry(id) => RetryWithin(s, org, id, now);
    case _ => DispatcherStepWithin(s, org, c, now);
  }

  lemma DispatcherStepWithin(s: State, org: nat, c: Command, now: Time)
    requires c.CmdClaim? || c.CmdComplete? || c.CmdOpenLog? || c.CmdSetLog? || c.CmdSetNotice?
    ensures Within(s, Step(s, org, c, now), org)
  {
    match c
    case CmdClaim(id) => ClaimWithin(s, org, id, now);
    case CmdComplete(id, row, availableAt, error) => CompleteWithin(s, org, id, row, availableAt, error, now);
    case CmdOpenLog(notice, account, kind, template) => OpenLogWithin(s, org, notice, account, kind, template);
    case CmdSetLog(id, log, attempts, last, sent, next, error) => SetLogWithin(s, org, id, log, attempts, last, sent, next, error);
    case CmdSetNotice(id, notice, attempts, sent, last, next, error) => SetNoticeWithin(s, org, id, notice, attempts, sent, last, next, error);
  }

  // ------------------------------------------------------------ main result

  /** The organization's records of that kind are the very same. */
  ghost predicate Untouched<T(!new)>(a: seq<T>, b: seq<T>, orgOf: T -> nat, org: nat) {
    && |a| <= |b| && (forall k | 0 <= k < |a| && orgOf(a[k]) == org :: b[k] == a[k])
    && (forall k | 0 <= k < |b| && orgOf(b[k]) == org :: k < |a| && a[k] == b[k])
  }

  ghost predicate LeftAlone(s: State, t: State, org: nat) {
    && Untouched(s.operations, t.operations, OrgOfOperation(), org) && Untouched(s.members, t.members, OrgOfMember(), org)
    && Untouched(s.events, t.events, OrgOfEvent(), org) && Untouched(s.notifications, t.notifications, OrgOfNotice(), org)
    && Untouched(s.outbox, t.outbox, OrgOfRow(), org) && Untouched(s.logs, t.logs, OrgOfLog(), org)
    && Untouched(s.requests, t.requests, OrgOfRequest(), org) && Untouched(s.handoffs, t.handoffs, OrgOfHandoff(), org)
  }

  lemma UntouchedTwice<T(!new)>(a: seq<T>, b: seq<T>, c: seq<T>, orgOf: T -> nat, org: nat, other: nat)
    requires Untouched(a, b, orgOf, org) && Only(b, c, orgOf, other) && other != org
    ensures Untouched(a, c, orgOf, org)
  {
  }

  lemma OthersStep(s: State, m: State, t: State, org: nat, other: nat)
    requires LeftAlone(s, m, org) && Within(m, t, other) && other != org
    ensures LeftAlone(s, t, org)
  {
    UntouchedTwice(s.operations, m.operations, t.operations, OrgOfOperation(), org, other);
    UntouchedTwice(s.members, m.members, t.members, OrgOfMember(), org, other);
    UntouchedTwice(s.events, m.events, t.events, OrgOfEvent(), org, other);
    UntouchedTwice(s.notifications, m.notifications, t.notifications, OrgOfNotice(), org, other);
    UntouchedTwice(s.outbox, m.outbox, t.outbox, OrgOfRow(), org, other);
    UntouchedTwice(s.logs, m.logs, t.logs, OrgOfLog(), org, other);
    UntouchedTwice(s.requests, m.requests, t.requests, OrgOfRequest(), org, other);
    UntouchedTwice(s.handoffs, m.handoffs, t.handoffs, OrgOfHandoff(), org, other);
  }

  /** From any state, whatever the other organizations do: the records of an
      organization are the same before and after, in the same places, none more
      and none less. */
  lemma {:induction false} OrganizationsAreApart(s: State, calls: seq<Call>, org: nat)
    requires forall c | c in calls :: c.org != org
    ensures LeftAlone(s, Run(s, calls), org)
  {
    if calls != [] {
      var init, c := calls[..|calls| - 1], calls[|calls| - 1];
      OrganizationsAreApart(s, init, org);
      StepWithin(Run(s, init), c.org, c.command, c.now);
      OthersStep(s, Run(s, init), Run(s, calls), org, c.org);
    }
  }
}

/** The event log explains every member: replaying it gives the member back. */
module PickupHistory {
  import opened Common
  import opened PickupModel
  import opened PickupSpec
  import opened PickupBatch
  import opened PickupRuns

  // ----------------------------------------------------------------- replay

  /** What the log says about one member; `seen` once it has an event. */
  datatype Replayed = Replayed(status: MemberStatus, photo: string, checkedAt: Option<Time>, seen: bool)

  const UNSEEN := Replayed(Planned, "", None, false)

  /** One event: a mark must be a legal transition, a correction needs an earlier event. */
  function Apply(r: Replayed, e: Event): Option<Replayed> {
    match e.kind
    case Marked(status) =>
      if !IsValidMemberTransition(r.status, status) then None
      else Some(Replayed(status, e.photo, if status == r.status then r.checkedAt else Some(e.at), true))
    case Correction(target) =>
      if r.seen then Some(Replayed(target, e.photo, Some(e.at), true)) else None
  }

  function Replay(events: seq<Event>, memberId: nat): Option<Replayed> {
    if events == [] then Some(UNSEEN)
    else
      match Replay(events[..|events| - 1], memberId)
      case None => None
      case Some(r) => if events[|events| - 1].memberId == memberId then Apply(r, events[|events| - 1]) else Some(r)
  }

  lemma ReplayAppend(events: seq<Event>, e: Event, memberId: nat)
    ensures Replay(events + [e], memberId) ==
            match Replay(events, memberId)
            case None => None
            case Some(r) => if e.memberId == memberId then Apply(r, e) else Some(r)
  {
    assert (events + [e])[..|events|] == events;
  }

  lemma {:induction false} SeenMeansEvent(events: seq<Event>, memberId: nat)
    ensures Replay(events, memberId).Some? ==>
              (Replay(events, memberId).value.seen <==> exists k | 0 <= k < |events| :: events[k].memberId == memberId)
    ensures (forall k | 0 <= k < |events| :: events[k].memberId != memberId) ==> Replay(events, memberId) == Some(UNSEEN)
  {
    if events != [] {
      SeenMeansEvent(events[..|events| - 1], memberId);
    }
  }

  // -------------------------------------------------------------- invariant

  ghost predicate OperationIn(ops: seq<Operation>, org: nat, id: nat) {
    exists k | 0 <= k < |ops| :: ops[k].org == org && ops[k].id == id
  }

  /** The operation has left the draft and confirmed states. */
  ghost predicate Begun(ops: seq<Operation>, id: nat) {
    exists k | 0 <= k < |ops| :: ops[k].id == id && ops[k].status != Draft && ops[k].status != Confirmed
  }

  ghost predicate Owns(m: Member, e: Event) {
    m.id == e.memberId && m.org == e.org && m.operationId == e.operationId && m.studentId == e.studentId
  }

  ghost predicate MemberIn(ms: seq<Member>, e: Event) {
    exists i | 0 <= i < |ms| :: Owns(ms[i], e)
  }

  ghost predicate Explained(m: Member, events: seq<Event>) {
    var r := Replay(events, m.id);
    r.Some? && r.value.status == m.status && r.value.photo == m.photo && r.value.checkedAt == m.checkedAt
  }

  ghost predicate OperationsRise(s: State) {
    && (forall i, j | 0 <= i < j < |s.operations| :: s.operations[i].id < s.operations[j].id)
    && (forall i | 0 <= i < |s.operations| :: 1 <= s.operations[i].id < s.nextId)
  }

  ghost predicate MembersRise(s: State) {
    && (forall i, j | 0 <= i < j < |s.members| :: s.members[i].id < s.members[j].id)
    && (forall i | 0 <= i < |s.members| :: 1 <= s.members[i].id < s.nextId)
  }

  ghost predicate MembersLinked(s: State) {
    && MembersUnique(s.members)
    && (forall i | 0 <= i < |s.members| :: OperationIn(s.operations, s.members[i].org, s.members[i].operationId))
    && (forall i | 0 <= i < |s.members| :: !s.members[i].status.Unknown? && s.members[i].studentId != 0)
  }

  ghost predicate EventsLinked(s: State) {
    forall k | 0 <= k < |s.events| :: MemberIn(s.members, s.events[k]) && Begun(s.operations, s.events[k].operationId)
  }

  ghost predicate LogExplains(s: State) {
    forall i | 0 <= i < |s.members| :: Explained(s.members[i], s.events)
  }

  ghost predicate History(s: State) {
    s.nextId >= 1 && OperationsRise(s) && MembersRise(s) && MembersLinked(s) && EventsLinked(s) && LogExplains(s)
  }

  // ------------------------------------------------- the parts calls are made of

  /** Members that differ only in what no part of the invariant looks at. */
  ghost predicate Inert(a: Member, b: Member) {
    SameKey(a, b) && a.status == b.status && a.photo == b.photo && a.checkedAt == b.checkedAt
  }

  /** Operations keep their identity, and once begun stay begun. */
  ghost predicate Advances(a: Operation, b: Operation) {
    a.id == b.id && a.org == b.org && (a.status !in {Draft, Confirmed} ==> b.status !in {Draft, Confirmed})
  }

  lemma BegunKept(ops: seq<Operation>, ops': seq<Operation>, id: nat)
    requires |ops| <= |ops'| && forall k | 0 <= k < |ops| :: Advances(ops[k], ops'[k])
    requires Begun(ops, id)
    ensures Begun(ops', id)
  {
    var k :| 0 <= k < |ops| && ops[k].id == id && ops[k].status != Draft && ops[k].status != Confirmed;
    assert Advances(ops[k], ops'[k]);
  }

  lemma OperationKept(ops: seq<Operation>, ops': seq<Operation>, org: nat, id: nat)
    requires |ops| <= |ops'| && forall k | 0 <= k < |ops| :: Advances(ops[k], ops'[k])
    requires OperationIn(ops, org, id)
    ensures OperationIn(ops', org, id)
  {
    var k :| 0 <= k < |ops| && ops[k].org == org && ops[k].id == id;
    assert Advances(ops[k], ops'[k]);
  }

  /** Calls that add no event: operations advance, members are appended untouched. */
  lemma QuietStep(s: State, t: State)
    requires History(s) && t.events == s.events && t.nextId >= s.nextId
    requires |s.operations| <= |t.operations| && forall k | 0 <= k < |s.operations| :: Advances(s.operations[k], t.operations[k])
    requires OperationsRise(t) && MembersRise(t) && MembersUnique(t.members)
    requires |s.members| <= |t.members| && forall i | 0 <= i < |s.members| :: Inert(s.members[i], t.members[i])
    requires forall i | |s.members| <= i < |t.members| ::
               var m := t.members[i];
               m.id >= s.nextId && m.studentId != 0 && m.status == Planned && m.photo == "" && m.checkedAt == None
               && OperationIn(t.operations, m.org, m.operationId)
    ensures History(t)
  {
    forall i | 0 <= i < |t.members|
      ensures OperationIn(t.operations, t.members[i].org, t.members[i].operationId)
      ensures Explained(t.members[i], t.events)
    {
      if i < |s.members| {
        assert Inert(s.members[i], t.members[i]);
        OperationKept(s.operations, t.operations, s.members[i].org, s.members[i].operationId);
        assert Explained(s.members[i], s.events);
      } else {
        forall k | 0 <= k < |s.events| ensures s.events[k].memberId != t.members[i].id {
          assert MemberIn(s.members, s.events[k]);
        }
        SeenMeansEvent(s.events, t.members[i].id);
      }
    }
    forall k | 0 <= k < |t.events| ensures MemberIn(t.members, t.events[k]) && Begun(t.operations, t.events[k].operationId) {
      MemberKept(s.members, t.members, s.events[k]);
      BegunKept(s.operations, t.operations, s.events[k].operationId);
    }
  }

  lemma MemberKept(ms: seq<Member>, ms': seq<Member>, e: Event)
    requires |ms| <= |ms'| && forall i | 0 <= i < |ms| :: SameKey(ms[i], ms'[i])
    requires MemberIn(ms, e)
    ensures MemberIn(ms', e)
  {
    var i :| 0 <= i < |ms| && Owns(ms[i], e);
    assert SameKey(ms[i], ms'[i]) && Owns(ms'[i], e);
  }

  lemma UniqueByKeys(a: seq<Member>, b: seq<Member>)
    requires MembersUnique(a) && SameKeys(a, b)
    ensures MembersUnique(b)
  {
    assert forall i | 0 <= i < |a| :: SameKey(a[i], b[i]);
  }

  /** `t` is `s` with one more event `e`, for member `i`, which `e` explains. */
  ghost predicate OneEvent(s: State, t: State, i: nat, e: Event) {
    && i < |s.members| && t.events == s.events + [e] && t.nextId >= s.nextId && t.operations == s.operations
    && |t.members| == |s.members| && (forall j | 0 <= j < |s.members| && j != i :: t.members[j] == s.members[j])
    && SameKey(s.members[i], t.members[i]) && Owns(s.members[i], e) && !t.members[i].status.Unknown?
    && (var r := Replay(s.events, s.members[i].id);
        r.Some? && Apply(r.value, e) == Some(Replayed(t.members[i].status, t.members[i].photo, t.members[i].checkedAt, true)))
  }

  lemma EventExplains(s: State, t: State, i: nat, e: Event)
    requires History(s) && OneEvent(s, t, i, e)
    ensures LogExplains(t)
  {
    forall j | 0 <= j < |t.members| ensures Explained(t.members[j], t.events) {
      ReplayAppend(s.events, e, t.members[j].id);
      assert Explained(s.members[j], s.events);
    }
  }

  lemma EventLinks(s: State, t: State, i: nat, e: Event)
    requires History(s) && OneEvent(s, t, i, e) && Begun(s.operations, e.operationId)
    ensures EventsLinked(t)
  {
    forall k | 0 <= k < |t.events| ensures MemberIn(t.members, t.events[k]) && Begun(t.operations, t.events[k].operationId) {
      if k < |s.events| {
        assert t.events[k] == s.events[k];
        MemberKept(s.members, t.members, s.events[k]);
      } else {
        assert Owns(t.members[i], e);
      }
    }
  }

  lemma EventStep(s: State, t: State, i: nat, e: Event)
    requires History(s) && OneEvent(s, t, i, e) && Begun(s.operations, e.operationId)
    ensures History(t)
  {
    EventExplains(s, t, i, e);
    EventLinks(s, t, i, e);
    UniqueByKeys(s.members, t.members);
  }

  /** Calls that touch neither operations nor members nor events. */
  lemma Untouched(s: State, t: State)
    requires History(s) && t.operations == s.operations && t.members == s.members && t.events == s.events && t.nextId >= s.nextId
    ensures History(t)
  {
  }

  lemma QuietNotify(s: State, org: nat, student: nat, op: Option<nat>, event: Option<nat>, kind: string, message: Message, now: Time)
    requires History(s)
    ensures History(Notify(s, org, student, op, event, kind, message, now))
  {
    Untouched(s, Notify(s, org, student, op, event, kind, message, now));
  }

  lemma StartedHasBegun(ops: seq<Operation>, org: nat, id: nat, o: nat)
    requires FirstIndex(ops, OperationKey(org, id)) == Some(o) && ops[o].status !in {Draft, Confirmed}
    ensures Begun(ops, id)
  {
  }

  lemma ChangeKeepsHistory(s: State, i: nat, status: MemberStatus, photo: string, operator: string, note: string, now: Time)
    requires History(s) && i < |s.members| && Begun(s.operations, s.members[i].operationId)
    requires s.members[i].status != status && IsValidMemberTransition(s.members[i].status, status) && !status.Unknown?
    ensures History(Change(s, i, status, photo, operator, note, now))
  {
    var t := Change(s, i, status, photo, operator, note, now);
    var mid := s.(nextId := s.nextId + 1, members := t.members, events := t.events);
    assert Explained(s.members[i], s.events);
    EventStep(s, mid, i, t.events[|s.events|]);
    Untouched(mid, t);
  }

  lemma AttachKeepsHistory(s: State, i: nat, photo: string, operator: string, now: Time)
    requires History(s) && i < |s.members| && Begun(s.operations, s.members[i].operationId)
    ensures History(AttachPhoto(s, i, photo, operator, now))
  {
    var t := AttachPhoto(s, i, photo, operator, now);
    assert Explained(s.members[i], s.events);
    EventStep(s, t, i, t.events[|s.events|]);
  }

  lemma MarkKeepsHistory(s: State, org: nat, operationId: nat, studentId: nat, status: MemberStatus, photo: string,
                         operator: string, note: string, now: Time)
    requires History(s)
    ensures History(MarkStudent(s, org, operationId, studentId, status, photo, operator, note, now).state)
  {
    var o, f := FirstIndex(s.operations, OperationKey(org, operationId)), FirstIndex(s.members, MemberKey(org, operationId, studentId));
    if o.Some? && s.operations[o.value].status == Started && IsValidMemberStatus(status) && f.Some? {
      var i := f.value;
      StartedHasBegun(s.operations, org, operationId, o.value);
      if s.members[i].status == status {
        AttachKeepsHistory(s, i, Trim(photo), operator, now);
      } else if IsValidMemberTransition(s.members[i].status, status) {
        ChangeKeepsHistory(s, i, status, photo, operator, note, now);
      }
    }
  }

  lemma CorrectMemberKeepsHistory(s: State, i: nat, k: nat, eventId: nat, target: MemberStatus, operator: string, reason: string, now: Time)
    requires History(s) && i < |s.members| && k < |s.events| && Owns(s.members[i], s.events[k]) && !target.Unknown?
    ensures History(Correct(s, i, eventId, target, operator, reason, now))
  {
    var t := Correct(s, i, eventId, target, operator, reason, now);
    var mid := s.(nextId := s.nextId + 1, members := t.members, events := t.events);
    assert Explained(s.members[i], s.events);
    SeenMeansEvent(s.events, s.members[i].id);
    EventStep(s, mid, i, t.events[|s.events|]);
    Untouched(mid, t);
  }

  /** The member a correction finds is the one its original event belongs to. */
  lemma CorrectedIsOwner(s: State, org: nat, operationId: nat, k: nat, i: nat)
    requires History(s) && k < |s.events| && s.events[k].org == org && s.events[k].operationId == operationId
    requires FirstIndex(s.members, MemberKey(org, operationId, s.events[k].studentId)) == Some(i)
    ensures Owns(s.members[i], s.events[k])
  {
    assert MemberIn(s.members, s.events[k]);
    var j :| 0 <= j < |s.members| && Owns(s.members[j], s.events[k]);
    assert i == j;
  }

  lemma CorrectKeepsHistory(s: State, org: nat, operationId: nat, eventId: nat, target: MemberStatus, operator: string, reason: string, now: Time)
    requires History(s)
    ensures History(CorrectEvent(s, org, operationId, eventId, target, operator, reason, now).state)
  {
    var k := FirstIndex(s.events, EventKey(org, operationId, eventId));
    if k.Some? && IsValidMemberStatus(target) {
      var i := FirstIndex(s.members, MemberKey(org, operationId, s.events[k.value].studentId));
      if i.Some? {
        CorrectedIsOwner(s, org, operationId, k.value, i.value);
        CorrectMemberKeepsHistory(s, i.value, k.value, eventId, target, operator, reason, now);
      }
    }
  }

  lemma {:induction false} MarksKeepHistory(s: State, org: nat, operationId: nat, ids: seq<nat>, operator: string, note: string, now: Time)
    requires History(s)
    ensures History(MarkEach(s, org, operationId, ids, operator, note, now).state)
  {
    if ids != [] {
      var init := ids[..|ids| - 1];
      MarksKeepHistory(s, org, operationId, init, operator, note, now);
      var mid := MarkEach(s, org, operationId, init, operator, note, now).state;
      MarkKeepsHistory(mid, org, operationId, ids[|ids| - 1], Arrived, "", operator, note, now);
    }
  }

  lemma {:induction false} NotifyAllKeepsHistory(s: State, org: nat, params: seq<NoticeParams>, now: Time)
    requires History(s)
    ensures History(NotifyAll(s, org, params, now))
  {
    if params != [] {
      NotifyAllKeepsHistory(s, org, params[..|params| - 1], now);
      var p, mid := params[|params| - 1], NotifyAll(s, org, params[..|params| - 1], now);
      QuietNotify(mid, org, p.studentId, p.operationId, p.eventId, Trim(p.kind), Custom(Trim(p.title), Trim(p.content)), now);
    }
  }

  lemma CreateKeepsHistory(s: State, org: nat, date: Day, details: Details, classId: nat, roster: seq<StudentRef>, now: Time)
    requires History(s)
    ensures History(CreateOperation(s, org, date, details, classId, roster, now).state)
  {
    var t := CreateOperation(s, org, date, details, classId, roster, now).state;
    if t != s {
      EnrolledAreDistinct(s.nextId + 1, org, s.nextId, roster, now);
      NewOperationKeepsHistory(s, t, t.operations[|s.operations|], Enrol(s.nextId + 1, org, s.nextId, DistinctBy(roster, RefId()), now));
    }
  }

  /** One operation more, with untouched members of its own. */
  lemma NewOperationKeepsHistory(s: State, t: State, o: Operation, added: seq<Member>)
    requires History(s) && t.events == s.events && t.operations == s.operations + [o] && o.id == s.nextId
    requires t.members == s.members + added && t.nextId == s.nextId + 1 + |added|
    requires forall i | 0 <= i < |added| ::
               var m := added[i];
               m.id == s.nextId + 1 + i && m.org == o.org && m.operationId == o.id && m.studentId != 0 && m.status == Planned
               && m.photo == "" && m.checkedAt == None
    requires forall i, j | 0 <= i < j < |added| :: added[i].studentId != added[j].studentId
    ensures History(t)
  {
    assert t.operations[|s.operations|] == o && OperationIn(t.operations, o.org, o.id);
    EnrolledAreNew(s, t, o.id);
    QuietStep(s, t);
  }

  lemma EnrolledAreDistinct(base: nat, org: nat, operationId: nat, roster: seq<StudentRef>, now: Time)
    ensures var added := Enrol(base, org, operationId, DistinctBy(roster, RefId()), now);
            && (forall i, j | 0 <= i < j < |added| :: added[i].studentId != added[j].studentId)
            && (forall i | 0 <= i < |added| :: added[i].studentId != 0)
  {
    var distinct := DistinctBy(roster, RefId());
    var added := Enrol(base, org, operationId, distinct, now);
    forall i, j | 0 <= i < j < |added| ensures added[i].studentId != added[j].studentId {
      assert RefId()(distinct[i]) != RefId()(distinct[j]);
    }
    forall i | 0 <= i < |added| ensures added[i].studentId != 0 { assert RefId()(distinct[i]) != 0; }
  }

  /** Members of a new operation do not clash with those there were. */
  lemma EnrolledAreNew(s: State, t: State, operationId: nat)
    requires OperationsRise(s) && MembersLinked(s) && operationId == s.nextId && |s.members| <= |t.members|
    requires forall i | 0 <= i < |s.members| :: t.members[i] == s.members[i]
    requires forall i | |s.members| <= i < |t.members| :: t.members[i].operationId == operationId
    requires forall i, j | |s.members| <= i < j < |t.members| :: t.members[i].studentId != t.members[j].studentId
    ensures MembersUnique(t.members)
  {
    forall i | 0 <= i < |s.members| ensures s.members[i].operationId != operationId {
      assert OperationIn(s.operations, s.members[i].org, s.members[i].operationId);
    }
  }

  lemma NewPairIsFree(s: State, org: nat, operationId: nat, studentId: nat)
    requires History(s) && FirstIndex(s.operations, OperationKey(org, operationId)).Some?
    requires FirstIndex(s.members, MemberKey(org, operationId, studentId)).None?
    ensures forall i | 0 <= i < |s.members| && s.members[i].operationId == operationId :: s.members[i].studentId != studentId
  {
    forall i | 0 <= i < |s.members| && s.members[i].operationId == operationId ensures s.members[i].studentId != studentId {
      assert OperationIn(s.operations, s.members[i].org, operationId);
      assert !MemberKey(org, operationId, studentId)(s.members[i]);
    }
  }

  lemma NewMemberKeepsHistory(s: State, item: Member)
    requires History(s) && item.id == s.nextId && item.studentId != 0
    requires item.status == Planned && item.photo == "" && item.checkedAt == None
    requires OperationIn(s.operations, item.org, item.operationId)
    requires forall i | 0 <= i < |s.members| && s.members[i].operationId == item.operationId :: s.members[i].studentId != item.studentId
    ensures History(s.(nextId := s.nextId + 1, members := s.members + [item]))
  {
    QuietStep(s, s.(nextId := s.nextId + 1, members := s.members + [item]));
  }

  lemma AddKeepsHistory(s: State, org: nat, operationId: nat, studentId: nat, name: string, temporary: bool, pending: bool,
                        mode: string, note: string, now: Time)
    requires History(s)
    ensures History(AddOperationStudent(s, org, operationId, studentId, name, temporary, pending, mode, note, now).state)
  {
    var r := AddOperationStudent(s, org, operationId, studentId, name, temporary, pending, mode, note, now);
    if r.result.Ok? {
      NewPairIsFree(s, org, operationId, studentId);
      NewMemberKeepsHistory(s, r.result.value);
    }
  }

  lemma BulkKeepsHistory(s: State, org: nat, operationId: nat, ids: seq<nat>, operator: string, note: string, now: Time)
    requires History(s)
    ensures History(BulkArrive(s, org, operationId, ids, operator, note, now).state)
  {
    BulkArriveRefinesMarks(s, org, operationId, ids, operator, note, now);
    MarksKeepHistory(s, org, operationId, DistinctBy(ids, Same()), operator, note, now);
  }

  lemma ProfileKeepsHistory(s: State, org: nat, operationId: nat, studentId: nat, now: Time)
    requires History(s)
    ensures History(CompleteProfile(s, org, operationId, studentId, now).state)
  {
    var t := CompleteProfile(s, org, operationId, studentId, now).state;
    if t != s {
      UniqueByKeys(s.members, t.members);
      QuietStep(s, t);
    }
  }

  lemma EditKeepsHistory(s: State, t: State, o: nat, item: Operation)
    requires History(s) && o < |s.operations| && Advances(s.operations[o], item)
    requires t.operations == s.operations[o := item] && t.members == s.members && t.events == s.events && t.nextId >= s.nextId
    ensures History(t)
  {
    QuietStep(s, t);
  }

  /** Calls on the notices, the outbox, the delivery logs and the change requests. */
  predicate Aside(c: Command) {
    c.CmdMarkRead? || c.CmdSubmitChange? || c.CmdReview? || c.CmdRetry? || c.CmdClaim? || c.CmdComplete? || c.CmdOpenLog?
    || c.CmdSetLog? || c.CmdSetNotice?
  }

  lemma AsideFrame(s: State, org: nat, c: Command, now: Time)
    requires Aside(c)
    ensures var t := Step(s, org, c, now);
            t.operations == s.operations && t.members == s.members && t.events == s.events && t.nextId >= s.nextId
            && t.handoffs == s.handoffs
  {
  }

  lemma AsideKeepsHistory(s: State, org: nat, c: Command, now: Time)
    requires History(s) && Aside(c)
    ensures History(Step(s, org, c, now))
  {
    AsideFrame(s, org, c, now);
    Untouched(s, Step(s, org, c, now));
  }

  lemma OperationStepKeepsHistory(s: State, org: nat, c: Command, now: Time)
    requires History(s) && (c.CmdSetStatus? || c.CmdConfirm? || c.CmdHandoff?)
    ensures History(Step(s, org, c, now))
  {
    var t := Step(s, org, c, now);
    var o := FirstIndex(s.operations, OperationKey(org, c.id));
    if o.Some? {
      assert t.operations == s.operations[o.value := t.operations[o.value]];
      EditKeepsHistory(s, t, o.value, t.operations[o.value]);
    }
  }

  lemma StepKeepsHistory(s: State, org: nat, c: Command, now: Time)
    requires History(s)
    ensures History(Step(s, org, c, now))
  {
    if c.CmdMark? || c.CmdBulkArrive? || c.CmdCorrect? || c.CmdNotify? { LoggedStepKeepsHistory(s, org, c, now); }
    else { PlainStepKeepsHistory(s, org, c, now); }
  }

  /** Calls that may write events or notifications. */
  lemma LoggedStepKeepsHistory(s: State, org: nat, c: Command, now: Time)
    requires History(s) && (c.CmdMark? || c.CmdBulkArrive? || c.CmdCorrect? || c.CmdNotify?)
    ensures History(Step(s, org, c, now))
  {
    match c
    case CmdMark(op, student, status, photo, operator, note) => MarkKeepsHistory(s, org, op, student, status, photo, operator, note, now);
    case CmdBulkArrive(op, ids, operator, note) => BulkKeepsHistory(s, org, op, ids, operator, note, now);
    case CmdCorrect(op, event, target, operator, reason) => CorrectKeepsHistory(s, org, op, event, target, operator, reason, now);
    case CmdNotify(params) => NotifyAllKeepsHistory(s, org, params, now);
  }

  lemma PlainStepKeepsHistory(s: State, org: nat, c: Command, now: Time)
    requires History(s) && !c.CmdMark? && !c.CmdBulkArrive? && !c.CmdCorrect? && !c.CmdNotify?
    ensures History(Step(s, org, c, now))
  {
    match c
    case CmdCreate(date, details, classId, roster) => CreateKeepsHistory(s, org, date, details, classId, roster, now);
    case CmdAddStudent(op, student, name, temporary, pending, mode, note) =>
      AddKeepsHistory(s, org, op, student, name, temporary, pending, mode, note, now);
    case CmdCompleteProfile(op, student) => ProfileKeepsHistory(s, org, op, student, now);
    case CmdSetStatus(_, _) => OperationStepKeepsHistory(s, org, c, now);
    case CmdConfirm(_, _, _) => OperationStepKeepsHistory(s, org, c, now);
    case CmdHandoff(_, _, _, _, _, _) => OperationStepKeepsHistory(s, org, c, now);
    case _ => AsideKeepsHistory(s, org, c, now);
  }

  lemma {:induction false} RunKeepsHistory(s: State, calls: seq<Call>)
    requires History(s)
    ensures History(Run(s, calls))
  {
    if calls != [] {
      RunKeepsHistory(s, calls[..|calls| - 1]);
      var c := calls[|calls| - 1];
      StepKeepsHistory(Run(s, calls[..|calls| - 1]), c.org, c.command, c.now);
    }
  }

  // ---------------------------------------------------------- main results

  ghost predicate HasEvent(events: seq<Event>, memberId: nat) {
    exists k | 0 <= k < |events| :: events[k].memberId == memberId
  }

  /** After any run, replaying the log gives each member's status, photo and check time. */
  lemma {:induction false} ReplayExplainsMembers(calls: seq<Call>, i: nat)
    requires i < |Run(INIT, calls).members|
    ensures var s := Run(INIT, calls); var m := s.members[i];
            Replay(s.events, m.id) == Some(Replayed(m.status, m.photo, m.checkedAt, HasEvent(s.events, m.id)))
  {
    RunKeepsHistory(INIT, calls);
    var s := Run(INIT, calls);
    assert Explained(s.members[i], s.events);
    SeenMeansEvent(s.events, s.members[i].id);
  }

  /** A log that replays is legal step by step. */
  lemma {:induction false} ReplayedLogIsLegal(events: seq<Event>, k: nat)
    requires k < |events| && Replay(events, events[k].memberId).Some?
    ensures var r := Replay(events[..k], events[k].memberId);
            && r.Some?
            && match events[k].kind
               case Marked(status) => IsValidMemberTransition(r.value.status, status)
               case Correction(_) => HasEvent(events[..k], events[k].memberId)
    decreases |events|
  {
    var init := events[..|events| - 1];
    if k < |init| {
      assert init[..k] == events[..k];
      ReplayedLogIsLegal(init, k);
    } else {
      assert init == events[..k];
      SeenMeansEvent(init, events[k].memberId);
    }
  }

  /** The status automaton as a table: a child is fetched or does not come along,
      arrives or fails to, leaves; and trouble is settled by an arrival. */
  const EDGES: set<(MemberStatus, MemberStatus)> := {
    (Planned, PickedUp), (Planned, SelfArrived), (Planned, ParentPickedUp), (Planned, Leave), (Planned, Absent),
    (PickedUp, Arrived), (PickedUp, NotArrived), (PickedUp, Abnormal),
    (SelfArrived, Arrived), (SelfArrived, Left), (SelfArrived, MidwayLeft), (SelfArrived, Abnormal),
    (NotArrived, Arrived), (NotArrived, Abnormal), (Abnormal, Arrived),
    (Arrived, Left), (Arrived, MidwayLeft), (Arrived, Abnormal)}

  lemma TransitionsAreEdges(from: MemberStatus, to: MemberStatus)
    ensures IsValidMemberTransition(from, to) <==> from == to || (from, to) in EDGES
  {
  }

  /** In every run each event is a legal step for its member: before it the log
      replays, a mark follows an edge of the status automaton from where the log
      stood, and a correction comes after another event of that member. */
  lemma {:induction false} EveryEventIsLegal(calls: seq<Call>, k: nat)
    requires k < |Run(INIT, calls).events|
    ensures var events := Run(INIT, calls).events; var before := Replay(events[..k], events[k].memberId);
            && before.Some?
            && match events[k].kind
               case Marked(status) => status == before.value.status || (before.value.status, status) in EDGES
               case Correction(_) => HasEvent(events[..k], events[k].memberId)
  {
    RunKeepsHistory(INIT, calls);
    var s := Run(INIT, calls);
    assert MemberIn(s.members, s.events[k]);
    var i :| 0 <= i < |s.members| && Owns(s.members[i], s.events[k]);
    assert Explained(s.members[i], s.events);
    ReplayedLogIsLegal(s.events, k);
    if s.events[k].kind.Marked? { TransitionsAreEdges(Replay(s.events[..k], s.events[k].memberId).value.status, s.events[k].kind.status); }
  }

  /** The last event of a member carries the photo the member shows. */
  lemma {:induction false} LastEventCarriesPhoto(calls: seq<Call>, i: nat, k: nat)
    requires var s := Run(INIT, calls);
             i < |s.members| && k < |s.events| && s.events[k].memberId == s.members[i].id
             && forall j | k < j < |s.events| :: s.events[j].memberId != s.members[i].id
    ensures Run(INIT, calls).events[k].photo == Run(INIT, calls).members[i].photo
  {
    ReplayExplainsMembers(calls, i);
    LastPhoto(Run(INIT, calls).events, k);
  }

  lemma {:induction false} LastPhoto(events: seq<Event>, k: nat)
    requires k < |events| && forall j | k < j < |events| :: events[j].memberId != events[k].memberId
    requires Replay(events, events[k].memberId).Some?
    ensures Replay(events, events[k].memberId).value.photo == events[k].photo
    decreases |events|
  {
    if k < |events| - 1 {
      LastPhoto(events[..|events| - 1], k);
    }
  }

  /** Until an operation starts its members are planned and have no events. */
  lemma {:induction false} UntouchedBeforeStart(calls: seq<Call>, o: nat, i: nat)
    requires var s := Run(INIT, calls);
             o < |s.operations| && s.operations[o].status in {Draft, Confirmed}
             && i < |s.members| && s.members[i].operationId == s.operations[o].id
    ensures var s := Run(INIT, calls);
            s.members[i].status == Planned && !HasEvent(s.events, s.members[i].id)
  {
    RunKeepsHistory(INIT, calls);
    PlannedBeforeStart(Run(INIT, calls), o, i);
  }

  lemma PlannedBeforeStart(s: State, o: nat, i: nat)
    requires History(s) && o < |s.operations| && s.operations[o].status in {Draft, Confirmed}
    requires i < |s.members| && s.members[i].operationId == s.operations[o].id
    ensures s.members[i].status == Planned && !HasEvent(s.events, s.members[i].id)
  {
    var m := s.members[i];
    forall k | 0 <= k < |s.events| ensures s.events[k].memberId != m.id {
      assert MemberIn(s.members, s.events[k]) && Begun(s.operations, s.events[k].operationId);
    }
    SeenMeansEvent(s.events, m.id);
    assert Explained(m, s.events);
  }

  /** In every run an operation lists a student once, so the batch arrival and the marks find the same member. */
  lemma {:induction false} OneMemberPerStudent(calls: seq<Call>)
    ensures MembersUnique(Run(INIT, calls).members)
  {
    RunKeepsHistory(INIT, calls);
  }
}

/** When the pickup store accepts a call, told from the records it holds: in every
    run, by conditions a caller can check beforehand, and what acceptance does. */
module PickupAnswers {
  import opened Common
  import opened PickupModel
  import opened PickupSpec
  import opened PickupBatch
  import opened PickupRuns
  import opened PickupHistory
  import opened PickupLedger
  import opened PickupConservation

  // ---------------------------------------------------- making an operation

  /** Some operation of the class that day has not been called off. */
  ghost predicate HasLive(ops: seq<Operation>, org: nat, date: Day, classId: nat) {
    exists o | 0 <= o < |ops| :: ops[o].org == org && ops[o].date == date && ops[o].schoolClassId == classId && ops[o].status != Cancelled
  }

  ghost predicate NamesSomebody(roster: seq<StudentRef>) { exists k | 0 <= k < |roster| :: roster[k].id != 0 }

  /** The first entry of the roster with that nonzero id is the member's. */
  ghost predicate EnrolledFrom(roster: seq<StudentRef>, m: Member) {
    exists k | 0 <= k < |roster| ::
      roster[k].id == m.studentId != 0 && roster[k].name == m.studentName && forall j | 0 <= j < k :: roster[j].id != m.studentId
  }

  ghost predicate OnList(ms: seq<Member>, id: nat, studentId: nat) {
    exists i | 0 <= i < |ms| :: ms[i].operationId == id && ms[i].studentId == studentId
  }

  /** The members of operation `id` are the roster's children, each once, planned, under its own name. */
  ghost predicate RosterEnrolled(ms: seq<Member>, org: nat, id: nat, roster: seq<StudentRef>) {
    && (forall i | 0 <= i < |ms| && ms[i].operationId == id ::
          ms[i].org == org && ms[i].status == Planned && ms[i].photo == "" && !ms[i].isTemporary && EnrolledFrom(roster, ms[i]))
    && (forall k | 0 <= k < |roster| && roster[k].id != 0 :: OnList(ms, id, roster[k].id))
    && (forall i, j | 0 <= i < j < |ms| && ms[i].operationId == id && ms[j].operationId == id :: ms[i].studentId != ms[j].studentId)
  }

  lemma EnrolledFirst(roster: seq<StudentRef>, x: StudentRef)
    requires x in DistinctBy(roster, RefId())
    ensures x.id != 0 && exists k | 0 <= k < |roster| :: roster[k] == x && forall j | 0 <= j < k :: roster[j].id != x.id
  {
    KeptIsFirst(roster, RefId(), x);
    var k :| 0 <= k < |roster| && roster[k] == x && forall j | 0 <= j < k :: RefId()(roster[j]) != RefId()(x);
    forall j | 0 <= j < k ensures roster[j].id != x.id { assert RefId()(roster[j]) != RefId()(x); }
    var i :| 0 <= i < |DistinctBy(roster, RefId())| && DistinctBy(roster, RefId())[i] == x;
    assert RefId()(DistinctBy(roster, RefId())[i]) != 0;
  }

  lemma EveryoneKept(roster: seq<StudentRef>, k: nat)
    requires k < |roster| && roster[k].id != 0
    ensures exists i | 0 <= i < |DistinctBy(roster, RefId())| :: DistinctBy(roster, RefId())[i].id == roster[k].id
  {
    var d := DistinctBy(roster, RefId());
    assert RefId()(roster[k]) in Keys(roster, RefId());
    assert roster[k].id in Keys(d, RefId());
    var i :| 0 <= i < |d| && RefId()(d[i]) == roster[k].id;
    assert d[i].id == roster[k].id;
  }

  /** The members a new operation gets. */
  lemma EnrolIsRoster(base: nat, org: nat, id: nat, roster: seq<StudentRef>, now: Time)
    ensures RosterEnrolled(Enrol(base, org, id, DistinctBy(roster, RefId()), now), org, id, roster)
  {
    var d := DistinctBy(roster, RefId());
    var added := Enrol(base, org, id, d, now);
    EnrolledAreDistinct(base, org, id, roster, now);
    forall i | 0 <= i < |added| ensures EnrolledFrom(roster, added[i]) {
      EnrolledFirst(roster, d[i]);
      var k :| 0 <= k < |roster| && roster[k] == d[i] && forall j | 0 <= j < k :: roster[j].id != d[i].id;
      assert roster[k].id == added[i].studentId;
    }
    forall k | 0 <= k < |roster| && roster[k].id != 0 ensures OnList(added, id, roster[k].id) {
      EveryoneKept(roster, k);
      var i :| 0 <= i < |d| && d[i].id == roster[k].id;
      assert added[i].studentId == roster[k].id;
    }
  }

  lemma AppendedRoster(before: seq<Member>, added: seq<Member>, org: nat, id: nat, roster: seq<StudentRef>)
    requires RosterEnrolled(added, org, id, roster) && forall i | 0 <= i < |before| :: before[i].operationId != id
    ensures RosterEnrolled(before + added, org, id, roster)
  {
    var all := before + added;
    forall k | 0 <= k < |roster| && roster[k].id != 0 ensures OnList(all, id, roster[k].id) {
      assert OnList(added, id, roster[k].id);
      var i :| 0 <= i < |added| && added[i].operationId == id && added[i].studentId == roster[k].id;
      assert all[|before| + i] == added[i];
    }
    forall i | 0 <= i < |all| && all[i].operationId == id ensures i >= |before| && all[i] == added[i - |before|] {}
  }

  /** An operation is made for a class that has none going on that day and for
      a roster that names somebody; its members are the roster's children. */
  ghost predicate MadeAsAsked(s: State, t: State, org: nat, date: Day, details: Details, classId: nat, roster: seq<StudentRef>) {
    && |t.operations| == |s.operations| + 1 && t.operations[..|s.operations|] == s.operations
    && (var o := t.operations[|s.operations|];
        && o.id == s.nextId && o.org == org && o.date == date && o.schoolClassId == classId && o.status == Draft
        && SamePlan(o.details, details) && RosterEnrolled(t.members, org, o.id, roster))
    && |s.members| <= |t.members| && t.members[..|s.members|] == s.members
    && (forall i | |s.members| <= i < |t.members| :: t.members[i].operationId == s.nextId)
  }

  /** The same plan, texts trimmed. */
  predicate SamePlan(a: Details, b: Details) {
    && a.pickupMode == b.pickupMode && a.schoolId == b.schoolId && a.careClassId == b.careClassId && a.teacher.id == b.teacher.id
    && a.teacher.name == Trim(b.teacher.name) && a.expectedTime == Trim(b.expectedTime) && a.notes == Trim(b.notes)
  }

  lemma CreatedAsAsked(s: State, org: nat, date: Day, details: Details, classId: nat, roster: seq<StudentRef>, now: Time)
    requires History(s)
    ensures var r := CreateOperation(s, org, date, details, classId, roster, now);
            && (r.result.Ok? <==> !HasLive(s.operations, org, date, classId) && NamesSomebody(roster))
            && (r.result.Ok? ==> MadeAsAsked(s, r.state, org, date, details, classId, roster))
  {
    CreatedWhen(s, org, date, details, classId, roster, now);
    CreatedRoster(s, org, roster, now);
    if CreateOperation(s, org, date, details, classId, roster, now).result.Ok? { CreatedHas(s, org, date, details, classId, roster, now); }
  }

  lemma CreatedWhen(s: State, org: nat, date: Day, details: Details, classId: nat, roster: seq<StudentRef>, now: Time)
    ensures CreateOperation(s, org, date, details, classId, roster, now).result.Ok?
            <==> !HasLive(s.operations, org, date, classId) && NamesSomebody(roster)
  {
    LiveIsFound(s.operations, org, date, classId);
    SomebodyIsKept(roster);
  }

  lemma CreatedHas(s: State, org: nat, date: Day, details: Details, classId: nat, roster: seq<StudentRef>, now: Time)
    requires CreateOperation(s, org, date, details, classId, roster, now).result.Ok?
    requires RosterEnrolled(s.members + Enrol(s.nextId + 1, org, s.nextId, DistinctBy(roster, RefId()), now), org, s.nextId, roster)
    ensures MadeAsAsked(s, CreateOperation(s, org, date, details, classId, roster, now).state, org, date, details, classId, roster)
  {
  }

  lemma LiveIsFound(ops: seq<Operation>, org: nat, date: Day, classId: nat)
    ensures FirstIndex(ops, LiveKey(org, date, classId)).Some? <==> HasLive(ops, org, date, classId)
  {
    if o :| 0 <= o < |ops| && ops[o].org == org && ops[o].date == date && ops[o].schoolClassId == classId && ops[o].status != Cancelled {
      assert LiveKey(org, date, classId)(ops[o]);
    }
  }

  lemma SomebodyIsKept(roster: seq<StudentRef>)
    ensures DistinctBy(roster, RefId()) != [] <==> NamesSomebody(roster)
  {
    var d := DistinctBy(roster, RefId());
    if k :| 0 <= k < |roster| && roster[k].id != 0 { EveryoneKept(roster, k); }
    if d != [] { EnrolledFirst(roster, d[0]); }
  }

  lemma CreatedRoster(s: State, org: nat, roster: seq<StudentRef>, now: Time)
    requires History(s)
    ensures RosterEnrolled(s.members + Enrol(s.nextId + 1, org, s.nextId, DistinctBy(roster, RefId()), now), org, s.nextId, roster)
  {
    forall i | 0 <= i < |s.members| ensures s.members[i].operationId != s.nextId {
      assert OperationIn(s.operations, s.members[i].org, s.members[i].operationId);
    }
    EnrolIsRoster(s.nextId + 1, org, s.nextId, roster, now);
    AppendedRoster(s.members, Enrol(s.nextId + 1, org, s.nextId, DistinctBy(roster, RefId()), now), org, s.nextId, roster);
  }

  /** In every run. */
  lemma {:induction false} OperationIsMadeWhen(calls: seq<Call>, org: nat, date: Day, details: Details, classId: nat, roster: seq<StudentRef>, now: Time)
    ensures var s := Run(INIT, calls); var r := CreateOperation(s, org, date, details, classId, roster, now);
            && (r.result.Ok? <==> !HasLive(s.operations, org, date, classId) && NamesSomebody(roster))
            && (r.result.Ok? ==> MadeAsAsked(s, r.state, org, date, details, classId, roster))
  {
    RunKeepsHistory(INIT, calls);
    CreatedAsAsked(Run(INIT, calls), org, date, details, classId, roster, now);
  }

  // --------------------------------------------- calls about one operation

  /** The operation is there, in one of these states. */
  ghost predicate StandsAt(s: State, org: nat, id: nat, at: set<OperationStatus>) {
    exists o | 0 <= o < |s.operations| :: s.operations[o].org == org && s.operations[o].id == id && s.operations[o].status in at
  }

  /** Ids are unique, so the first operation found is the one there is. */
  lemma FoundIsIt(s: State, org: nat, id: nat, at: set<OperationStatus>)
    requires OperationsRise(s)
    ensures var f := FirstIndex(s.operations, OperationKey(org, id)); StandsAt(s, org, id, at) <==> f.Some? && s.operations[f.value].status in at
  {
    if o :| 0 <= o < |s.operations| && s.operations[o].org == org && s.operations[o].id == id && s.operations[o].status in at {
      FirstIsOnly(s.operations, OperationKey(org, id), o);
    }
  }

  /** In every run: an operation is started from draft or confirmed, confirmed
      from draft, handed over while it goes on and to somebody named, and no
      status but started and finished can be asked for. */
  lemma {:induction false} OperationMovesWhen(calls: seq<Call>, org: nat, id: nat, status: OperationStatus, teacher: Teacher, c: Confirmation,
                                              toId: nat, toName: string, role: string, note: string, author: Teacher, now: Time)
    ensures var s := Run(INIT, calls);
            && (SetOperationStatus(s, org, id, Started, now).result.Ok? <==> StandsAt(s, org, id, {Draft, Confirmed}))
            && (SetOperationStatus(s, org, id, status, now).result.Ok? ==> status in {Started, Finished})
            && (ConfirmOperation(s, org, id, teacher, c, now).result.Ok? <==> StandsAt(s, org, id, {Draft}))
            && (HandoffOperation(s, org, id, toId, toName, role, note, author, now).result.Ok?
                <==> StandsAt(s, org, id, {Started}) && toId != 0 && Trim(toName) != "")
  {
    var s := Run(INIT, calls);
    RunKeepsHistory(INIT, calls);
    FoundIsIt(s, org, id, {Draft, Confirmed});
    FoundIsIt(s, org, id, {Draft});
    FoundIsIt(s, org, id, {Started});
  }

  /** Operation `i`, confirmed: its teacher, who confirmed it, the expected time, and the notes unless none are given. */
  ghost predicate ConfirmedAs(s: State, t: State, i: nat, teacher: Teacher, c: Confirmation) {
    && i < |s.operations| && i < |t.operations|
    && var a, b := s.operations[i], t.operations[i];
    && b.id == a.id && b.org == a.org && b.date == a.date && b.schoolClassId == a.schoolClassId && b.status == Confirmed
    && b.executing.id == teacher.id && b.executing.name == Trim(teacher.name)
    && b.confirmedBy.id == c.author.id && b.confirmedBy.name == Trim(c.author.name)
    && (b.teacherRole == Trim(c.role) || (b.teacherRole == "lead" && Trim(c.role) !in {"lead", "collaborator", "substitute"}))
    && b.details.expectedTime == Trim(c.expectedTime) && b.details.notes == (if Trim(c.notes) == "" then a.details.notes else Trim(c.notes))
    && b.details.pickupMode == a.details.pickupMode && b.details.teacher == a.details.teacher && b.details.careClassId == a.details.careClassId
  }

  /** In every run a confirmation changes the operation it names, as it says, and no other. */
  lemma {:induction false} ConfirmationSays(calls: seq<Call>, org: nat, id: nat, teacher: Teacher, c: Confirmation, now: Time, i: nat)
    requires var s := Run(INIT, calls); i < |s.operations| && ConfirmOperation(s, org, id, teacher, c, now).result.Ok?
    ensures var s := Run(INIT, calls); var t := ConfirmOperation(s, org, id, teacher, c, now).state;
            && |t.operations| == |s.operations|
            && if s.operations[i].id == id then ConfirmedAs(s, t, i, teacher, c) else t.operations[i] == s.operations[i]
  {
    RunKeepsHistory(INIT, calls);
  }

  /** In every run a child joins an operation that is not over and does not list it yet. */
  lemma {:induction false} StudentIsAddedWhen(calls: seq<Call>, org: nat, id: nat, studentId: nat, name: string, temporary: bool, pending: bool,
                                              mode: string, note: string, now: Time)
    ensures var s := Run(INIT, calls); var r := AddOperationStudent(s, org, id, studentId, name, temporary, pending, mode, note, now);
            && (r.result.Ok? <==> StandsAt(s, org, id, {Draft, Confirmed, Started}) && studentId != 0 && Trim(name) != ""
                                  && !OnList(s.members, id, studentId))
            && (r.result.Ok? ==> |r.state.members| == |s.members| + 1 && r.state.members[..|s.members|] == s.members
                                 && var m := r.state.members[|s.members|];
                                    m.org == org && m.operationId == id && m.studentId == studentId && m.studentName == Trim(name) && m.status == Planned)
  {
    RunKeepsHistory(INIT, calls);
    AddedWhen(Run(INIT, calls), org, id, studentId, name, temporary, pending, mode, note, now);
  }

  lemma AddedWhen(s: State, org: nat, id: nat, studentId: nat, name: string, temporary: bool, pending: bool, mode: string, note: string, now: Time)
    requires History(s)
    ensures var r := AddOperationStudent(s, org, id, studentId, name, temporary, pending, mode, note, now);
            && (r.result.Ok? <==> StandsAt(s, org, id, {Draft, Confirmed, Started}) && studentId != 0 && Trim(name) != ""
                                  && !OnList(s.members, id, studentId))
            && (r.result.Ok? ==> |r.state.members| == |s.members| + 1 && r.state.members[..|s.members|] == s.members
                                 && var m := r.state.members[|s.members|];
                                    m.org == org && m.operationId == id && m.studentId == studentId && m.studentName == Trim(name) && m.status == Planned)
  {
    var o := FirstIndex(s.operations, OperationKey(org, id));
    FoundIsIt(s, org, id, {Draft, Confirmed, Started});
    if o.Some? {
      MemberIsFound(s, org, id, studentId);
      NotOver(s.operations[o.value].status);
    }
  }

  lemma NotOver(status: OperationStatus)
    ensures status in {Draft, Confirmed, Started} <==> status !in {Finished, Cancelled}
  {
    match status
    case Draft =>
    case Confirmed =>
    case Started =>
    case Finished =>
    case Cancelled =>
  }

  lemma MemberIsFound(s: State, org: nat, id: nat, studentId: nat)
    requires History(s) && FirstIndex(s.operations, OperationKey(org, id)).Some?
    ensures FirstIndex(s.members, MemberKey(org, id, studentId)).Some? <==> OnList(s.members, id, studentId)
  {
    if FirstIndex(s.members, MemberKey(org, id, studentId)).None? { NewPairIsFree(s, org, id, studentId); }
  }

  // ------------------------------------------------------ calls about a child

  /** The child is on the list of the operation, in one of these states. */
  ghost predicate ChildAt(s: State, id: nat, studentId: nat, at: set<MemberStatus>) {
    exists i | 0 <= i < |s.members| :: s.members[i].operationId == id && s.members[i].studentId == studentId && s.members[i].status in at
  }

  lemma ChildIsFound(s: State, org: nat, id: nat, studentId: nat, at: set<MemberStatus>)
    requires History(s) && FirstIndex(s.operations, OperationKey(org, id)).Some?
    ensures var f := FirstIndex(s.members, MemberKey(org, id, studentId));
            ChildAt(s, id, studentId, at) <==> f.Some? && s.members[f.value].status in at
  {
    MemberIsFound(s, org, id, studentId);
    if i :| 0 <= i < |s.members| && s.members[i].operationId == id && s.members[i].studentId == studentId && s.members[i].status in at {
      var f := FirstIndex(s.members, MemberKey(org, id, studentId));
      assert OnList(s.members, id, studentId);
      assert f.value == i;
    }
  }

  /** From where a child can be marked with that status. */
  function Before(status: MemberStatus): set<MemberStatus> {
    match status
    case PickedUp => {Planned, PickedUp}
    case SelfArrived => {Planned, SelfArrived}
    case ParentPickedUp => {Planned, ParentPickedUp}
    case Leave => {Planned, Leave}
    case Absent => {Planned, Absent}
    case Arrived => {PickedUp, SelfArrived, NotArrived, Abnormal, Arrived}
    case NotArrived => {PickedUp, NotArrived}
    case Left => {SelfArrived, Arrived, Left}
    case MidwayLeft => {SelfArrived, Arrived, MidwayLeft}
    case Abnormal => {PickedUp, SelfArrived, NotArrived, Abnormal, Arrived}
    case _ => {}
  }

  lemma BeforeIsLegal(from: MemberStatus, to: MemberStatus)
    ensures from in Before(to) <==> IsValidMemberStatus(to) && IsValidMemberTransition(from, to)
  {
  }

  /** In every run a mark is accepted exactly when the operation is going on and
      the child is on its list, in a state from which the table above leads there;
      then the child has that status. */
  lemma {:induction false} MarkIsTakenWhen(calls: seq<Call>, org: nat, id: nat, studentId: nat, status: MemberStatus, photo: string,
                                           operator: string, note: string, now: Time)
    ensures var s := Run(INIT, calls); var r := MarkStudent(s, org, id, studentId, status, photo, operator, note, now);
            && (r.result.Ok? <==> StandsAt(s, org, id, {Started}) && ChildAt(s, id, studentId, Before(status)))
            && (r.result.Ok? ==> ChildAt(r.state, id, studentId, {status}))
            && (r.result.Err? ==> r.state == s)
  {
    var s := Run(INIT, calls);
    RunKeepsHistory(INIT, calls);
    FoundIsIt(s, org, id, {Started});
    if FirstIndex(s.operations, OperationKey(org, id)).Some? { ChildIsFound(s, org, id, studentId, Before(status)); }
    MarkedIf(s, org, id, studentId, status, photo, operator, note, now);
  }

  lemma MarkedIf(s: State, org: nat, id: nat, studentId: nat, status: MemberStatus, photo: string, operator: string, note: string, now: Time)
    ensures var r := MarkStudent(s, org, id, studentId, status, photo, operator, note, now);
            var o, f := FirstIndex(s.operations, OperationKey(org, id)), FirstIndex(s.members, MemberKey(org, id, studentId));
            && (r.result.Ok? <==> o.Some? && s.operations[o.value].status in {Started} && f.Some? && s.members[f.value].status in Before(status))
            && (r.result.Ok? ==> ChildAt(r.state, id, studentId, {status}))
            && (r.result.Err? ==> r.state == s)
  {
    var f := FirstIndex(s.members, MemberKey(org, id, studentId));
    if f.Some? {
      BeforeIsLegal(s.members[f.value].status, status);
      MarkedHasStatus(s, org, id, studentId, status, photo, operator, note, now, f.value);
    }
  }

  lemma MarkedHasStatus(s: State, org: nat, id: nat, studentId: nat, status: MemberStatus, photo: string,
                        operator: string, note: string, now: Time, i: nat)
    requires FirstIndex(s.members, MemberKey(org, id, studentId)) == Some(i)
    ensures var r := MarkStudent(s, org, id, studentId, status, photo, operator, note, now); r.result.Ok? ==> ChildAt(r.state, id, studentId, {status})
  {
    var r := MarkStudent(s, org, id, studentId, status, photo, operator, note, now);
    if r.result.Ok? { assert r.state.members[i].status == status && r.state.members[i].studentId == studentId; }
  }

  /** In every run a batch arrives exactly when the operation is going on, somebody
      is named and all of them are on the list and on their way, in trouble or there. */
  lemma {:induction false} BatchIsTakenWhen(calls: seq<Call>, org: nat, id: nat, studentIds: seq<nat>, operator: string, note: string, now: Time)
    ensures var s := Run(INIT, calls); var r := BulkArrive(s, org, id, studentIds, operator, note, now);
            && (r.result.Ok? <==> && StandsAt(s, org, id, {Started}) && (exists x | x in studentIds :: x != 0)
                                  && forall x | x in studentIds && x != 0 :: ChildAt(s, id, x, {PickedUp, SelfArrived, NotArrived, Abnormal, Arrived}))
            && (r.result.Err? ==> r.state == s)
  {
    RunKeepsHistory(INIT, calls);
    BatchTaken(Run(INIT, calls), org, id, studentIds, operator, note, now);
  }

  lemma BatchTaken(s: State, org: nat, id: nat, studentIds: seq<nat>, operator: string, note: string, now: Time)
    requires History(s)
    ensures var r := BulkArrive(s, org, id, studentIds, operator, note, now);
            && (r.result.Ok? <==> && StandsAt(s, org, id, {Started}) && (exists x | x in studentIds :: x != 0)
                                  && forall x | x in studentIds && x != 0 :: ChildAt(s, id, x, {PickedUp, SelfArrived, NotArrived, Abnormal, Arrived}))
            && (r.result.Err? ==> r.state == s)
  {
    FoundIsIt(s, org, id, {Started});
    if FirstIndex(s.operations, OperationKey(org, id)).Some? { BatchIsChecked(s, org, id, studentIds); }
    BatchIf(s, org, id, studentIds, operator, note, now);
  }

  lemma BatchIf(s: State, org: nat, id: nat, studentIds: seq<nat>, operator: string, note: string, now: Time)
    ensures var r := BulkArrive(s, org, id, studentIds, operator, note, now);
            var o, ids := FirstIndex(s.operations, OperationKey(org, id)), DistinctBy(studentIds, Same());
            && (r.result.Ok? <==> o.Some? && s.operations[o.value].status == Started && ids != [] && FirstRefusal(s.members, org, id, ids).None?)
            && (r.result.Err? ==> r.state == s)
  {
  }

  lemma DistinctIds(ids: seq<nat>, x: nat)
    ensures x in DistinctBy(ids, Same()) <==> x in ids && x != 0
  {
    var d := DistinctBy(ids, Same());
    if x in ids && x != 0 {
      var i :| 0 <= i < |ids| && ids[i] == x;
      assert Same()(ids[i]) in Keys(ids, Same()) && x in Keys(d, Same());
      var j :| 0 <= j < |d| && Same()(d[j]) == x;
    }
    if x in d {
      var j :| 0 <= j < |d| && d[j] == x;
      assert Same()(d[j]) != 0;
    }
  }

  lemma BatchIsChecked(s: State, org: nat, id: nat, studentIds: seq<nat>)
    requires History(s) && FirstIndex(s.operations, OperationKey(org, id)).Some?
    ensures var ids := DistinctBy(studentIds, Same());
            && (ids != [] <==> exists x | x in studentIds :: x != 0)
            && (FirstRefusal(s.members, org, id, ids).None? <==>
                forall x | x in studentIds && x != 0 :: ChildAt(s, id, x, {PickedUp, SelfArrived, NotArrived, Abnormal, Arrived}))
  {
    var ids := DistinctBy(studentIds, Same());
    forall x ensures x in ids <==> x in studentIds && x != 0 { DistinctIds(studentIds, x); }
    if ids != [] { assert ids[0] in ids; }
    forall x | x in ids
      ensures CannotArrive(s.members, org, id, x).None? <==> ChildAt(s, id, x, {PickedUp, SelfArrived, NotArrived, Abnormal, Arrived})
    {
      ArrivesFrom(s, org, id, x);
    }
    if forall x | x in studentIds && x != 0 :: ChildAt(s, id, x, {PickedUp, SelfArrived, NotArrived, Abnormal, Arrived}) {
      forall k | 0 <= k < |ids| ensures CannotArrive(s.members, org, id, ids[k]).None? { assert ids[k] in ids; }
    }
  }

  lemma ArrivesFrom(s: State, org: nat, id: nat, studentId: nat)
    requires History(s) && FirstIndex(s.operations, OperationKey(org, id)).Some?
    ensures CannotArrive(s.members, org, id, studentId).None? <==> ChildAt(s, id, studentId, {PickedUp, SelfArrived, NotArrived, Abnormal, Arrived})
  {
    FirstIsLast(s.members, MemberKey(org, id, studentId));
    ChildIsFound(s, org, id, studentId, {PickedUp, SelfArrived, NotArrived, Abnormal, Arrived});
    var f := FirstIndex(s.members, MemberKey(org, id, studentId));
    if f.Some? { BeforeIsLegal(s.members[f.value].status, Arrived); }
  }

  ghost predicate Recorded(s: State, org: nat, id: nat, eventId: nat) {
    exists k | 0 <= k < |s.events| :: s.events[k].org == org && s.events[k].operationId == id && s.events[k].id == eventId
  }

  /** In every run an event is corrected exactly when it is recorded, its operation
      has not been called off, a reason is given and the status is a real one. */
  lemma {:induction false} CorrectionIsTakenWhen(calls: seq<Call>, org: nat, id: nat, eventId: nat, status: MemberStatus, operator: string,
                                                 reason: string, now: Time)
    ensures var s := Run(INIT, calls); var r := CorrectEvent(s, org, id, eventId, status, operator, reason, now);
            && (r.result.Ok? <==> && !status.Planned? && !status.Unknown? && Trim(reason) != ""
                                  && StandsAt(s, org, id, {Draft, Confirmed, Started, Finished}) && Recorded(s, org, id, eventId))
            && (r.result.Err? ==> r.state == s)
  {
    RunKeepsHistory(INIT, calls);
    CorrectedWhen(Run(INIT, calls), org, id, eventId, status, operator, reason, now);
  }

  lemma CorrectedWhen(s: State, org: nat, id: nat, eventId: nat, status: MemberStatus, operator: string, reason: string, now: Time)
    requires History(s)
    ensures var r := CorrectEvent(s, org, id, eventId, status, operator, reason, now);
            && (r.result.Ok? <==> && !status.Planned? && !status.Unknown? && Trim(reason) != ""
                                  && StandsAt(s, org, id, {Draft, Confirmed, Started, Finished}) && Recorded(s, org, id, eventId))
            && (r.result.Err? ==> r.state == s)
  {
    FoundIsIt(s, org, id, {Draft, Confirmed, Started, Finished});
    EventIsFound(s, org, id, eventId);
    CorrectedIf(s, org, id, eventId, status, operator, reason, now);
  }

  lemma CorrectedIf(s: State, org: nat, id: nat, eventId: nat, status: MemberStatus, operator: string, reason: string, now: Time)
    ensures var r := CorrectEvent(s, org, id, eventId, status, operator, reason, now);
            var o, e := FirstIndex(s.operations, OperationKey(org, id)), FirstIndex(s.events, EventKey(org, id, eventId));
            && (r.result.Ok? <==> && !status.Planned? && !status.Unknown? && Trim(reason) != ""
                                  && o.Some? && s.operations[o.value].status in {Draft, Confirmed, Started, Finished}
                                  && e.Some? && FirstIndex(s.members, MemberKey(org, id, s.events[e.value].studentId)).Some?)
            && (r.result.Err? ==> r.state == s)
  {
  }

  lemma EventIsFound(s: State, org: nat, id: nat, eventId: nat)
    requires History(s)
    ensures var f := FirstIndex(s.events, EventKey(org, id, eventId));
            && (f.Some? <==> Recorded(s, org, id, eventId))
            && (f.Some? ==> FirstIndex(s.members, MemberKey(org, id, s.events[f.value].studentId)).Some?)
  {
    var f := FirstIndex(s.events, EventKey(org, id, eventId));
    if k :| 0 <= k < |s.events| && s.events[k].org == org && s.events[k].operationId == id && s.events[k].id == eventId {
      assert EventKey(org, id, eventId)(s.events[k]);
    }
    if f.Some? {
      assert MemberIn(s.members, s.events[f.value]);
      var i :| 0 <= i < |s.members| && Owns(s.members[i], s.events[f.value]);
      assert MemberKey(org, id, s.events[f.value].studentId)(s.members[i]);
    }
  }

  // ------------------------------------------------------------- requests

  ghost predicate Waits(s: State, org: nat, studentId: nat, date: Day) {
    exists i | 0 <= i < |s.requests| ::
      s.requests[i].org == org && s.requests[i].studentId == studentId && s.requests[i].changeDate == date && s.requests[i].status == RequestPending
  }

  /** An operation of the day lists the child. */
  ghost predicate Covers(s: State, o: Operation, org: nat, date: Day, studentId: nat) {
    o.org == org && o.date == date && exists i | 0 <= i < |s.members| ::
      s.members[i].org == org && s.members[i].operationId == o.id && s.members[i].studentId == studentId
  }

  /** The first operation of the day that lists the child, if any. */
  ghost predicate FiledFor(s: State, org: nat, date: Day, studentId: nat, operationId: Option<nat>) {
    match operationId
    case None => forall o | o in s.operations :: !Covers(s, o, org, date, studentId)
    case Some(id) => exists k | 0 <= k < |s.operations| ::
      s.operations[k].id == id && Covers(s, s.operations[k], org, date, studentId)
      && forall j | 0 <= j < k :: !Covers(s, s.operations[j], org, date, studentId)
  }

  lemma CoveringIsFound(s: State, o: Operation, org: nat, date: Day, studentId: nat)
    ensures CoversKey(s.members, org, date, studentId)(o) <==> Covers(s, o, org, date, studentId)
  {
    if i :| 0 <= i < |s.members| && s.members[i].org == org && s.members[i].operationId == o.id && s.members[i].studentId == studentId {
      assert MemberKey(org, o.id, studentId)(s.members[i]);
    }
  }

  lemma FiledUnderFirst(s: State, org: nat, date: Day, studentId: nat)
    ensures FiledFor(s, org, date, studentId, OperationFor(s, org, date, studentId))
  {
    forall o: Operation { CoveringIsFound(s, o, org, date, studentId); }
    var f := FirstIndex(s.operations, CoversKey(s.members, org, date, studentId));
    if f.Some? { assert s.operations[f.value].id == OperationFor(s, org, date, studentId).value; }
  }

  /** A parent may ask, with a reason, for the child not to be fetched, once at a time for a day. */
  lemma RequestIsFiledWhen(s: State, org: nat, studentId: nat, date: Day, requested: MemberStatus, note: string)
    ensures var r := SubmitChange(s, org, studentId, date, requested, note);
            && (r.result.Ok? <==> && requested in {ParentPickedUp, SelfArrived, Leave, Absent} && Trim(note) != "" && studentId != 0
                                  && !Waits(s, org, studentId, date))
            && (r.result.Ok? ==> |r.state.requests| == |s.requests| + 1 && r.state.requests[..|s.requests|] == s.requests
                                 && var x := r.state.requests[|s.requests|];
                                    && x.org == org && x.studentId == studentId && x.changeDate == date && x.requestedStatus == requested
                                    && x.status == RequestPending && FiledFor(s, org, date, studentId, x.operationId))
  {
    FiledUnderFirst(s, org, date, studentId);
    if FirstIndex(s.requests, PendingRequestKey(org, studentId, date)).None? {
      forall i | 0 <= i < |s.requests| ensures !(s.requests[i].org == org && s.requests[i].studentId == studentId
                                                 && s.requests[i].changeDate == date && s.requests[i].status == RequestPending)
      {
        assert !PendingRequestKey(org, studentId, date)(s.requests[i]);
      }
    }
  }

  /** In every run a decision is taken exactly about a request that is still open, and closes it. */
  lemma {:induction false} RequestIsDecidedWhen(calls: seq<Call>, org: nat, id: nat, status: RequestStatus, reviewer: Option<nat>, note: string, now: Time)
    ensures var s := Run(INIT, calls); var r := ReviewRequest(s, org, id, status, reviewer, note, now);
            && (r.result.Ok? <==> status in {Approved, Rejected}
                                  && exists i | 0 <= i < |s.requests| ::
                                       s.requests[i].org == org && s.requests[i].id == id && s.requests[i].status == RequestPending)
            && (r.result.Ok? ==> |r.state.requests| == |s.requests|
                                 && forall i | 0 <= i < |s.requests| ::
                                      if s.requests[i].id == id then r.state.requests[i].status == status else r.state.requests[i] == s.requests[i])
  {
    var s := Run(INIT, calls);
    EveryIdOnce(calls);
    var ids := LedgerOf(s).lists[REQUESTS];
    assert Rising(ids, s.nextId);
    forall i, j | 0 <= i < j < |s.requests| ensures s.requests[i].id != s.requests[j].id { assert ids[i] < ids[j]; }
    if i :| 0 <= i < |s.requests| && s.requests[i].org == org && s.requests[i].id == id {
      FirstIsOnly(s.requests, RequestKey(org, id), i);
    }
  }

  // -------------------------------------------------------------- deliveries

  /** In every run a delivery is tried again exactly when it is the organization's
      and its row says it failed; row and notification then both wait, unattempted. */
  lemma {:induction false} RetryIsTakenWhen(calls: seq<Call>, org: nat, id: nat, now: Time)
    ensures var s := Run(INIT, calls); var r := Retry(s, org, id, now);
            && |s.outbox| == |s.notifications|
            && (r.result.Ok? <==> exists k | 0 <= k < |s.outbox| ::
                  s.notifications[k].org == org && s.notifications[k].id == id && s.outbox[k].status == Failed)
            && (r.result.Ok? ==> forall k | 0 <= k < |s.outbox| ::
                  if s.notifications[k].id == id then FreshAgain(r.state, k) else SameAt(s, r.state, k))
  {
    var s := Run(INIT, calls);
    RunConserves(calls, 0);
    EveryIdOnce(calls);
    var ids := LedgerOf(s).lists[NOTICES];
    assert Rising(ids, s.nextId);
    forall i, j | 0 <= i < j < |s.notifications| ensures s.notifications[i].id != s.notifications[j].id { assert ids[i] < ids[j]; }
    RetriedWhen(s, org, id, now);
  }

  lemma RetriedWhen(s: State, org: nat, id: nat, now: Time)
    requires Paired(s.notifications, s.outbox)
    requires forall i, j | 0 <= i < j < |s.notifications| :: s.notifications[i].id != s.notifications[j].id
    ensures var r := Retry(s, org, id, now);
            && (r.result.Ok? <==> exists k | 0 <= k < |s.outbox| ::
                  s.notifications[k].org == org && s.notifications[k].id == id && s.outbox[k].status == Failed)
            && (r.result.Ok? ==> forall k | 0 <= k < |s.outbox| ::
                  if s.notifications[k].id == id then FreshAgain(r.state, k) else SameAt(s, r.state, k))
  {
    if k :| 0 <= k < |s.notifications| && s.notifications[k].org == org && s.notifications[k].id == id { NoticeAndRowAt(s, org, id, k); }
  }

  ghost predicate FreshAgain(t: State, k: nat) {
    && k < |t.outbox| && t.outbox[k].status == Pending && t.outbox[k].attempts == 0 && t.outbox[k].lockedAt.None?
    && k < |t.notifications| && t.notifications[k].status == NoticePending && t.notifications[k].attempts == 0
  }

  ghost predicate SameAt(s: State, t: State, k: nat) {
    k < |s.outbox| && k < |t.outbox| && t.outbox[k] == s.outbox[k]
    && k < |s.notifications| && k < |t.notifications| && t.notifications[k] == s.notifications[k]
  }

  lemma NoticeAndRowAt(s: State, org: nat, id: nat, k: nat)
    requires Paired(s.notifications, s.outbox) && k < |s.notifications| && s.notifications[k].org == org && s.notifications[k].id == id
    requires forall i, j | 0 <= i < j < |s.notifications| :: s.notifications[i].id != s.notifications[j].id
    ensures FirstIndex(s.notifications, NoticeKey(org, id)) == Some(k) && FirstIndex(s.outbox, RowOfNotice(org, id)) == Some(k)
  {
    assert RowOf(s.notifications[k], s.outbox[k]);
    FirstIsOnly(s.notifications, NoticeKey(org, id), k);
    forall j | 0 <= j < |s.outbox| && RowOfNotice(org, id)(s.outbox[j]) ensures j == k { assert RowOf(s.notifications[j], s.outbox[j]); }
    FirstIsOnly(s.outbox, RowOfNotice(org, id), k);
  }
}

/** Hand-overs form an unbroken chain, and a class has one live operation a day. */
module PickupHandover {
  import opened Common
  import opened PickupModel
  import opened PickupSpec
  import opened PickupBatch
  import opened PickupRuns
  import opened PickupHistory
  import opened PickupFinish

  /** Where the hand-overs of operation `id` lead from `start`; None where one
      does not begin with the teacher the one before it ended with. */
  function ChainEnd(hs: seq<Handoff>, id: nat, start: Teacher): Option<Teacher> {
    if hs == [] then Some(start)
    else
      match ChainEnd(hs[..|hs| - 1], id, start)
      case None => None
      case Some(t) =>
        var h := hs[|hs| - 1];
        if h.operationId != id then Some(t) else if h.from == t then Some(h.to) else None
  }

  ghost predicate NamesTrimmed(s: State) {
    forall i | 0 <= i < |s.operations| :: Trimmed(s.operations[i].executing.name)
  }

  /** Before it starts an operation has no hand-over, and as a draft no teacher. */
  ghost predicate NotHandedOver(s: State) {
    && (forall h | 0 <= h < |s.handoffs| :: Begun(s.operations, s.handoffs[h].operationId))
    && (forall i | 0 <= i < |s.operations| && s.operations[i].status == Draft :: s.operations[i].executing == NO_TEACHER)
  }

  /** At most one operation of a class and day is not cancelled. */
  ghost predicate OneLive(ops: seq<Operation>) {
    forall i, j | 0 <= i < j < |ops| ::
      ops[i].org == ops[j].org && ops[i].date == ops[j].date && ops[i].schoolClassId == ops[j].schoolClassId ==>
        ops[i].status == Cancelled || ops[j].status == Cancelled
  }

  ghost predicate Scheduled(s: State) { NamesTrimmed(s) && NotHandedOver(s) && OneLive(s.operations) }

  /** All a call can do to the operations and the hand-overs. */
  datatype OperationEffect =
    | Nothing
    | Created(operation: Operation)
    | Edited(index: nat, item: Operation)
    | HandedOver(index: nat, item: Operation, handoff: Handoff)

  ghost predicate HasEffect(s: State, t: State, e: OperationEffect) {
    match e
    case Nothing => t.operations == s.operations && t.handoffs == s.handoffs
    case Created(o) =>
      && t.operations == s.operations + [o] && t.handoffs == s.handoffs && o.id == s.nextId && o.status == Draft
      && o.executing == NO_TEACHER && FirstIndex(s.operations, LiveKey(o.org, o.date, o.schoolClassId)).None?
    case Edited(i, item) =>
      && i < |s.operations| && t.operations == s.operations[i := item] && t.handoffs == s.handoffs
      && SameSlot(s.operations[i], item)
      && (if item.status == Confirmed then s.operations[i].status == Draft && Trimmed(item.executing.name)
          else s.operations[i].executing == item.executing && item.status in {Started, Finished})
    case HandedOver(i, item, h) =>
      && i < |s.operations| && t.operations == s.operations[i := item] && t.handoffs == s.handoffs + [h]
      && SameSlot(s.operations[i], item) && s.operations[i].status == item.status == Started && h.operationId == item.id
      && h.from == Teacher(s.operations[i].executing.id, Trim(s.operations[i].executing.name))
      && h.to == item.executing && Trimmed(item.executing.name)
  }

  predicate SameSlot(a: Operation, b: Operation) {
    a.id == b.id && a.org == b.org && a.date == b.date && a.schoolClassId == b.schoolClassId && a.status != Cancelled
    && (a.status !in {Draft, Confirmed} ==> b.status !in {Draft, Confirmed})
  }

  lemma OperationEdit(s: State, org: nat, c: Command, now: Time) returns (e: OperationEffect)
    requires c.CmdSetStatus? || c.CmdConfirm?
    ensures HasEffect(s, Step(s, org, c, now), e)
  {
    var i, t := FirstIndex(s.operations, OperationKey(org, c.id)), Step(s, org, c, now);
    if c.CmdConfirm? { TrimIsTrimmed(c.teacher.name); }
    e := if t == s then Nothing else Edited(i.value, t.operations[i.value]);
  }

  lemma HandoffEffect(s: State, org: nat, id: nat, toId: nat, toName: string, role: string, note: string, author: Teacher, now: Time) returns (e: OperationEffect)
    ensures HasEffect(s, HandoffOperation(s, org, id, toId, toName, role, note, author, now).state, e)
  {
    var i, t := FirstIndex(s.operations, OperationKey(org, id)), HandoffOperation(s, org, id, toId, toName, role, note, author, now).state;
    TrimIsTrimmed(toName);
    e := if t == s then Nothing else HandedOver(i.value, t.operations[i.value], t.handoffs[|s.handoffs|]);
  }

  lemma {:induction false} ArrivalsKeepHandoffs(s: State, org: nat, operationId: nat, ids: seq<nat>, operator: string, note: string, now: Time)
    ensures ArriveAll(s, org, operationId, ids, operator, note, now).handoffs == s.handoffs
  {
    if ids != [] { ArrivalsKeepHandoffs(s, org, operationId, ids[..|ids| - 1], operator, note, now); }
  }

  lemma CreateEffect(s: State, org: nat, date: Day, details: Details, classId: nat, roster: seq<StudentRef>, now: Time) returns (e: OperationEffect)
    ensures HasEffect(s, CreateOperation(s, org, date, details, classId, roster, now).state, e)
  {
    var t := CreateOperation(s, org, date, details, classId, roster, now).state;
    e := if t == s then Nothing else Created(t.operations[|s.operations|]);
  }

  lemma EffectOf(s: State, org: nat, c: Command, now: Time) returns (e: OperationEffect)
    ensures HasEffect(s, Step(s, org, c, now), e)
  {
    e := Nothing;
    match c
    case CmdCreate(date, details, classId, roster) => e := CreateEffect(s, org, date, details, classId, roster, now);
    case CmdSetStatus(_, _) => e := OperationEdit(s, org, c, now);
    case CmdConfirm(_, _, _) => e := OperationEdit(s, org, c, now);
    case CmdHandoff(id, toId, toName, role, note, author) => e := HandoffEffect(s, org, id, toId, toName, role, note, author, now);
    case _ => NoEffect(s, org, c, now);
  }

  lemma NoEffect(s: State, org: nat, c: Command, now: Time)
    requires !c.CmdCreate? && !c.CmdSetStatus? && !c.CmdConfirm? && !c.CmdHandoff?
    ensures HasEffect(s, Step(s, org, c, now), Nothing)
  {
    if c.CmdMark? || c.CmdBulkArrive? || c.CmdNotify? { NoLoggedEffect(s, org, c, now); } else { NoQuietEffect(s, org, c, now); }
  }

  lemma NoQuietEffect(s: State, org: nat, c: Command, now: Time)
    requires !c.CmdCreate? && !c.CmdSetStatus? && !c.CmdConfirm? && !c.CmdHandoff?
    requires !c.CmdMark? && !c.CmdBulkArrive? && !c.CmdNotify?
    ensures HasEffect(s, Step(s, org, c, now), Nothing)
  {
    if Aside(c) { AsideFrame(s, org, c, now); }
  }

  lemma MarkKeepsHandoffs(s: State, org: nat, operationId: nat, studentId: nat, status: MemberStatus, photo: string,
                          operator: string, note: string, now: Time)
    ensures var t := MarkStudent(s, org, operationId, studentId, status, photo, operator, note, now).state;
            t.operations == s.operations && t.handoffs == s.handoffs
  {
    MarkFrame(s, org, operationId, studentId, status, photo, operator, note, now);
  }

  lemma BulkKeepsHandoffs(s: State, org: nat, operationId: nat, students: seq<nat>, operator: string, note: string, now: Time)
    ensures var t := BulkArrive(s, org, operationId, students, operator, note, now).state;
            t.operations == s.operations && t.handoffs == s.handoffs
  {
    ArriveAllFrame(s, org, operationId, DistinctBy(students, Same()), operator, note, now);
    ArrivalsKeepHandoffs(s, org, operationId, DistinctBy(students, Same()), operator, note, now);
  }

  lemma NoLoggedEffect(s: State, org: nat, c: Command, now: Time)
    requires c.CmdMark? || c.CmdBulkArrive? || c.CmdNotify?
    ensures HasEffect(s, Step(s, org, c, now), Nothing)
  {
    match c
    case CmdMark(op, student, status, photo, operator, note) => MarkKeepsHandoffs(s, org, op, student, status, photo, operator, note, now);
    case CmdBulkArrive(op, students, operator, note) => BulkKeepsHandoffs(s, org, op, students, operator, note, now);
    case CmdNotify(params) => NotifyAllFrame(s, org, params, now);
  }

  lemma EffectKeepsScheduled(s: State, t: State, e: OperationEffect)
    requires Scheduled(s) && HasEffect(s, t, e)
    ensures Scheduled(t)
  {
    if e.Created? {
      forall i | 0 <= i < |s.operations| ensures !LiveKey(e.operation.org, e.operation.date, e.operation.schoolClassId)(s.operations[i]) {}
    }
    if e.HandedOver? { TrimIsTrimmed(s.operations[e.index].executing.name); }
    forall h | 0 <= h < |t.handoffs| ensures Begun(t.operations, t.handoffs[h].operationId) {
      if h < |s.handoffs| {
        assert forall k | 0 <= k < |s.operations| :: Advances(s.operations[k], t.operations[k]);
        BegunKept(s.operations, t.operations, s.handoffs[h].operationId);
      } else {
        assert t.operations[e.index].id == e.handoff.operationId;
      }
    }
  }

  lemma {:induction false} RunKeepsScheduled(s: State, calls: seq<Call>)
    requires Scheduled(s)
    ensures Scheduled(Run(s, calls))
  {
    if calls != [] {
      var init, c := calls[..|calls| - 1], calls[|calls| - 1];
      RunKeepsScheduled(s, init);
      var e := EffectOf(Run(s, init), c.org, c.command, c.now);
      EffectKeepsScheduled(Run(s, init), Run(s, calls), e);
    }
  }

  // ---------------------------------------------------------- main results

  /** Whatever mix of generators and staff created them, a class has at most one
      operation a day that is not cancelled. */
  lemma {:induction false} OneLiveOperationADay(calls: seq<Call>)
    ensures OneLive(Run(INIT, calls).operations)
  {
    RunKeepsScheduled(INIT, calls);
  }

  /** An operation that has not started has had no hand-over, and a draft names no teacher. */
  lemma {:induction false} NoHandoverBeforeStart(calls: seq<Call>, o: nat)
    requires var s := Run(INIT, calls); o < |s.operations| && s.operations[o].status in {Draft, Confirmed}
    ensures var s := Run(INIT, calls);
            && (forall h | 0 <= h < |s.handoffs| :: s.handoffs[h].operationId != s.operations[o].id)
            && (s.operations[o].status == Draft ==> s.operations[o].executing == NO_TEACHER)
  {
    RunKeepsScheduled(INIT, calls);
    RunKeepsHistory(INIT, calls);
    NotBegunNoHandoff(Run(INIT, calls), o);
  }

  lemma NotBegunNoHandoff(s: State, o: nat)
    requires OperationsRise(s) && NotHandedOver(s) && o < |s.operations| && s.operations[o].status in {Draft, Confirmed}
    ensures forall h | 0 <= h < |s.handoffs| :: s.handoffs[h].operationId != s.operations[o].id
  {
    forall h | 0 <= h < |s.handoffs| ensures s.handoffs[h].operationId != s.operations[o].id {
      assert Begun(s.operations, s.handoffs[h].operationId);
    }
  }

  lemma ChainAppend(hs: seq<Handoff>, h: Handoff, id: nat, start: Teacher)
    ensures ChainEnd(hs + [h], id, start) ==
            match ChainEnd(hs, id, start)
            case None => None
            case Some(t) => if h.operationId != id then Some(t) else if h.from == t then Some(h.to) else None
  {
    assert (hs + [h])[..|hs|] == hs;
  }

  /** The teacher named when operation `id` was confirmed in the run; none if it never was. */
  function TeacherConfirmed(calls: seq<Call>, id: nat): Teacher {
    if calls == [] then NO_TEACHER
    else
      var init, c := calls[..|calls| - 1], calls[|calls| - 1];
      match c.command
      case CmdConfirm(op, teacher, confirmation) =>
        if op == id && ConfirmOperation(Run(INIT, init), c.org, op, teacher, confirmation, c.now).result.Ok?
        then Teacher(teacher.id, Trim(teacher.name))
        else TeacherConfirmed(init, id)
      case _ => TeacherConfirmed(init, id)
  }

  /** A call leaves the chain of an operation past its draft unbroken. */
  lemma EffectExtendsChain(s: State, t: State, e: OperationEffect, o: nat, start: Teacher)
    requires Orderly(s) && HasEffect(s, t, e) && o < |s.operations| && s.operations[o].status != Draft
    requires ChainEnd(s.handoffs, s.operations[o].id, start) == Some(s.operations[o].executing)
    ensures o < |t.operations| && t.operations[o].id == s.operations[o].id
    ensures ChainEnd(t.handoffs, t.operations[o].id, start) == Some(t.operations[o].executing)
  {
    if e.HandedOver? { HandoverExtendsChain(s, e, o, start); }
  }

  lemma HandoverExtendsChain(s: State, e: OperationEffect, o: nat, start: Teacher)
    requires Orderly(s) && e.HandedOver? && e.index < |s.operations| && o < |s.operations|
    requires e.handoff.operationId == e.item.id == s.operations[e.index].id && e.handoff.to == e.item.executing
    requires var t := s.operations[e.index].executing; e.handoff.from == Teacher(t.id, Trim(t.name))
    requires ChainEnd(s.handoffs, s.operations[o].id, start) == Some(s.operations[o].executing)
    ensures ChainEnd(s.handoffs + [e.handoff], s.operations[o].id, start)
         == Some(if o == e.index then e.item.executing else s.operations[o].executing)
  {
    TrimIsTrimmed(s.operations[e.index].executing.name);
    ChainAppend(s.handoffs, e.handoff, s.operations[o].id, start);
  }

  lemma {:induction false} NoHandoffs(hs: seq<Handoff>, id: nat, start: Teacher)
    requires forall h | 0 <= h < |hs| :: hs[h].operationId != id
    ensures ChainEnd(hs, id, start) == Some(start)
  {
    if hs != [] { NoHandoffs(hs[..|hs| - 1], id, start); }
  }

  ghost predicate Orderly(s: State) { OperationsRise(s) && Scheduled(s) }

  lemma RunIsOrderly(calls: seq<Call>)
    ensures Orderly(Run(INIT, calls))
  {
    RunKeepsHistory(INIT, calls);
    RunKeepsScheduled(INIT, calls);
  }

  /** The confirmation counts the one time it is accepted, and from then on the operation is no draft. */
  lemma ConfirmedLast(calls: seq<Call>, id: nat)
    requires calls != [] && TeacherConfirmed(calls, id) != TeacherConfirmed(calls[..|calls| - 1], id)
    ensures var s := Run(INIT, calls[..|calls| - 1]); var c := calls[|calls| - 1];
            c.command.CmdConfirm? && var o := FirstIndex(s.operations, OperationKey(c.org, id));
            o.Some? && s.operations[o.value].status == Draft && o.value < |Run(INIT, calls).operations|
            && Run(INIT, calls).operations[o.value].status == Confirmed
            && Run(INIT, calls).operations[o.value].executing == TeacherConfirmed(calls, id)
  {
  }

  /** An operation that is a draft after a call was one before it, or is new. */
  lemma DraftBefore(s: State, t: State, e: OperationEffect, o: nat)
    requires Orderly(s) && HasEffect(s, t, e) && o < |s.operations|
    ensures o < |t.operations| && t.operations[o].id == s.operations[o].id
    ensures t.operations[o].status == Draft ==> s.operations[o].status == Draft
  {
  }

  lemma NewIsDraft(s: State, t: State, e: OperationEffect, o: nat)
    requires HasEffect(s, t, e) && o < |t.operations| && t.operations[o].status != Draft
    ensures o < |s.operations|
  {
  }

  ghost predicate AllDraft(ops: seq<Operation>, id: nat) { forall o | 0 <= o < |ops| && ops[o].id == id :: ops[o].status == Draft }

  lemma {:induction false} NoTeacherYet(calls: seq<Call>, id: nat)
    requires AllDraft(Run(INIT, calls).operations, id)
    ensures TeacherConfirmed(calls, id) == NO_TEACHER
  {
    if calls != [] {
      var init, c := calls[..|calls| - 1], calls[|calls| - 1];
      var s, t := Run(INIT, init), Run(INIT, calls);
      RunIsOrderly(init);
      var e := EffectOf(s, c.org, c.command, c.now);
      forall o | 0 <= o < |s.operations| && s.operations[o].id == id ensures s.operations[o].status == Draft {
        DraftBefore(s, t, e, o);
      }
      NoTeacherYet(init, id);
      if TeacherConfirmed(calls, id) != TeacherConfirmed(init, id) { ConfirmedLast(calls, id); }
    }
  }

  ghost predicate Chained(calls: seq<Call>, o: nat)
    requires o < |Run(INIT, calls).operations|
  {
    var s := Run(INIT, calls); var item := s.operations[o];
    ChainEnd(s.handoffs, item.id, TeacherConfirmed(calls, item.id)) == Some(item.executing)
  }

  lemma NoHandoffsOf(s: State, o: nat)
    requires Orderly(s) && o < |s.operations| && s.operations[o].status == Draft
    ensures AllDraft(s.operations, s.operations[o].id)
    ensures forall h | 0 <= h < |s.handoffs| :: s.handoffs[h].operationId != s.operations[o].id
  {
    forall h | 0 <= h < |s.handoffs| ensures s.handoffs[h].operationId != s.operations[o].id {
      assert Begun(s.operations, s.handoffs[h].operationId);
    }
  }

  lemma DraftIsChained(calls: seq<Call>, o: nat)
    requires Orderly(Run(INIT, calls)) && o < |Run(INIT, calls).operations| && Run(INIT, calls).operations[o].status == Draft
    ensures Chained(calls, o)
  {
    var s := Run(INIT, calls);
    NoHandoffsOf(s, o);
    NoHandoffs(s.handoffs, s.operations[o].id, NO_TEACHER);
    NoTeacherYet(calls, s.operations[o].id);
  }

  /** Leaving the draft state: by a confirmation, with its teacher, or by a start, with the one it had. */
  lemma LeavingDraft(s: State, org: nat, c: Command, now: Time, o: nat)
    requires Orderly(s) && o < |s.operations| && s.operations[o].status == Draft
    requires o < |Step(s, org, c, now).operations| && Step(s, org, c, now).operations[o].status != Draft
    ensures Step(s, org, c, now).handoffs == s.handoffs && Step(s, org, c, now).operations[o].id == s.operations[o].id
    ensures var item := Step(s, org, c, now).operations[o];
            if c.CmdConfirm?
            then c.id == s.operations[o].id && item.executing == Teacher(c.teacher.id, Trim(c.teacher.name))
                 && ConfirmOperation(s, org, c.id, c.teacher, c.confirmation, now).result.Ok?
            else item.executing == s.operations[o].executing
  {
    match c
    case CmdConfirm(_, _, _) =>
    case CmdSetStatus(_, _) =>
    case CmdCreate(_, _, _, _) =>
    case CmdHandoff(_, _, _, _, _, _) =>
    case _ => NoEffect(s, org, c, now);
  }

  lemma LeavingDraftIsChained(calls: seq<Call>, o: nat)
    requires calls != [] && Orderly(Run(INIT, calls[..|calls| - 1]))
    requires var s := Run(INIT, calls[..|calls| - 1]); o < |s.operations| && s.operations[o].status == Draft
    requires o < |Run(INIT, calls).operations| && Run(INIT, calls).operations[o].status != Draft
    ensures Chained(calls, o)
  {
    var init, c := calls[..|calls| - 1], calls[|calls| - 1];
    var s := Run(INIT, init);
    var id := s.operations[o].id;
    LeavingDraft(s, c.org, c.command, c.now, o);
    NoHandoffsOf(s, o);
    NoHandoffs(s.handoffs, id, TeacherConfirmed(calls, id));
    NoTeacherYet(init, id);
  }

  lemma LaterIsChained(calls: seq<Call>, o: nat)
    requires calls != [] && Orderly(Run(INIT, calls[..|calls| - 1]))
    requires o < |Run(INIT, calls[..|calls| - 1]).operations| && Chained(calls[..|calls| - 1], o)
    requires Run(INIT, calls[..|calls| - 1]).operations[o].status != Draft
    requires o < |Run(INIT, calls).operations|
    ensures Chained(calls, o)
  {
    var init, c := calls[..|calls| - 1], calls[|calls| - 1];
    var s, t := Run(INIT, init), Run(INIT, calls);
    var e := EffectOf(s, c.org, c.command, c.now);
    EffectExtendsChain(s, t, e, o, TeacherConfirmed(init, s.operations[o].id));
    if TeacherConfirmed(calls, s.operations[o].id) != TeacherConfirmed(init, s.operations[o].id) { ConfirmedLast(calls, s.operations[o].id); }
  }

  ghost predicate AllChained(calls: seq<Call>) { forall o | 0 <= o < |Run(INIT, calls).operations| :: Chained(calls, o) }

  lemma OneIsChained(init: seq<Call>, calls: seq<Call>, o: nat)
    requires calls != [] && init == calls[..|calls| - 1] && Orderly(Run(INIT, init)) && AllChained(init)
    requires Orderly(Run(INIT, calls)) && o < |Run(INIT, calls).operations|
    ensures Chained(calls, o)
  {
    if Run(INIT, calls).operations[o].status == Draft {
      DraftIsChained(calls, o);
    } else {
      var s, c := Run(INIT, init), calls[|calls| - 1];
      var e := EffectOf(s, c.org, c.command, c.now);
      NewIsDraft(s, Run(INIT, calls), e, o);
      if s.operations[o].status == Draft { LeavingDraftIsChained(calls, o); } else { LaterIsChained(calls, o); }
    }
  }

  /** In every run the hand-overs of every operation form one chain: the first
      starts from the teacher named when it was confirmed (from none when it was
      started as a draft), each next one where the one before ended, and the
      teacher it has now is where the last one ended. */
  lemma {:induction false} HandoversFormAChain(calls: seq<Call>)
    ensures forall o | 0 <= o < |Run(INIT, calls).operations| :: Chained(calls, o)
  {
    if calls != [] {
      var init := calls[..|calls| - 1];
      HandoversFormAChain(init);
      RunIsOrderly(init);
      RunIsOrderly(calls);
      forall o | 0 <= o < |Run(INIT, calls).operations| ensures Chained(calls, o) { OneIsChained(init, calls, o); }
    }
  }
}

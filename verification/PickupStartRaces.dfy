/** Starting an operation while staff go on working: between the start, the
    reading of the requests and each mark, any calls may happen. */
module PickupStartRaces {
  import opened Common
  import opened PickupModel
  import opened PickupSpec
  import opened PickupBatch
  import opened PickupRuns
  import opened PickupHistory
  import opened PickupFinish
  import opened PickupHandover
  import opened PickupStart

  // ----------------------------------------------------- leaving a child be

  predicate Child(m: Member, operationId: nat, studentId: nat) { m.operationId == operationId && m.studentId == studentId }

  /** The call does not mark the child, and corrects no event of it. */
  ghost predicate Spares(s: State, c: Command, operationId: nat, studentId: nat) {
    match c
    case CmdMark(op, student, _, _, _, _) => !(op == operationId && student == studentId)
    case CmdBulkArrive(op, students, _, _) => !(op == operationId && studentId in students)
    case CmdCorrect(op, event, _, _, _) =>
      op == operationId ==> forall k | 0 <= k < |s.events| && s.events[k].id == event :: s.events[k].studentId != studentId
    case _ => true
  }

  ghost predicate SparesAll(s: State, calls: seq<Call>, operationId: nat, studentId: nat) {
    calls == [] ||
    (SparesAll(s, calls[..|calls| - 1], operationId, studentId)
     && Spares(Run(s, calls[..|calls| - 1]), calls[|calls| - 1].command, operationId, studentId))
  }

  /** Member `i` of `s` has the same status in `t`. */
  ghost predicate Unmoved(s: State, t: State, i: nat) {
    i < |s.members| && i < |t.members| && SameKey(s.members[i], t.members[i]) && t.members[i].status == s.members[i].status
  }

  lemma MarkSpares(s: State, org: nat, operationId: nat, studentId: nat, status: MemberStatus, photo: string, operator: string,
                   note: string, now: Time, i: nat)
    requires i < |s.members| && !Child(s.members[i], operationId, studentId)
    ensures Unmoved(s, MarkStudent(s, org, operationId, studentId, status, photo, operator, note, now).state, i)
  {
    MarkFrame(s, org, operationId, studentId, status, photo, operator, note, now);
  }

  lemma ArriveOneSpares(s: State, table: seq<Member>, org: nat, operationId: nat, studentId: nat, operator: string, note: string, now: Time, i: nat)
    requires SameKeys(table, s.members) && i < |s.members| && !Child(s.members[i], operationId, studentId)
    ensures var t := ArriveOne(s, table, org, operationId, studentId, operator, note, now);
            SameKeys(table, t.members) && t.members[i] == s.members[i]
  {
    var f := InTable(table, org, operationId, studentId);
    if f.Some? {
      assert SameKey(table[f.value], s.members[f.value]);
      ChangeFrame(s, f.value, Arrived, "", operator, note, now);
      forall j | 0 <= j < |table| ensures SameKey(table[j], ArriveOne(s, table, org, operationId, studentId, operator, note, now).members[j]) {
        assert SameKey(table[j], s.members[j]);
      }
    }
  }

  lemma {:induction false} ArrivalsSpare(s: State, org: nat, operationId: nat, ids: seq<nat>, operator: string, note: string, now: Time, i: nat)
    requires i < |s.members| && !(s.members[i].operationId == operationId && s.members[i].studentId in ids)
    ensures var t := ArriveAll(s, org, operationId, ids, operator, note, now);
            SameKeys(s.members, t.members) && t.members[i] == s.members[i]
  {
    if ids != [] {
      var init, id := ids[..|ids| - 1], ids[|ids| - 1];
      ArrivalsSpare(s, org, operationId, init, operator, note, now, i);
      ArriveOneSpares(ArriveAll(s, org, operationId, init, operator, note, now), s.members, org, operationId, id, operator, note, now, i);
    }
  }

  lemma BulkSpares(s: State, org: nat, operationId: nat, students: seq<nat>, operator: string, note: string, now: Time, i: nat)
    requires i < |s.members| && !(s.members[i].operationId == operationId && s.members[i].studentId in students)
    ensures Unmoved(s, BulkArrive(s, org, operationId, students, operator, note, now).state, i)
  {
    var ids := DistinctBy(students, Same());
    assert s.members[i].studentId in ids ==> s.members[i].studentId in students;
    var r := BulkArrive(s, org, operationId, students, operator, note, now);
    if r.result.Ok? { ArrivalsSpare(s, org, operationId, ids, operator, note, now, i); } else { assert r.state == s; }
  }

  lemma CorrectMoves(s: State, i: nat, eventId: nat, target: MemberStatus, operator: string, reason: string, now: Time)
    requires i < |s.members|
    ensures OnlyMember(s, Correct(s, i, eventId, target, operator, reason, now), i)
  {
  }

  lemma CorrectSpares(s: State, org: nat, operationId: nat, eventId: nat, target: MemberStatus, operator: string, reason: string, now: Time, i: nat)
    requires i < |s.members|
    requires s.members[i].operationId == operationId ==>
               forall k | 0 <= k < |s.events| && s.events[k].id == eventId :: s.events[k].studentId != s.members[i].studentId
    ensures Unmoved(s, CorrectEvent(s, org, operationId, eventId, target, operator, reason, now).state, i)
  {
    var r := CorrectEvent(s, org, operationId, eventId, target, operator, reason, now);
    if r.result.Ok? {
      var k := FirstIndex(s.events, EventKey(org, operationId, eventId)).value;
      var j := FirstIndex(s.members, MemberKey(org, operationId, s.events[k].studentId)).value;
      CorrectMoves(s, j, eventId, target, operator, reason, now);
      assert r.state == Correct(s, j, eventId, target, operator, reason, now) && j != i;
    } else {
      assert r.state == s;
    }
  }

  lemma QuietSpares(s: State, org: nat, c: Command, now: Time, i: nat)
    requires i < |s.members| && !c.CmdMark? && !c.CmdBulkArrive? && !c.CmdCorrect?
    ensures Unmoved(s, Step(s, org, c, now), i)
  {
    if Aside(c) { AsideFrame(s, org, c, now); }
    else if c.CmdNotify? { NotifyAllFrame(s, org, c.params, now); }
    else { QuietOnMembers(s, org, c, now, i); }
  }

  lemma QuietOnMembers(s: State, org: nat, c: Command, now: Time, i: nat)
    requires i < |s.members|
    requires c.CmdCreate? || c.CmdSetStatus? || c.CmdConfirm? || c.CmdHandoff? || c.CmdAddStudent? || c.CmdCompleteProfile?
    ensures Unmoved(s, Step(s, org, c, now), i)
  {
  }

  /** A call that spares a child leaves its status as it is. */
  lemma SparedStep(s: State, org: nat, c: Command, now: Time, i: nat)
    requires i < |s.members| && Spares(s, c, s.members[i].operationId, s.members[i].studentId)
    ensures Unmoved(s, Step(s, org, c, now), i)
  {
    match c
    case CmdMark(op, student, status, photo, operator, note) => MarkSpares(s, org, op, student, status, photo, operator, note, now, i);
    case CmdBulkArrive(op, students, operator, note) => BulkSpares(s, org, op, students, operator, note, now, i);
    case CmdCorrect(op, event, target, operator, reason) => CorrectSpares(s, org, op, event, target, operator, reason, now, i);
    case _ => QuietSpares(s, org, c, now, i);
  }

  lemma {:induction false} SparedRun(s: State, calls: seq<Call>, i: nat)
    requires i < |s.members| && SparesAll(s, calls, s.members[i].operationId, s.members[i].studentId)
    ensures Unmoved(s, Run(s, calls), i)
  {
    if calls != [] {
      var init, c := calls[..|calls| - 1], calls[|calls| - 1];
      SparedRun(s, init, i);
      SparedStep(Run(s, init), c.org, c.command, c.now, i);
    }
  }

  // ------------------------------------------- an unready child keeps it open

  /** Operation `o` is going on. */
  predicate Open(s: State, o: nat, org: nat, id: nat) {
    o < |s.operations| && s.operations[o].org == org && s.operations[o].id == id && s.operations[o].status == Started
  }

  /** Member `i` has not been marked since the operation started. */
  predicate Waiting(s: State, o: nat, org: nat, id: nat, i: nat) {
    Open(s, o, org, id) && i < |s.members| && s.members[i].operationId == id && s.members[i].status == Planned
  }

  /** A started operation stays started while one of its children is still planned. */
  lemma OpenStep(s: State, at: nat, c: Command, now: Time, o: nat, org: nat, id: nat, i: nat)
    requires History(s) && Waiting(s, o, org, id, i)
    ensures Open(Step(s, at, c, now), o, org, id)
  {
    if Aside(c) || c.CmdMark? || c.CmdBulkArrive? || c.CmdNotify? || c.CmdCorrect? { SameOperations(s, at, c, now); }
    else { OpenQuietStep(s, at, c, now, o, org, id, i); }
  }

  lemma SameOperations(s: State, at: nat, c: Command, now: Time)
    requires Aside(c) || c.CmdMark? || c.CmdBulkArrive? || c.CmdNotify? || c.CmdCorrect?
    ensures Step(s, at, c, now).operations == s.operations
  {
    if Aside(c) { AsideFrame(s, at, c, now); } else { NoEffect(s, at, c, now); }
  }

  lemma OpenQuietStep(s: State, at: nat, c: Command, now: Time, o: nat, org: nat, id: nat, i: nat)
    requires History(s) && Waiting(s, o, org, id, i)
    requires !Aside(c) && !c.CmdMark? && !c.CmdBulkArrive? && !c.CmdNotify? && !c.CmdCorrect?
    ensures Open(Step(s, at, c, now), o, org, id)
  {
    if c.CmdSetStatus? { assert UnreadyKey(id)(s.members[i]); }
  }

  lemma {:induction false} WaitingRun(s: State, calls: seq<Call>, o: nat, org: nat, id: nat, i: nat)
    requires History(s) && Waiting(s, o, org, id, i) && SparesAll(s, calls, id, s.members[i].studentId)
    ensures Waiting(Run(s, calls), o, org, id, i) && Unmoved(s, Run(s, calls), i)
  {
    SparedRun(s, calls, i);
    if calls != [] {
      var init, c := calls[..|calls| - 1], calls[|calls| - 1];
      WaitingRun(s, init, o, org, id, i);
      RunKeepsHistory(s, init);
      OpenStep(Run(s, init), c.org, c.command, c.now, o, org, id, i);
    }
  }

  // ------------------------------------------------- children who come later

  /** The operation has begun, and whoever of that name is on its list is still planned. */
  ghost predicate Fresh(s: State, o: nat, org: nat, id: nat, studentId: nat) {
    && o < |s.operations| && s.operations[o].id == id && s.operations[o].org == org && s.operations[o].status !in {Draft, Confirmed}
    && forall i | 0 <= i < |s.members| && Child(s.members[i], id, studentId) :: Waiting(s, o, org, id, i)
  }

  lemma BegunStep(s: State, at: nat, c: Command, now: Time, o: nat)
    requires o < |s.operations| && s.operations[o].status !in {Draft, Confirmed}
    ensures var t := Step(s, at, c, now);
            o < |t.operations| && t.operations[o].status !in {Draft, Confirmed}
            && t.operations[o].id == s.operations[o].id && t.operations[o].org == s.operations[o].org
  {
    var e := EffectOf(s, at, c, now);
    EffectStaysBegun(s, Step(s, at, c, now), e, o);
  }

  lemma EffectStaysBegun(s: State, t: State, e: OperationEffect, o: nat)
    requires HasEffect(s, t, e) && o < |s.operations| && s.operations[o].status !in {Draft, Confirmed}
    ensures o < |t.operations| && t.operations[o].status !in {Draft, Confirmed}
            && t.operations[o].id == s.operations[o].id && t.operations[o].org == s.operations[o].org
  {
  }

  /** A member that a call adds is planned, on a new operation or on one that is not over. */
  lemma AddedMember(s: State, at: nat, c: Command, now: Time, i: nat)
    requires |s.members| <= i < |Step(s, at, c, now).members|
    ensures var m := Step(s, at, c, now).members[i];
            && m.status == Planned
            && if c.CmdCreate? then m.operationId == s.nextId
               else Step(s, at, c, now).operations == s.operations
                    && var f := FirstIndex(s.operations, OperationKey(at, m.operationId));
                       f.Some? && s.operations[f.value].status !in {Finished, Cancelled}
  {
    if !c.CmdCreate? && !c.CmdAddStudent? { NoneAdded(s, at, c, now); }
  }

  lemma NoneAdded(s: State, at: nat, c: Command, now: Time)
    requires !c.CmdCreate? && !c.CmdAddStudent?
    ensures |Step(s, at, c, now).members| == |s.members|
  {
    if Aside(c) { AsideFrame(s, at, c, now); }
    else {
      match c
      case CmdMark(op, student, status, photo, operator, note) => MarkFrame(s, at, op, student, status, photo, operator, note, now);
      case CmdBulkArrive(op, ids, operator, note) => ArriveAllFrame(s, at, op, DistinctBy(ids, Same()), operator, note, now);
      case CmdNotify(params) => NotifyAllFrame(s, at, params, now);
      case _ => NoneAddedQuietly(s, at, c, now);
    }
  }

  lemma NoneAddedQuietly(s: State, at: nat, c: Command, now: Time)
    requires c.CmdSetStatus? || c.CmdConfirm? || c.CmdHandoff? || c.CmdCompleteProfile? || c.CmdCorrect?
    ensures |Step(s, at, c, now).members| == |s.members|
  {
  }

  lemma FreshStep(s: State, at: nat, c: Command, now: Time, o: nat, org: nat, id: nat, studentId: nat)
    requires History(s) && Fresh(s, o, org, id, studentId) && Spares(s, c, id, studentId)
    ensures Fresh(Step(s, at, c, now), o, org, id, studentId)
  {
    var t := Step(s, at, c, now);
    BegunStep(s, at, c, now, o);
    forall i | 0 <= i < |t.members| && Child(t.members[i], id, studentId) ensures Waiting(t, o, org, id, i) {
      if i < |s.members| {
        FreshChild(s, at, c, now, o, org, id, studentId, i);
      } else {
        AddedMember(s, at, c, now, i);
        AddedWaits(s, t, at, o, org, id, i);
      }
    }
  }

  lemma AddedWaits(s: State, t: State, at: nat, o: nat, org: nat, id: nat, i: nat)
    requires OperationsRise(s) && o < |s.operations| && s.operations[o].id == id && s.operations[o].org == org
    requires s.operations[o].status !in {Draft, Confirmed} && i < |t.members| && t.members[i].operationId == id && t.members[i].status == Planned
    requires id != s.nextId ==>
               t.operations == s.operations
               && var f := FirstIndex(s.operations, OperationKey(at, id)); f.Some? && s.operations[f.value].status !in {Finished, Cancelled}
    ensures Waiting(t, o, org, id, i)
  {
  }

  lemma FreshChild(s: State, at: nat, c: Command, now: Time, o: nat, org: nat, id: nat, studentId: nat, i: nat)
    requires History(s) && Fresh(s, o, org, id, studentId) && Spares(s, c, id, studentId)
    requires i < |s.members| && i < |Step(s, at, c, now).members| && Child(Step(s, at, c, now).members[i], id, studentId)
    ensures Waiting(Step(s, at, c, now), o, org, id, i)
  {
    GrownStep(s, at, c, now);
    assert SameKey(s.members[i], Step(s, at, c, now).members[i]);
    assert Child(s.members[i], id, studentId);
    SparedStep(s, at, c, now, i);
    OpenStep(s, at, c, now, o, org, id, i);
  }

  lemma {:induction false} FreshRun(s: State, calls: seq<Call>, o: nat, org: nat, id: nat, studentId: nat)
    requires History(s) && Fresh(s, o, org, id, studentId) && SparesAll(s, calls, id, studentId)
    ensures Fresh(Run(s, calls), o, org, id, studentId)
  {
    if calls != [] {
      var init, c := calls[..|calls| - 1], calls[|calls| - 1];
      FreshRun(s, init, o, org, id, studentId);
      RunKeepsHistory(s, init);
      FreshStep(Run(s, init), c.org, c.command, c.now, o, org, id, studentId);
    }
  }

  // ------------------------------------------------ the marks, amid other calls

  /** The handler's mark for a request. */
  function MarkFor(s: State, org: nat, id: nat, c: ChangeRequest, now: Time): Outcome<Member> {
    MarkStudent(s, org, id, c.studentId, c.requestedStatus, "", "老师", c.note, now)
  }

  /** Before mark k the calls `gaps[k]` happen; the handler stops at the first refusal. */
  function ApplyAmid(s: State, org: nat, id: nat, order: seq<ChangeRequest>, gaps: seq<seq<Call>>, now: Time): Outcome<()>
    requires |gaps| == |order|
  {
    if order == [] then Outcome(s, Ok(()))
    else
      var n := |order| - 1;
      var before := ApplyAmid(s, org, id, order[..n], gaps[..n], now);
      if before.result.Err? then before
      else
        Ended(MarkFor(Run(before.state, gaps[n]), org, id, order[n], now))
  }

  /** None of the calls in between touches the child. */
  ghost predicate SparesAmid(s: State, org: nat, id: nat, order: seq<ChangeRequest>, gaps: seq<seq<Call>>, now: Time, studentId: nat)
    requires |gaps| == |order|
  {
    order == [] ||
    var n := |order| - 1;
    var before := ApplyAmid(s, org, id, order[..n], gaps[..n], now);
    SparesAmid(s, org, id, order[..n], gaps[..n], now, studentId)
    && (before.result.Ok? ==> SparesAll(before.state, gaps[n], id, studentId))
  }

  ghost predicate Marks(order: seq<ChangeRequest>, studentId: nat) { exists k | 0 <= k < |order| :: order[k].studentId == studentId }

  ghost predicate OnceEach(order: seq<ChangeRequest>) {
    && (forall j, k | 0 <= j < k < |order| :: order[j].studentId != order[k].studentId)
    && (forall k | 0 <= k < |order| :: Requestable(order[k].requestedStatus))
  }

  /** The member a request is about, found where it stands. */
  lemma Located(s: State, o: nat, org: nat, id: nat, i: nat)
    requires History(s) && o < |s.operations| && s.operations[o].org == org && s.operations[o].id == id
    requires i < |s.members| && s.members[i].operationId == id
    ensures FirstIndex(s.operations, OperationKey(org, id)) == Some(o)
    ensures FirstIndex(s.members, MemberKey(org, id, s.members[i].studentId)) == Some(i)
  {
    assert OperationIn(s.operations, s.members[i].org, id);
    FirstIsOnly(s.operations, OperationKey(org, id), o);
    FirstIsOnly(s.members, MemberKey(org, id, s.members[i].studentId), i);
  }

  /** When a mark for a request is refused: exactly when the operation is no
      longer going on or the child's status admits no such step any more. */
  lemma {:induction false} WhenRefused(s: State, o: nat, org: nat, id: nat, i: nat, c: ChangeRequest, now: Time)
    requires History(s) && o < |s.operations| && s.operations[o].org == org && s.operations[o].id == id
    requires i < |s.members| && Child(s.members[i], id, c.studentId) && Requestable(c.requestedStatus)
    ensures MarkFor(s, org, id, c, now).result.Err?
       <==> s.operations[o].status != Started || !IsValidMemberTransition(s.members[i].status, c.requestedStatus)
  {
    Located(s, o, org, id, i);
  }

  lemma MarkWaiting(s: State, o: nat, org: nat, id: nat, i: nat, c: ChangeRequest, now: Time)
    requires History(s) && Waiting(s, o, org, id, i) && s.members[i].studentId == c.studentId && Requestable(c.requestedStatus)
    ensures var r := MarkFor(s, org, id, c, now);
            r.result.Ok? && i < |r.state.members| && SameKey(s.members[i], r.state.members[i])
            && r.state.members[i].status == c.requestedStatus
  {
    Located(s, o, org, id, i);
    ChangeFrame(s, i, c.requestedStatus, "", "老师", c.note, now);
  }

  /** The status a request of the child in `order` asks for. */
  ghost predicate AskedFor(order: seq<ChangeRequest>, studentId: nat, status: MemberStatus) {
    exists k | 0 <= k < |order| :: order[k].studentId == studentId && order[k].requestedStatus == status
  }

  /** Where a child that is left alone stands after the marks in `order`. */
  ghost predicate Follows(s: State, r: Outcome<()>, o: nat, org: nat, id: nat, i: nat, order: seq<ChangeRequest>) {
    && i < |s.members| && i < |r.state.members| && SameKey(s.members[i], r.state.members[i])
    && var student, status := s.members[i].studentId, r.state.members[i].status;
    && (r.result.Ok? ==> if Marks(order, student) then AskedFor(order, student, status) else Waiting(r.state, o, org, id, i))
    && (r.result.Err? ==> AskedFor(order, student, status) || Waiting(r.state, o, org, id, i))
  }

  lemma AskedInMore(order: seq<ChangeRequest>, n: nat, studentId: nat, status: MemberStatus)
    requires n <= |order| && AskedFor(order[..n], studentId, status)
    ensures AskedFor(order, studentId, status) && Marks(order, studentId)
  {
    var k :| 0 <= k < n && order[..n][k].studentId == studentId && order[..n][k].requestedStatus == status;
    assert order[k].studentId == studentId;
  }

  /** The mark of another child leaves this one waiting. */
  lemma OtherMark(s: State, o: nat, org: nat, id: nat, i: nat, c: ChangeRequest, now: Time)
    requires History(s) && Waiting(s, o, org, id, i) && s.members[i].studentId != c.studentId
    ensures var t := MarkFor(s, org, id, c, now).state; Waiting(t, o, org, id, i) && Unmoved(s, t, i)
  {
    MarkSpares(s, org, id, c.studentId, c.requestedStatus, "", "老师", c.note, now, i);
    OpenStep(s, org, CmdMark(id, c.studentId, c.requestedStatus, "", "老师", c.note), now, o, org, id, i);
  }

  function Ended(r: Outcome<Member>): Outcome<()> { Outcome(r.state, match r.result case Ok(_) => Ok(()) case Err(e) => Err(e)) }

  /** A child that has been marked keeps its status through the next mark. */
  lemma MarkedFollows(s: State, t: State, o: nat, org: nat, id: nat, i: nat, order: seq<ChangeRequest>, now: Time)
    requires order != [] && OnceEach(order) && Unmoved(s, s, i) && i < |t.members| && SameKey(s.members[i], t.members[i])
    requires s.members[i].operationId == id && AskedFor(order[..|order| - 1], s.members[i].studentId, t.members[i].status)
    ensures Follows(s, Ended(MarkFor(t, org, id, order[|order| - 1], now)), o, org, id, i, order)
  {
    var n, student := |order| - 1, s.members[i].studentId;
    var c := order[n];
    AskedInMore(order, n, student, t.members[i].status);
    var k :| 0 <= k < n && order[..n][k].studentId == student && order[..n][k].requestedStatus == t.members[i].status;
    assert order[k].studentId == student && order[k].studentId != c.studentId;
    MarkSpares(t, org, id, c.studentId, c.requestedStatus, "", "老师", c.note, now, i);
  }

  /** A child that is waiting is marked, or goes on waiting. */
  lemma WaitingFollows(s: State, t: State, o: nat, org: nat, id: nat, i: nat, order: seq<ChangeRequest>, now: Time)
    requires order != [] && OnceEach(order) && Unmoved(s, s, i) && History(t) && Waiting(t, o, org, id, i) && SameKey(s.members[i], t.members[i])
    requires !Marks(order[..|order| - 1], s.members[i].studentId)
    ensures Follows(s, Ended(MarkFor(t, org, id, order[|order| - 1], now)), o, org, id, i, order)
  {
    var n, student := |order| - 1, s.members[i].studentId;
    var c := order[n];
    if c.studentId == student {
      MarkWaiting(t, o, org, id, i, c, now);
    } else {
      OtherMark(t, o, org, id, i, c, now);
      forall k | 0 <= k < |order| ensures order[k].studentId != student { if k < n { assert order[..n][k] == order[k]; } }
    }
  }

  /** One gap and one mark more. */
  lemma FollowsOn(s: State, before: Outcome<()>, o: nat, org: nat, id: nat, i: nat, order: seq<ChangeRequest>, gap: seq<Call>, now: Time)
    requires order != [] && OnceEach(order) && Unmoved(s, s, i) && before.result.Ok? && History(before.state)
    requires s.members[i].operationId == id && Follows(s, before, o, org, id, i, order[..|order| - 1])
    requires SparesAll(before.state, gap, id, s.members[i].studentId)
    ensures Follows(s, Ended(MarkFor(Run(before.state, gap), org, id, order[|order| - 1], now)), o, org, id, i, order)
  {
    RunKeepsHistory(before.state, gap);
    SparedRun(before.state, gap, i);
    if Marks(order[..|order| - 1], s.members[i].studentId) {
      MarkedFollows(s, Run(before.state, gap), o, org, id, i, order, now);
    } else {
      WaitingRun(before.state, gap, o, org, id, i);
      WaitingFollows(s, Run(before.state, gap), o, org, id, i, order, now);
    }
  }

  lemma {:induction false} AmidKeepsHistory(s: State, org: nat, id: nat, order: seq<ChangeRequest>, gaps: seq<seq<Call>>, now: Time)
    requires History(s) && |gaps| == |order|
    ensures History(ApplyAmid(s, org, id, order, gaps, now).state)
  {
    if order != [] {
      var n := |order| - 1;
      AmidKeepsHistory(s, org, id, order[..n], gaps[..n], now);
      var before := ApplyAmid(s, org, id, order[..n], gaps[..n], now);
      RunKeepsHistory(before.state, gaps[n]);
      MarkKeepsHistory(Run(before.state, gaps[n]), org, id, order[n].studentId, order[n].requestedStatus, "", "老师", order[n].note, now);
    }
  }

  lemma {:induction false} SparedFollows(s: State, o: nat, org: nat, id: nat, order: seq<ChangeRequest>, gaps: seq<seq<Call>>, now: Time, i: nat)
    requires History(s) && Waiting(s, o, org, id, i) && OnceEach(order) && |gaps| == |order|
    requires SparesAmid(s, org, id, order, gaps, now, s.members[i].studentId)
    ensures Follows(s, ApplyAmid(s, org, id, order, gaps, now), o, org, id, i, order)
  {
    if order != [] {
      var n := |order| - 1;
      SparedFollows(s, o, org, id, order[..n], gaps[..n], now, i);
      var before := ApplyAmid(s, org, id, order[..n], gaps[..n], now);
      AmidKeepsHistory(s, org, id, order[..n], gaps[..n], now);
      if before.result.Ok? { FollowsOn(s, before, o, org, id, i, order, gaps[n], now); }
      else if AskedFor(order[..n], s.members[i].studentId, before.state.members[i].status) {
        AskedInMore(order, n, s.members[i].studentId, before.state.members[i].status);
      }
    }
  }

  /** Every child of the table is on the list, waiting. */
  ghost predicate AllWaiting(s: State, o: nat, org: nat, id: nat, order: seq<ChangeRequest>) {
    forall k | 0 <= k < |order| :: OneWaits(s, o, org, id, order[k].studentId)
  }

  ghost predicate OneWaits(s: State, o: nat, org: nat, id: nat, studentId: nat) {
    exists i | 0 <= i < |s.members| :: s.members[i].studentId == studentId && Waiting(s, o, org, id, i)
  }

  ghost predicate AllSpared(s: State, org: nat, id: nat, order: seq<ChangeRequest>, gaps: seq<seq<Call>>, now: Time)
    requires |gaps| == |order|
  {
    forall k | 0 <= k < |order| :: SparesAmid(s, org, id, order, gaps, now, order[k].studentId)
  }

  /** If nobody else touches the children of the table, no mark is refused. */
  lemma {:induction false} SparedSucceeds(s: State, o: nat, org: nat, id: nat, order: seq<ChangeRequest>, gaps: seq<seq<Call>>, now: Time)
    requires History(s) && OnceEach(order) && |gaps| == |order| && AllWaiting(s, o, org, id, order)
    requires AllSpared(s, org, id, order, gaps, now)
    ensures ApplyAmid(s, org, id, order, gaps, now).result.Ok?
  {
    if order != [] {
      var n := |order| - 1;
      forall k | 0 <= k < n ensures order[..n][k] == order[k] && OneWaits(s, o, org, id, order[k].studentId)
        && SparesAmid(s, org, id, order[..n], gaps[..n], now, order[k].studentId)
      {
        assert SparesAmid(s, org, id, order, gaps, now, order[k].studentId);
      }
      SparedSucceeds(s, o, org, id, order[..n], gaps[..n], now);
      LastSucceeds(s, o, org, id, order, gaps, now);
    }
  }

  /** The child of the last request is still waiting when its turn comes. */
  lemma LastWaits(s: State, o: nat, org: nat, id: nat, order: seq<ChangeRequest>, before: Outcome<()>, i: nat)
    requires order != [] && OnceEach(order) && i < |s.members| && s.members[i].studentId == order[|order| - 1].studentId
    requires before.result.Ok? && Follows(s, before, o, org, id, i, order[..|order| - 1])
    ensures Waiting(before.state, o, org, id, i) && before.state.members[i].studentId == order[|order| - 1].studentId
  {
    var n := |order| - 1;
    forall k | 0 <= k < n ensures order[..n][k].studentId != order[n].studentId { assert order[..n][k] == order[k]; }
  }

  lemma LastSucceeds(s: State, o: nat, org: nat, id: nat, order: seq<ChangeRequest>, gaps: seq<seq<Call>>, now: Time)
    requires History(s) && OnceEach(order) && |gaps| == |order| && order != []
    requires var last := order[|order| - 1].studentId;
             OneWaits(s, o, org, id, last) && SparesAmid(s, org, id, order, gaps, now, last)
    requires ApplyAmid(s, org, id, order[..|order| - 1], gaps[..|order| - 1], now).result.Ok?
    ensures ApplyAmid(s, org, id, order, gaps, now).result.Ok?
  {
    var n := |order| - 1;
    var before := ApplyAmid(s, org, id, order[..n], gaps[..n], now);
    var i :| 0 <= i < |s.members| && s.members[i].studentId == order[n].studentId && Waiting(s, o, org, id, i);
    SparedFollows(s, o, org, id, order[..n], gaps[..n], now, i);
    LastWaits(s, o, org, id, order, before, i);
    AmidKeepsHistory(s, org, id, order[..n], gaps[..n], now);
    MarkAfterGap(before.state, gaps[n], o, org, id, i, order[n], now);
  }

  lemma MarkAfterGap(s: State, gap: seq<Call>, o: nat, org: nat, id: nat, i: nat, c: ChangeRequest, now: Time)
    requires History(s) && Waiting(s, o, org, id, i) && s.members[i].studentId == c.studentId && Requestable(c.requestedStatus)
    requires SparesAll(s, gap, id, c.studentId)
    ensures MarkFor(Run(s, gap), org, id, c, now).result.Ok?
  {
    RunKeepsHistory(s, gap);
    WaitingRun(s, gap, o, org, id, i);
    MarkWaiting(Run(s, gap), o, org, id, i, c, now);
  }

  // ------------------------------------------------------------ main result

  /** The state right after the start, and the one in which the handler reads the requests. */
  function StartedState(past: seq<Call>, org: nat, id: nat, now: Time): State {
    SetOperationStatus(Run(INIT, past), org, id, Started, now).state
  }

  lemma StartedIsSound(past: seq<Call>, org: nat, id: nat, o: nat, now: Time, studentId: nat)
    requires var s := Run(INIT, past);
             FirstIndex(s.operations, OperationKey(org, id)) == Some(o) && s.operations[o].status in {Draft, Confirmed}
    ensures var t := StartedState(past, org, id, now); History(t) && RequestsSound(t) && Fresh(t, o, org, id, studentId)
  {
    var s, t := Run(INIT, past), StartedState(past, org, id, now);
    RunKeepsHistory(INIT, past);
    RunKeepsRequestsSound(INIT, past);
    StepKeepsHistory(s, org, CmdSetStatus(id, Started), now);
    GrownStep(s, org, CmdSetStatus(id, Started), now);
    forall i | 0 <= i < |t.requests| ensures Sound(t, t.requests[i]) { SoundKept(s, t, s.requests[i]); }
    forall i | 0 <= i < |t.members| && Child(t.members[i], id, studentId) ensures Waiting(t, o, org, id, i) {
      PlannedBeforeStart(s, o, i);
    }
  }

  /** Nobody but the handler touches the child between the start and the end of the marks. */
  ghost predicate LeftAlone(started: State, first: seq<Call>, org: nat, id: nat, order: seq<ChangeRequest>, gaps: seq<seq<Call>>, now: Time,
                            studentId: nat)
    requires |gaps| == |order|
  {
    SparesAll(started, first, id, studentId) && SparesAmid(Run(started, first), org, id, order, gaps, now, studentId)
  }

  /** A child that is left alone ends as it should: with its latest approved
      request's status, or planned; planned also when the handler gave up before its turn. */
  ghost predicate EndsRight(read: State, r: Outcome<()>, id: nat, i: nat)
    requires i < |read.members|
  {
    i < |r.state.members| &&
    var status := r.state.members[i].status;
    status == StatusAtStart(read, id, read.members[i]) || (r.result.Err? && status == Planned)
  }

  lemma AskedIsLatest(read: State, id: nat, order: seq<ChangeRequest>, m: Member, status: MemberStatus)
    requires ListsLatest(read, id, order) && AskedFor(order, m.studentId, status)
    ensures StatusAtStart(read, id, m) == status
  {
  }

  lemma AloneEndsRight(started: State, first: seq<Call>, o: nat, org: nat, id: nat, order: seq<ChangeRequest>, gaps: seq<seq<Call>>,
                       now: Time, i: nat)
    requires var read := Run(started, first);
             History(started) && |gaps| == |order| && ListsLatest(read, id, order) && OnceEach(order)
             && i < |read.members| && read.members[i].operationId == id
             && Fresh(started, o, org, id, read.members[i].studentId)
             && LeftAlone(started, first, org, id, order, gaps, now, read.members[i].studentId)
    ensures EndsRight(Run(started, first), ApplyAmid(Run(started, first), org, id, order, gaps, now), id, i)
  {
    var read := Run(started, first);
    var m, r := read.members[i], ApplyAmid(read, org, id, order, gaps, now);
    RunKeepsHistory(started, first);
    FreshRun(started, first, o, org, id, m.studentId);
    SparedFollows(read, o, org, id, order, gaps, now, i);
    if AskedFor(order, m.studentId, r.state.members[i].status) {
      AskedIsLatest(read, id, order, m, r.state.members[i].status);
    } else if r.result.Ok? {
      assert LatestApproved(read, id, m.studentId).None?;
    }
  }

  lemma {:induction false} PlaceKept(s: State, calls: seq<Call>, o: nat)
    requires o < |s.operations|
    ensures o < |Run(s, calls).operations| && SameDay(s.operations[o], Run(s, calls).operations[o])
  {
    if calls != [] {
      var init, c := calls[..|calls| - 1], calls[|calls| - 1];
      PlaceKept(s, init, o);
      GrownStep(Run(s, init), c.org, c.command, c.now);
    }
  }

  /** The table the handler reads names children on the list and statuses a planned child may take. */
  lemma TableIsSound(started: State, first: seq<Call>, o: nat, org: nat, id: nat, order: seq<ChangeRequest>)
    requires History(started) && RequestsSound(started) && ListsLatest(Run(started, first), id, order)
    requires o < |started.operations| && started.operations[o].org == org && started.operations[o].id == id
    ensures Applicable(Run(started, first), org, id, order) && OnceEach(order)
  {
    var read := Run(started, first);
    RunKeepsHistory(started, first);
    RunKeepsRequestsSound(started, first);
    PlaceKept(started, first, o);
    FirstIsOnly(read.operations, OperationKey(org, id), o);
    RequestsOfOperation(read, org, id, o);
    LatestApplicable(read, org, id, order);
  }

  lemma TableWaits(started: State, first: seq<Call>, o: nat, org: nat, id: nat, order: seq<ChangeRequest>)
    requires History(started) && Applicable(Run(started, first), org, id, order)
    requires forall k | 0 <= k < |order| ::
               Fresh(started, o, org, id, order[k].studentId) && SparesAll(started, first, id, order[k].studentId)
    ensures AllWaiting(Run(started, first), o, org, id, order)
  {
    var read := Run(started, first);
    forall k | 0 <= k < |order| ensures OneWaits(read, o, org, id, order[k].studentId) {
      FreshRun(started, first, o, org, id, order[k].studentId);
      var i := FirstIndex(read.members, MemberKey(org, id, order[k].studentId)).value;
      assert Child(read.members[i], id, order[k].studentId);
    }
  }

  /** In every run, whatever calls come between the start, the reading of the
      requests (`first`) and each mark (`gaps`): a child nobody else touches ends
      with its latest approved request's status, or planned; and if nobody else
      touches a child of the table, the handler succeeds. */
  lemma {:induction false} StartAmidOtherCalls(past: seq<Call>, org: nat, id: nat, o: nat, first: seq<Call>, order: seq<ChangeRequest>,
                                               gaps: seq<seq<Call>>, now: Time)
    requires var s := Run(INIT, past);
             FirstIndex(s.operations, OperationKey(org, id)) == Some(o) && s.operations[o].status in {Draft, Confirmed}
    requires |gaps| == |order| && ListsLatest(Run(StartedState(past, org, id, now), first), id, order)
    ensures var started := StartedState(past, org, id, now); var read := Run(started, first);
            var r := ApplyAmid(read, org, id, order, gaps, now);
            && (forall i | 0 <= i < |read.members| && read.members[i].operationId == id
                           && LeftAlone(started, first, org, id, order, gaps, now, read.members[i].studentId) :: EndsRight(read, r, id, i))
            && ((forall k | 0 <= k < |order| :: LeftAlone(started, first, org, id, order, gaps, now, order[k].studentId)) ==> r.result.Ok?)
  {
    var started := StartedState(past, org, id, now);
    var read := Run(started, first);
    StartedIsSound(past, org, id, o, now, 0);
    TableIsSound(started, first, o, org, id, order);
    forall i | 0 <= i < |read.members| && read.members[i].operationId == id
               && LeftAlone(started, first, org, id, order, gaps, now, read.members[i].studentId)
      ensures EndsRight(read, ApplyAmid(read, org, id, order, gaps, now), id, i)
    {
      StartedIsSound(past, org, id, o, now, read.members[i].studentId);
      AloneEndsRight(started, first, o, org, id, order, gaps, now, i);
    }
    if forall k | 0 <= k < |order| :: LeftAlone(started, first, org, id, order, gaps, now, order[k].studentId) {
      AllAlone(past, org, id, o, first, order, gaps, now);
    }
  }

  lemma AllAlone(past: seq<Call>, org: nat, id: nat, o: nat, first: seq<Call>, order: seq<ChangeRequest>, gaps: seq<seq<Call>>, now: Time)
    requires var s := Run(INIT, past);
             FirstIndex(s.operations, OperationKey(org, id)) == Some(o) && s.operations[o].status in {Draft, Confirmed}
    requires var started := StartedState(past, org, id, now);
             |gaps| == |order| && Applicable(Run(started, first), org, id, order) && OnceEach(order)
             && forall k | 0 <= k < |order| :: LeftAlone(started, first, org, id, order, gaps, now, order[k].studentId)
    ensures ApplyAmid(Run(StartedState(past, org, id, now), first), org, id, order, gaps, now).result.Ok?
  {
    var started := StartedState(past, org, id, now);
    StartedIsSound(past, org, id, o, now, 0);
    RunKeepsHistory(started, first);
    forall k | 0 <= k < |order|
      ensures Fresh(started, o, org, id, order[k].studentId) && SparesAll(started, first, id, order[k].studentId)
      ensures SparesAmid(Run(started, first), org, id, order, gaps, now, order[k].studentId)
    {
      StartedIsSound(past, org, id, o, now, order[k].studentId);
      assert LeftAlone(started, first, org, id, order, gaps, now, order[k].studentId);
    }
    TableWaits(started, first, o, org, id, order);
    SparedSucceeds(Run(started, first), o, org, id, order, gaps, now);
  }
}

/** Starting an operation applies the parents' approved changes. */
module PickupStart {
  import opened Common
  import opened PickupModel
  import opened PickupSpec
  import opened PickupBatch
  import opened PickupRuns
  import opened PickupHistory
  import opened PickupFinish
  import opened PickupStore

  // ---------------------------------------------- filing a parent's request

  /** The day's first operation that has the child on its list. */
  method FindOperationOf(store: MemoryStore, org: nat, date: Day, studentId: nat) returns (operationId: Option<nat>)
    ensures operationId == OperationFor(store.View(), org, date, studentId)
  {
    operationId := None;
    for i := 0 to |store.operations|
      invariant operationId.None?
      invariant forall j | 0 <= j < i :: !CoversKey(store.members, org, date, studentId)(store.operations[j])
    {
      var operation := store.operations[i];
      if operation.org != org || operation.date != date {
        continue;
      }
      var member := Scan(store.members, MemberKey(org, operation.id, studentId));
      if member.Some? {
        return Some(operation.id);
      }
    }
  }

  /** The parent's handler: find the day's operation the child is on, then file. */
  method SubmitChangeRequest(store: MemoryStore, org: nat, studentId: nat, date: Day, requested: MemberStatus, note: string)
    returns (result: Result<ChangeRequest>)
    modifies store
    ensures Outcome(store.View(), result) == SubmitChange(old(store.View()), org, studentId, date, requested, note)
  {
    if !Requestable(requested) || Trim(note) == "" {
      return Err(InvalidInput);
    }
    var operationId := FindOperationOf(store, org, date, studentId);
    result := store.CreateRequest(org, studentId, operationId, date, requested, note, "parent");
  }

  // ------------------------------------------------- what the requests keep

  /** A filed request names a member of an operation of its day, and a status a planned member may take. */
  ghost predicate Sound(s: State, r: ChangeRequest) {
    r.operationId.Some? ==>
      && Requestable(r.requestedStatus)
      && FirstIndex(s.members, MemberKey(r.org, r.operationId.value, r.studentId)).Some?
      && exists k | 0 <= k < |s.operations| :: FiledUnder(s.operations[k], r)
  }

  predicate FiledUnder(o: Operation, r: ChangeRequest) {
    r.operationId == Some(o.id) && o.org == r.org && o.date == r.changeDate
  }

  ghost predicate RequestsSound(s: State) { forall i | 0 <= i < |s.requests| :: Sound(s, s.requests[i]) }

  /** Members and operations only grow, and keep who and when they are for. */
  ghost predicate Grown(s: State, t: State) {
    && |s.members| <= |t.members| && (forall i | 0 <= i < |s.members| :: SameKey(s.members[i], t.members[i]))
    && |s.operations| <= |t.operations| && (forall k | 0 <= k < |s.operations| :: SameDay(s.operations[k], t.operations[k]))
  }

  predicate SameDay(a: Operation, b: Operation) { a.id == b.id && a.org == b.org && a.date == b.date }

  lemma SoundKept(s: State, t: State, r: ChangeRequest)
    requires Grown(s, t) && Sound(s, r)
    ensures Sound(t, r)
  {
    if r.operationId.Some? {
      var i := FirstIndex(s.members, MemberKey(r.org, r.operationId.value, r.studentId)).value;
      assert SameKey(s.members[i], t.members[i]);
      assert MemberKey(r.org, r.operationId.value, r.studentId)(t.members[i]);
      var k :| 0 <= k < |s.operations| && FiledUnder(s.operations[k], r);
      assert SameDay(s.operations[k], t.operations[k]) && FiledUnder(t.operations[k], r);
    }
  }

  lemma GrownStep(s: State, org: nat, c: Command, now: Time)
    ensures Grown(s, Step(s, org, c, now))
  {
    if Aside(c) { AsideFrame(s, org, c, now); }
    else {
      match c
      case CmdMark(op, student, status, photo, operator, note) => GrownMark(s, org, op, student, status, photo, operator, note, now);
      case CmdBulkArrive(op, ids, operator, note) => GrownBulk(s, org, op, ids, operator, note, now);
      case CmdNotify(params) => NotifyAllFrame(s, org, params, now);
      case _ => GrownPlainStep(s, org, c, now);
    }
  }

  lemma GrownMark(s: State, org: nat, operationId: nat, studentId: nat, status: MemberStatus, photo: string, operator: string, note: string, now: Time)
    ensures Grown(s, MarkStudent(s, org, operationId, studentId, status, photo, operator, note, now).state)
  {
    MarkFrame(s, org, operationId, studentId, status, photo, operator, note, now);
  }

  lemma GrownArrivals(s: State, org: nat, operationId: nat, ids: seq<nat>, operator: string, note: string, now: Time)
    ensures Grown(s, ArriveAll(s, org, operationId, ids, operator, note, now))
  {
    ArriveAllFrame(s, org, operationId, ids, operator, note, now);
  }

  lemma GrownBulk(s: State, org: nat, operationId: nat, ids: seq<nat>, operator: string, note: string, now: Time)
    ensures Grown(s, BulkArrive(s, org, operationId, ids, operator, note, now).state)
  {
    var r := BulkArrive(s, org, operationId, ids, operator, note, now);
    if r.result.Ok? { GrownArrivals(s, org, operationId, DistinctBy(ids, Same()), operator, note, now); } else { assert r.state == s; }
  }

  lemma GrownPlainStep(s: State, org: nat, c: Command, now: Time)
    requires !Aside(c) && !c.CmdMark? && !c.CmdBulkArrive? && !c.CmdNotify?
    ensures Grown(s, Step(s, org, c, now))
  {
    if c.CmdAddStudent? || c.CmdCompleteProfile? { GrownMemberStep(s, org, c, now); }
    else if c.CmdCorrect? { GrownCorrectStep(s, org, c, now); }
    else if c.CmdCreate? { GrownCreateStep(s, org, c, now); }
    else { GrownOperationStep(s, org, c, now); }
  }

  lemma GrownMemberStep(s: State, org: nat, c: Command, now: Time)
    requires c.CmdAddStudent? || c.CmdCompleteProfile?
    ensures Grown(s, Step(s, org, c, now))
  {
  }

  lemma GrownCorrectStep(s: State, org: nat, c: Command, now: Time)
    requires c.CmdCorrect?
    ensures Grown(s, Step(s, org, c, now))
  {
  }

  lemma GrownCreateStep(s: State, org: nat, c: Command, now: Time)
    requires c.CmdCreate?
    ensures Grown(s, Step(s, org, c, now))
  {
  }

  lemma GrownOperationStep(s: State, org: nat, c: Command, now: Time)
    requires c.CmdSetStatus? || c.CmdConfirm? || c.CmdHandoff?
    ensures Grown(s, Step(s, org, c, now))
  {
  }

  lemma {:induction false} ArrivalsKeepRequests(s: State, org: nat, operationId: nat, ids: seq<nat>, operator: string, note: string, now: Time)
    ensures ArriveAll(s, org, operationId, ids, operator, note, now).requests == s.requests
  {
    if ids != [] { ArrivalsKeepRequests(s, org, operationId, ids[..|ids| - 1], operator, note, now); }
  }

  lemma RequestsUntouched(s: State, org: nat, c: Command, now: Time)
    requires !c.CmdSubmitChange? && !c.CmdReview?
    ensures Step(s, org, c, now).requests == s.requests
  {
    if c.CmdBulkArrive? || c.CmdNotify? { RequestsUntouchedByLoops(s, org, c, now); }
    else if c.CmdMark? || c.CmdCorrect? || c.CmdAddStudent? || c.CmdCompleteProfile? || c.CmdCreate? { RequestsUntouchedByMarks(s, org, c, now); }
  }

  lemma RequestsUntouchedByMarks(s: State, org: nat, c: Command, now: Time)
    requires c.CmdMark? || c.CmdCorrect? || c.CmdAddStudent? || c.CmdCompleteProfile? || c.CmdCreate?
    ensures Step(s, org, c, now).requests == s.requests
  {
  }

  lemma RequestsUntouchedByLoops(s: State, org: nat, c: Command, now: Time)
    requires c.CmdBulkArrive? || c.CmdNotify?
    ensures Step(s, org, c, now).requests == s.requests
  {
    match c
    case CmdBulkArrive(op, ids, operator, note) => ArrivalsKeepRequests(s, org, op, DistinctBy(ids, Same()), operator, note, now);
    case CmdNotify(params) => NotifyAllFrame(s, org, params, now);
  }

  lemma SubmittedIsSound(s: State, org: nat, studentId: nat, date: Day, requested: MemberStatus, note: string)
    requires RequestsSound(s)
    ensures RequestsSound(SubmitChange(s, org, studentId, date, requested, note).state)
  {
    var r := SubmitChange(s, org, studentId, date, requested, note);
    if r.result.Ok? {
      var k := FirstIndex(s.operations, CoversKey(s.members, org, date, studentId));
      if k.Some? { assert FiledUnder(s.operations[k.value], r.result.value); }
      assert Sound(s, r.result.value);
      forall i | 0 <= i < |r.state.requests| ensures Sound(r.state, r.state.requests[i]) {
        if i < |s.requests| { SoundKept(s, r.state, s.requests[i]); } else { SoundKept(s, r.state, r.result.value); }
      }
    }
  }

  lemma ReviewedIsSound(s: State, org: nat, id: nat, status: RequestStatus, reviewer: Option<nat>, note: string, now: Time)
    requires RequestsSound(s)
    ensures RequestsSound(ReviewRequest(s, org, id, status, reviewer, note, now).state)
  {
    var t := ReviewRequest(s, org, id, status, reviewer, note, now).state;
    forall i | 0 <= i < |t.requests| ensures Sound(t, t.requests[i]) {
      SoundKept(s, t, s.requests[i]);
      if t.requests[i].operationId.Some? {
        var k :| 0 <= k < |t.operations| && FiledUnder(t.operations[k], s.requests[i]);
        assert FiledUnder(t.operations[k], t.requests[i]);
      }
    }
  }

  lemma {:induction false} RunKeepsRequestsSound(s: State, calls: seq<Call>)
    requires RequestsSound(s)
    ensures RequestsSound(Run(s, calls))
  {
    if calls != [] {
      var init, c := calls[..|calls| - 1], calls[|calls| - 1];
      RunKeepsRequestsSound(s, init);
      var mid, t := Run(s, init), Run(s, calls);
      match c.command
      case CmdSubmitChange(student, date, requested, note) => SubmittedIsSound(mid, c.org, student, date, requested, note);
      case CmdReview(id, review, reviewer, note) => ReviewedIsSound(mid, c.org, id, review, reviewer, note, c.now);
      case _ =>
        RequestsUntouched(mid, c.org, c.command, c.now);
        GrownStep(mid, c.org, c.command, c.now);
        forall i | 0 <= i < |t.requests| ensures Sound(t, t.requests[i]) { SoundKept(mid, t, mid.requests[i]); }
    }
  }

  // ------------------------------------------------------ applying at start

  function ApprovedKey(org: nat, date: Day): ChangeRequest -> bool {
    (r: ChangeRequest) => r.org == org && r.changeDate == date && r.status == Approved
  }

  function ApprovedFor(operationId: nat, studentId: nat): ChangeRequest -> bool {
    (r: ChangeRequest) => r.operationId == Some(operationId) && r.studentId == studentId && r.status == Approved
  }

  /** The request is approved, and for that child in that operation. */
  ghost predicate Asks(r: ChangeRequest, operationId: nat, studentId: nat) {
    r.status == Approved && r.operationId == Some(operationId) && r.studentId == studentId
  }

  /** The most recently filed approved request of a child for an operation. */
  function LatestApproved(s: State, operationId: nat, studentId: nat): (r: Option<ChangeRequest>)
    ensures r.Some? ==> exists i | 0 <= i < |s.requests| ::
              s.requests[i] == r.value && Asks(r.value, operationId, studentId)
              && forall j | i < j < |s.requests| :: !Asks(s.requests[j], operationId, studentId)
    ensures r.None? ==> forall i | 0 <= i < |s.requests| :: !Asks(s.requests[i], operationId, studentId)
  {
    match LastIndex(s.requests, ApprovedFor(operationId, studentId))
    case None => None
    case Some(i) => Some(s.requests[i])
  }

  /** Marking the requested statuses one by one, up to the first refusal. */
  function ApplyAll(s: State, org: nat, operationId: nat, order: seq<ChangeRequest>, now: Time): Outcome<()> {
    if order == [] then Outcome(s, Ok(()))
    else
      var before := ApplyAll(s, org, operationId, order[..|order| - 1], now);
      if before.result.Err? then before
      else
        var c := order[|order| - 1];
        var r := MarkStudent(before.state, org, operationId, c.studentId, c.requestedStatus, "", "老师", c.note, now);
        Outcome(r.state, match r.result case Ok(_) => Ok(()) case Err(e) => Err(e))
  }

  /** `order` lists some children's latest approved requests, each child once. */
  ghost predicate FromLatest(s: State, operationId: nat, order: seq<ChangeRequest>) {
    && (forall k | 0 <= k < |order| :: LatestApproved(s, operationId, order[k].studentId) == Some(order[k]))
    && (forall j, k | 0 <= j < k < |order| :: order[j].studentId != order[k].studentId)
  }

  /** `order` lists each child's latest approved request once. */
  ghost predicate ListsLatest(s: State, operationId: nat, order: seq<ChangeRequest>) {
    && FromLatest(s, operationId, order)
    && (forall student | LatestApproved(s, operationId, student).Some? ::
          exists k | 0 <= k < |order| :: order[k].studentId == student)
  }

  function StartThenApply(s: State, org: nat, id: nat, order: seq<ChangeRequest>, now: Time): Outcome<()> {
    var started := SetOperationStatus(s, org, id, Started, now);
    match started.result
    case Err(e) => Outcome(s, Err(e))
    case Ok(_) => ApplyAll(started.state, org, id, order, now)
  }

  /** The table the handler fills from the newest request to the oldest, keeping the first of each child. */
  method LatestByStudent(store: MemoryStore, org: nat, operation: Operation) returns (latest: map<nat, ChangeRequest>)
    requires forall i | 0 <= i < |store.requests| && store.requests[i].operationId == Some(operation.id) ::
               store.requests[i].org == org && store.requests[i].changeDate == operation.date
    ensures forall student :: student in latest <==> LatestApproved(store.View(), operation.id, student).Some?
    ensures forall student | student in latest ::
              LatestApproved(store.View(), operation.id, student) == Some(latest[student]) && latest[student].studentId == student
  {
    latest := map[];
    for i := |store.requests| downto 0
      invariant forall student | student in latest ::
                  latest[student].studentId == student && exists j | i <= j < |store.requests| ::
                    store.requests[j] == latest[student] && ApprovedFor(operation.id, student)(store.requests[j])
                    && forall l | j < l < |store.requests| :: !ApprovedFor(operation.id, student)(store.requests[l])
      invariant forall j | i <= j < |store.requests| ::
                  store.requests[j].operationId == Some(operation.id) && store.requests[j].status == Approved ==> store.requests[j].studentId in latest
    {
      var change := store.requests[i];
      if !ApprovedKey(org, operation.date)(change) || change.operationId != Some(operation.id) || change.studentId in latest {
        continue;
      }
      latest := latest[change.studentId := change];
    }
    forall student | student in latest ensures LatestApproved(store.View(), operation.id, student) == Some(latest[student]) {
      var f := LastIndex(store.requests, ApprovedFor(operation.id, student));
      var j :| 0 <= j < |store.requests| && store.requests[j] == latest[student] && ApprovedFor(operation.id, student)(store.requests[j])
        && forall l | j < l < |store.requests| :: !ApprovedFor(operation.id, student)(store.requests[l]);
      assert f.Some?;
      assert f.value == j;
    }
  }

  /** The start handler.  The loop over the table may visit the children in any
      order.  It succeeds exactly when the operation was a draft or confirmed. */
  method StartOperation(store: MemoryStore, org: nat, id: nat, now: Time) returns (result: Result<()>, order: seq<ChangeRequest>)
    requires RequestsSound(store.View()) && History(store.View())
    modifies store
    ensures Outcome(store.View(), result) == StartThenApply(old(store.View()), org, id, order, now)
    ensures result.Ok? <==> var o := FirstIndex(old(store.operations), OperationKey(org, id));
                            o.Some? && old(store.operations)[o.value].status in {Draft, Confirmed}
    ensures result.Ok? ==> ListsLatest(old(store.View()), id, order) && StartedFrom(old(store.View()), store.View(), id)
  {
    order := [];
    var found := Scan(store.operations, OperationKey(org, id));
    if found.None? {
      return Err(NotFound), order;
    }
    var operation := store.operations[found.value];
    var started := store.SetOperationStatus(org, id, Started, now);
    if started.Err? {
      return Err(started.error), order;
    }
    RequestsOfOperation(old(store.View()), org, id, found.value);
    var latest := LatestByStudent(store, org, operation);
    result, order := ApplyTable(store, org, id, latest, now);
    TableIsFromLatest(old(store.View()), id, latest, order);
    StartSucceeds(old(store.View()), org, id, found.value, order, now);
    TableListsLatest(old(store.View()), id, latest, order);
    StartFrom(old(store.View()), org, id, found.value, order, now);
  }

  /** Entries of the table, no key twice. */
  ghost predicate FromTable(latest: map<nat, ChangeRequest>, order: seq<ChangeRequest>) {
    && (forall k | 0 <= k < |order| :: order[k].studentId in latest && order[k] == latest[order[k].studentId])
    && (forall j, k | 0 <= j < k < |order| :: order[j].studentId != order[k].studentId)
  }

  /** Each key of the table once. */
  ghost predicate ListsTable(latest: map<nat, ChangeRequest>, order: seq<ChangeRequest>) {
    && FromTable(latest, order)
    && (forall student | student in latest :: exists k | 0 <= k < |order| :: order[k].studentId == student)
  }

  lemma TableIsFromLatest(s: State, id: nat, latest: map<nat, ChangeRequest>, order: seq<ChangeRequest>)
    requires FromTable(latest, order)
    requires forall student | student in latest :: LatestApproved(s, id, student) == Some(latest[student])
    ensures FromLatest(s, id, order)
  {
  }

  lemma TableListsLatest(s: State, id: nat, latest: map<nat, ChangeRequest>, order: seq<ChangeRequest>)
    requires ListsTable(latest, order)
    requires forall student :: student in latest <==> LatestApproved(s, id, student).Some?
    requires forall student | student in latest :: LatestApproved(s, id, student) == Some(latest[student])
    ensures ListsLatest(s, id, order)
  {
  }

  /** All of the table but what is pending, each key once. */
  ghost predicate Visited(latest: map<nat, ChangeRequest>, pending: set<nat>, order: seq<ChangeRequest>) {
    && (forall k | 0 <= k < |order| ::
          order[k].studentId in latest && order[k].studentId !in pending && order[k] == latest[order[k].studentId])
    && (forall j, k | 0 <= j < k < |order| :: order[j].studentId != order[k].studentId)
    && (forall student | student in latest && student !in pending :: exists k | 0 <= k < |order| :: order[k].studentId == student)
  }

  lemma VisitOne(latest: map<nat, ChangeRequest>, pending: set<nat>, order: seq<ChangeRequest>, student: nat)
    requires Visited(latest, pending, order) && student in pending && student in latest && latest[student].studentId == student
    ensures Visited(latest, pending - {student}, order + [latest[student]])
  {
    var all := order + [latest[student]];
    forall x | x in latest && x !in pending - {student} ensures exists k | 0 <= k < |all| :: all[k].studentId == x {
      if x == student { assert all[|order|].studentId == x; }
      else {
        var k :| 0 <= k < |order| && order[k].studentId == x;
        assert all[k].studentId == x;
      }
    }
  }

  method ApplyTable(store: MemoryStore, org: nat, id: nat, latest: map<nat, ChangeRequest>, now: Time)
    returns (result: Result<()>, order: seq<ChangeRequest>)
    requires forall student | student in latest :: latest[student].studentId == student
    modifies store
    ensures Outcome(store.View(), result) == ApplyAll(old(store.View()), org, id, order, now)
    ensures FromTable(latest, order) && (result.Ok? ==> ListsTable(latest, order))
  {
    order := [];
    var pending := latest.Keys;
    while pending != {}
      invariant pending <= latest.Keys
      invariant Outcome(store.View(), Ok(())) == ApplyAll(old(store.View()), org, id, order, now)
      invariant Visited(latest, pending, order)
      decreases |pending|
    {
      var student :| student in pending;
      VisitOne(latest, pending, order, student);
      pending := pending - {student};
      var change := latest[student];
      ghost var before, applied := store.View(), order;
      var marked := store.MarkStudent(org, id, change.studentId, change.requestedStatus, "", "老师", change.note, now);
      order := order + [change];
      ApplyOneMore(old(store.View()), org, id, applied, change, now, before);
      if marked.Err? {
        return Err(marked.error), order;
      }
    }
    result := Ok(());
  }

  lemma ApplyOneMore(s: State, org: nat, id: nat, order: seq<ChangeRequest>, c: ChangeRequest, now: Time, mid: State)
    requires ApplyAll(s, org, id, order, now) == Outcome(mid, Ok(()))
    ensures var r := MarkStudent(mid, org, id, c.studentId, c.requestedStatus, "", "老师", c.note, now);
            ApplyAll(s, org, id, order + [c], now) == Outcome(r.state, if r.result.Ok? then Ok(()) else Err(r.result.error))
  {
    assert (order + [c])[..|order|] == order;
  }

  lemma RequestsOfOperation(s: State, org: nat, id: nat, o: nat)
    requires History(s) && RequestsSound(s) && FirstIndex(s.operations, OperationKey(org, id)) == Some(o)
    ensures forall i | 0 <= i < |s.requests| && s.requests[i].operationId == Some(id) ::
              s.requests[i].org == org && s.requests[i].changeDate == s.operations[o].date
  {
    forall i | 0 <= i < |s.requests| && s.requests[i].operationId == Some(id)
      ensures s.requests[i].org == org && s.requests[i].changeDate == s.operations[o].date
    {
      assert Sound(s, s.requests[i]);
      var k :| 0 <= k < |s.operations| && FiledUnder(s.operations[k], s.requests[i]);
      assert k == o;
    }
  }

  /** After the marks in `order`: the named members have what was asked, the other members are as they were. */
  ghost predicate Applied(s: State, t: State, org: nat, operationId: nat, order: seq<ChangeRequest>) {
    && t.operations == s.operations && SameKeys(s.members, t.members)
    && (forall k, i | 0 <= k < |order| && 0 <= i < |s.members| && MemberKey(org, operationId, order[k].studentId)(s.members[i]) ::
          t.members[i].status == order[k].requestedStatus)
    && (forall i | 0 <= i < |s.members| && (forall k | 0 <= k < |order| :: !MemberKey(org, operationId, order[k].studentId)(s.members[i])) ::
          t.members[i] == s.members[i])
  }

  ghost predicate PlannedIn(s: State, operationId: nat) {
    forall i | 0 <= i < |s.members| && s.members[i].operationId == operationId :: s.members[i].status == Planned
  }

  ghost predicate Applicable(s: State, org: nat, operationId: nat, order: seq<ChangeRequest>) {
    && (forall j, k | 0 <= j < k < |order| :: order[j].studentId != order[k].studentId)
    && (forall k | 0 <= k < |order| ::
          Requestable(order[k].requestedStatus) && FirstIndex(s.members, MemberKey(org, operationId, order[k].studentId)).Some?)
  }

  /** A planned member takes the status asked for. */
  lemma MarkPlanned(s: State, t: State, org: nat, operationId: nat, o: nat, i: nat, c: ChangeRequest, now: Time)
    requires FirstIndex(s.operations, OperationKey(org, operationId)) == Some(o) && s.operations[o].status == Started
    requires MembersUnique(s.members) && SameKeys(s.members, t.members) && t.operations == s.operations
    requires FirstIndex(s.members, MemberKey(org, operationId, c.studentId)) == Some(i) && t.members[i].status == Planned
    requires Requestable(c.requestedStatus)
    ensures var r := MarkStudent(t, org, operationId, c.studentId, c.requestedStatus, "", "老师", c.note, now);
            r.result.Ok? && OnlyMember(t, r.state, i) && r.state.members[i].status == c.requestedStatus
  {
    LookupsAgree(s.members, t.members, org, operationId, c.studentId);
    FirstIsLast(s.members, MemberKey(org, operationId, c.studentId));
    ChangeFrame(t, i, c.requestedStatus, "", "老师", c.note, now);
  }

  lemma ApplyOne(s: State, t: State, org: nat, operationId: nat, o: nat, order: seq<ChangeRequest>, c: ChangeRequest, now: Time)
    requires FirstIndex(s.operations, OperationKey(org, operationId)) == Some(o) && s.operations[o].status == Started
    requires MembersUnique(s.members) && PlannedIn(s, operationId) && Applicable(s, org, operationId, order + [c])
    requires Applied(s, t, org, operationId, order)
    ensures var r := MarkStudent(t, org, operationId, c.studentId, c.requestedStatus, "", "老师", c.note, now);
            r.result.Ok? && Applied(s, r.state, org, operationId, order + [c])
  {
    var all := order + [c];
    assert all[|order|] == c;
    var i := FirstIndex(s.members, MemberKey(org, operationId, c.studentId)).value;
    forall k | 0 <= k < |order| ensures order[k].studentId != c.studentId { assert all[k] == order[k]; }
    assert t.members[i] == s.members[i];
    MarkPlanned(s, t, org, operationId, o, i, c, now);
    var u := MarkStudent(t, org, operationId, c.studentId, c.requestedStatus, "", "老师", c.note, now).state;
    AppliedExtends(s, t, u, org, operationId, order, c, i);
  }

  lemma AppliedExtends(s: State, t: State, u: State, org: nat, operationId: nat, order: seq<ChangeRequest>, c: ChangeRequest, i: nat)
    requires MembersUnique(s.members) && Applied(s, t, org, operationId, order) && i < |s.members| && OnlyMember(t, u, i)
    requires MemberKey(org, operationId, c.studentId)(s.members[i]) && u.members[i].status == c.requestedStatus
    requires forall k | 0 <= k < |order| :: order[k].studentId != c.studentId
    ensures Applied(s, u, org, operationId, order + [c])
  {
    var all := order + [c];
    forall k, j | 0 <= k < |all| && 0 <= j < |s.members| && MemberKey(org, operationId, all[k].studentId)(s.members[j])
      ensures u.members[j].status == all[k].requestedStatus
    {
      if k < |order| { assert all[k] == order[k] && j != i; } else { assert j == i; }
    }
    forall j | 0 <= j < |s.members| && (forall k | 0 <= k < |all| :: !MemberKey(org, operationId, all[k].studentId)(s.members[j]))
      ensures u.members[j] == s.members[j]
    {
      forall k | 0 <= k < |order| ensures !MemberKey(org, operationId, order[k].studentId)(s.members[j]) { assert all[k] == order[k]; }
      assert all[|order|] == c && j != i;
    }
    forall j | 0 <= j < |s.members| ensures SameKey(s.members[j], u.members[j]) {
      assert SameKey(s.members[j], t.members[j]) && SameKey(t.members[j], u.members[j]);
    }
  }

  lemma {:induction false} ApplyAllSucceeds(s: State, org: nat, operationId: nat, o: nat, order: seq<ChangeRequest>, now: Time)
    requires FirstIndex(s.operations, OperationKey(org, operationId)) == Some(o) && s.operations[o].status == Started
    requires MembersUnique(s.members) && PlannedIn(s, operationId) && Applicable(s, org, operationId, order)
    ensures var r := ApplyAll(s, org, operationId, order, now); r.result.Ok? && Applied(s, r.state, org, operationId, order)
  {
    if order != [] {
      var init, c := order[..|order| - 1], order[|order| - 1];
      assert order == init + [c];
      ApplyAllSucceeds(s, org, operationId, o, init, now);
      ApplyOne(s, ApplyAll(s, org, operationId, init, now).state, org, operationId, o, init, c, now);
    }
  }

  lemma LatestApplicable(s: State, org: nat, id: nat, order: seq<ChangeRequest>)
    requires RequestsSound(s) && FromLatest(s, id, order)
    requires forall i | 0 <= i < |s.requests| && s.requests[i].operationId == Some(id) :: s.requests[i].org == org
    ensures Applicable(s, org, id, order)
  {
    forall k | 0 <= k < |order|
      ensures Requestable(order[k].requestedStatus) && FirstIndex(s.members, MemberKey(org, id, order[k].studentId)).Some?
    {
      assert LatestApproved(s, id, order[k].studentId) == Some(order[k]);
      var i := LastIndex(s.requests, ApprovedFor(id, order[k].studentId)).value;
      assert Sound(s, s.requests[i]);
    }
  }

  // ------------------------------------------------------------ main result

  /** The status member `m` is to have once operation `id` has started. */
  function StatusAtStart(s: State, id: nat, m: Member): MemberStatus {
    var latest := LatestApproved(s, id, m.studentId);
    if latest.Some? then latest.value.requestedStatus else Planned
  }

  lemma PlannedEverywhere(s: State, org: nat, id: nat, o: nat)
    requires History(s) && FirstIndex(s.operations, OperationKey(org, id)) == Some(o) && s.operations[o].status in {Draft, Confirmed}
    ensures PlannedIn(s, id) && forall i | 0 <= i < |s.members| && s.members[i].operationId == id :: s.members[i].org == org
  {
    forall i | 0 <= i < |s.members| && s.members[i].operationId == id
      ensures s.members[i].status == Planned && s.members[i].org == org
    {
      PlannedBeforeStart(s, o, i);
      assert OperationIn(s.operations, s.members[i].org, id);
    }
  }

  lemma AppliedStatus(s: State, t: State, org: nat, id: nat, order: seq<ChangeRequest>, i: nat)
    requires ListsLatest(s, id, order) && Applied(s, t, org, id, order) && i < |s.members|
    requires s.members[i].operationId == id ==> s.members[i].org == org && s.members[i].status == Planned
    ensures if s.members[i].operationId != id then t.members[i] == s.members[i]
            else t.members[i].status == StatusAtStart(s, id, s.members[i])
  {
    var m := s.members[i];
    if m.operationId == id && LatestApproved(s, id, m.studentId).Some? {
      var k :| 0 <= k < |order| && order[k].studentId == m.studentId;
      assert MemberKey(org, id, order[k].studentId)(m);
    }
  }

  /** In every run, starting a draft or confirmed operation succeeds whatever the
      order of the table, and leaves each child with the status of its latest
      approved request for that operation, or planned; nobody else changes. */
  lemma {:induction false} StartAppliesApprovedChanges(calls: seq<Call>, org: nat, id: nat, o: nat, order: seq<ChangeRequest>, now: Time)
    requires var s := Run(INIT, calls);
             && FirstIndex(s.operations, OperationKey(org, id)) == Some(o) && s.operations[o].status in {Draft, Confirmed}
             && ListsLatest(s, id, order)
    ensures var s := Run(INIT, calls); var r := StartThenApply(s, org, id, order, now);
            && r.result.Ok? && StartedFrom(s, r.state, id)
            && (o < |r.state.operations| && r.state.operations[o].status == Started)
  {
    RunKeepsHistory(INIT, calls);
    RunKeepsRequestsSound(INIT, calls);
    StartFrom(Run(INIT, calls), org, id, o, order, now);
  }

  /** Once operation `id` has started: its children have their statuses, everyone else is as before. */
  ghost predicate StartedFrom(s: State, t: State, id: nat) {
    && |t.members| == |s.members|
    && (forall i | 0 <= i < |s.members| ::
          if s.members[i].operationId != id then t.members[i] == s.members[i]
          else t.members[i].status == StatusAtStart(s, id, s.members[i]))
  }

  /** Whatever part of the table has been applied, no mark was refused. */
  lemma StartSucceeds(s: State, org: nat, id: nat, o: nat, order: seq<ChangeRequest>, now: Time)
    requires History(s) && RequestsSound(s) && FromLatest(s, id, order)
    requires FirstIndex(s.operations, OperationKey(org, id)) == Some(o) && s.operations[o].status in {Draft, Confirmed}
    ensures SetOperationStatus(s, org, id, Started, now).result.Ok?
    ensures var mid := SetOperationStatus(s, org, id, Started, now).state; var r := ApplyAll(mid, org, id, order, now);
            r.result.Ok? && Applied(mid, r.state, org, id, order)
            && FirstIndex(mid.operations, OperationKey(org, id)) == Some(o) && mid.operations[o].status == Started
  {
    PlannedEverywhere(s, org, id, o);
    RequestsOfOperation(s, org, id, o);
    LatestApplicable(s, org, id, order);
    var mid := SetOperationStatus(s, org, id, Started, now).state;
    FirstOperationStays(s, mid, org, id, o);
    ApplyAllSucceeds(mid, org, id, o, order, now);
  }

  lemma StartFrom(s: State, org: nat, id: nat, o: nat, order: seq<ChangeRequest>, now: Time)
    requires History(s) && RequestsSound(s) && ListsLatest(s, id, order)
    requires FirstIndex(s.operations, OperationKey(org, id)) == Some(o) && s.operations[o].status in {Draft, Confirmed}
    ensures var r := StartThenApply(s, org, id, order, now);
            && r.result.Ok? && StartedFrom(s, r.state, id)
            && (o < |r.state.operations| && r.state.operations[o].status == Started)
  {
    PlannedEverywhere(s, org, id, o);
    StartSucceeds(s, org, id, o, order, now);
    var mid := SetOperationStatus(s, org, id, Started, now).state;
    var t := ApplyAll(mid, org, id, order, now).state;
    forall i | 0 <= i < |s.members|
      ensures if s.members[i].operationId != id then t.members[i] == s.members[i]
              else t.members[i].status == StatusAtStart(s, id, s.members[i])
    {
      AppliedStatus(s, t.(operations := s.operations), org, id, order, i);
    }
  }

  lemma FirstOperationStays(s: State, t: State, org: nat, id: nat, o: nat)
    requires FirstIndex(s.operations, OperationKey(org, id)) == Some(o) && |t.operations| == |s.operations|
    requires forall k | 0 <= k < |s.operations| :: SameDay(s.operations[k], t.operations[k])
    ensures FirstIndex(t.operations, OperationKey(org, id)) == Some(o)
  {
    var p := OperationKey(org, id);
    forall k | 0 <= k < |s.operations| ensures p(s.operations[k]) == p(t.operations[k]) { assert SameDay(s.operations[k], t.operations[k]); }
  }
}

/** Batch arrival refines marking the same students one at a time. */
module PickupBatch {
  import opened Common
  import opened PickupModel
  import opened PickupSpec

  /** An operation has at most one row per student. */
  ghost predicate MembersUnique(ms: seq<Member>) {
    forall i, j | 0 <= i < j < |ms| :: ms[i].operationId == ms[j].operationId ==> ms[i].studentId != ms[j].studentId
  }

  /** The same rows up to what marking edits. */
  ghost predicate SameKeys(a: seq<Member>, b: seq<Member>) {
    |a| == |b| && forall i | 0 <= i < |a| :: SameKey(a[i], b[i])
  }

  predicate SameKey(a: Member, b: Member) {
    a.id == b.id && a.org == b.org && a.operationId == b.operationId && a.studentId == b.studentId && a.studentName == b.studentName
  }

  /** `t` is `s` up to member `i`'s editable fields, the logs of events and notices, and ids. */
  ghost predicate OnlyMember(s: State, t: State, i: nat) {
    && t.operations == s.operations && t.logs == s.logs && t.requests == s.requests && t.handoffs == s.handoffs
    && SameKeys(s.members, t.members) && forall j | 0 <= j < |s.members| && j != i :: t.members[j] == s.members[j]
  }

  lemma ChangeFrame(s: State, i: nat, status: MemberStatus, photo: string, operator: string, note: string, now: Time)
    requires i < |s.members|
    ensures OnlyMember(s, Change(s, i, status, photo, operator, note, now), i)
  {
  }

  lemma AttachFrame(s: State, i: nat, photo: string, operator: string, now: Time)
    requires i < |s.members|
    ensures OnlyMember(s, AttachPhoto(s, i, photo, operator, now), i)
  {
  }

  /** All a mark can change: the one member it names, in a started operation. */
  lemma MarkFrame(s: State, org: nat, operationId: nat, studentId: nat, status: MemberStatus, photo: string,
                  operator: string, note: string, now: Time)
    ensures var t := MarkStudent(s, org, operationId, studentId, status, photo, operator, note, now).state;
            t != s ==>
              var o := FirstIndex(s.operations, OperationKey(org, operationId));
              var i := FirstIndex(s.members, MemberKey(org, operationId, studentId));
              o.Some? && s.operations[o.value].status == Started && i.Some? && OnlyMember(s, t, i.value)
  {
    var i := FirstIndex(s.members, MemberKey(org, operationId, studentId));
    if i.Some? {
      ChangeFrame(s, i.value, status, photo, operator, note, now);
      AttachFrame(s, i.value, Trim(photo), operator, now);
    }
  }

  /** Marking `ids` as arrived one by one, without a photo, up to the first refusal. */
  function MarkEach(s: State, org: nat, operationId: nat, ids: seq<nat>, operator: string, note: string, now: Time): Outcome<seq<Member>> {
    if ids == [] then Outcome(s, Ok([]))
    else
      var before := MarkEach(s, org, operationId, ids[..|ids| - 1], operator, note, now);
      if before.result.Err? then before
      else
        var r := MarkStudent(before.state, org, operationId, ids[|ids| - 1], Arrived, "", operator, note, now);
        Outcome(r.state, match r.result case Ok(m) => Ok(before.result.value + [m]) case Err(e) => Err(e))
  }

  lemma LookupsAgree(a: seq<Member>, b: seq<Member>, org: nat, operationId: nat, studentId: nat)
    requires SameKeys(a, b) && MembersUnique(a)
    ensures FirstIndex(b, MemberKey(org, operationId, studentId)) == InTable(a, org, operationId, studentId)
  {
    var p := MemberKey(org, operationId, studentId);
    forall i | 0 <= i < |a| ensures p(a[i]) == p(b[i]) { assert SameKey(a[i], b[i]); }
    FirstIsLast(a, p);
    var f, g := FirstIndex(a, p), FirstIndex(b, p);
    if f.Some? { assert p(b[f.value]); }
    if g.Some? { assert p(a[g.value]); }
  }

  /** Members of students outside `ids` are as they were. */
  ghost predicate OthersKept(a: seq<Member>, b: seq<Member>, ids: seq<nat>) {
    SameKeys(a, b) && forall i | 0 <= i < |a| && a[i].studentId !in ids :: b[i] == a[i]
  }

  lemma ArriveOneFrame(s: State, table: seq<Member>, org: nat, operationId: nat, studentId: nat, operator: string, note: string, now: Time)
    requires SameKeys(table, s.members)
    ensures var r := ArriveOne(s, table, org, operationId, studentId, operator, note, now);
            OthersKept(s.members, r.members, [studentId]) && r.operations == s.operations
  {
  }

  lemma {:induction false} ArriveAllFrame(s: State, org: nat, operationId: nat, ids: seq<nat>, operator: string, note: string, now: Time)
    ensures var r := ArriveAll(s, org, operationId, ids, operator, note, now);
            OthersKept(s.members, r.members, ids) && r.operations == s.operations
  {
    if ids != [] {
      var init, id := ids[..|ids| - 1], ids[|ids| - 1];
      ArriveAllFrame(s, org, operationId, init, operator, note, now);
      var mid := ArriveAll(s, org, operationId, init, operator, note, now);
      ArriveOneFrame(mid, s.members, org, operationId, id, operator, note, now);
      assert ids == init + [id];
    }
  }

  /** One mark in the middle of the run does what the batch does for that id. */
  lemma MarkIsArriveOne(s: State, t: State, org: nat, operationId: nat, studentId: nat, operator: string, note: string, now: Time, o: nat)
    requires FirstIndex(s.operations, OperationKey(org, operationId)) == Some(o) && s.operations[o].status == Started
    requires t.operations == s.operations && MembersUnique(s.members) && SameKeys(s.members, t.members)
    requires forall i | 0 <= i < |s.members| && s.members[i].studentId == studentId :: t.members[i] == s.members[i]
    ensures var r := MarkStudent(t, org, operationId, studentId, Arrived, "", operator, note, now);
            match CannotArrive(s.members, org, operationId, studentId)
            case Some(e) => r == Outcome(t, Err(e))
            case None =>
              && r.state == ArriveOne(t, s.members, org, operationId, studentId, operator, note, now)
              && r.result == Ok(r.state.members[InTable(s.members, org, operationId, studentId).value])
  {
    LookupsAgree(s.members, t.members, org, operationId, studentId);
  }

  lemma {:induction false} MarkEachIsArriveAll(s: State, org: nat, operationId: nat, ids: seq<nat>, operator: string, note: string, now: Time, o: nat)
    requires FirstIndex(s.operations, OperationKey(org, operationId)) == Some(o) && s.operations[o].status == Started
    requires MembersUnique(s.members) && DistinctKeys(ids, Same())
    ensures var r := MarkEach(s, org, operationId, ids, operator, note, now);
            match FirstRefusal(s.members, org, operationId, ids)
            case Some(e) => r.result == Err(e)
            case None => r == Outcome(ArriveAll(s, org, operationId, ids, operator, note, now), Ok(Arrivals(s, org, operationId, ids, operator, note, now)))
  {
    if ids != [] {
      var init, id := ids[..|ids| - 1], ids[|ids| - 1];
      assert forall k | 0 <= k < |init| :: Same()(ids[k]) != Same()(id);
      MarkEachIsArriveAll(s, org, operationId, init, operator, note, now, o);
      if FirstRefusal(s.members, org, operationId, init).None? {
        ArriveAllFrame(s, org, operationId, init, operator, note, now);
        MarkIsArriveOne(s, ArriveAll(s, org, operationId, init, operator, note, now), org, operationId, id, operator, note, now, o);
      }
    }
  }

  /** The batch answers what marking one by one answers, members and refusals; on
      success it leaves the very same state, and on a refusal it has changed nothing. */
  lemma {:induction false} BulkArriveRefinesMarks(s: State, org: nat, operationId: nat, studentIds: seq<nat>, operator: string, note: string, now: Time)
    requires MembersUnique(s.members)
    ensures var ids := DistinctBy(studentIds, Same());
            var bulk := BulkArrive(s, org, operationId, studentIds, operator, note, now);
            var each := MarkEach(s, org, operationId, ids, operator, note, now);
            && (ids != [] ==> bulk.result == each.result)
            && (ids == [] ==> bulk.result.Err?)
            && bulk.state == if bulk.result.Ok? then each.state else s
  {
    var ids := DistinctBy(studentIds, Same());
    var o := FirstIndex(s.operations, OperationKey(org, operationId));
    if ids != [] {
      if o.Some? && s.operations[o.value].status == Started {
        MarkEachIsArriveAll(s, org, operationId, ids, operator, note, now, o.value);
      } else {
        MarkEachRefused(s, org, operationId, ids, operator, note, now);
      }
    }
  }

  lemma {:induction false} MarkEachRefused(s: State, org: nat, operationId: nat, ids: seq<nat>, operator: string, note: string, now: Time)
    requires ids != []
    requires var o := FirstIndex(s.operations, OperationKey(org, operationId)); o.None? || s.operations[o.value].status != Started
    ensures MarkEach(s, org, operationId, ids, operator, note, now).result
         == Err(if FirstIndex(s.operations, OperationKey(org, operationId)).None? then NotFound else InvalidState)
  {
    var init := ids[..|ids| - 1];
    if init != [] {
      MarkEachRefused(s, org, operationId, init, operator, note, now);
    }
  }
}

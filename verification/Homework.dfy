/** Homework tasks: grading a batch is grading its items one by one, or nothing. */
module Homework {
  import opened Common

  type Time = nat

  datatype Status = Pending | Completed | Incomplete | NotSubmitted | Unknown(text: string)

  predicate ValidStatus(status: Status) { status in {Completed, Incomplete, NotSubmitted} }

  datatype StudentRef = StudentRef(id: nat, name: string)

  datatype Task = Task(id: nat, org: nat, date: int, schoolClassId: nat, brief: Brief, active: bool, createdAt: Time, updatedAt: Time)

  /** What a task asks for, and of whom it comes. */
  datatype Brief = Brief(
    schoolId: nat, subject: string, content: string, attachments: seq<string>, creatorId: Option<nat>, creatorName: string)

  function CleanedBrief(b: Brief): Brief {
    b.(subject := Trim(b.subject), content := Trim(b.content), creatorName := Trim(b.creatorName))
  }

  /** One student's row of a task. */
  datatype Row = Row(
    id: nat, org: nat, taskId: nat, studentId: nat, studentName: string, status: Status, note: string,
    reviewer: Option<nat>, reviewedAt: Option<Time>, createdAt: Time, updatedAt: Time)

  datatype Review = Review(studentId: nat, status: Status, note: string)

  datatype State = State(nextId: nat, tasks: seq<Task>, rows: seq<Row>)

  const INIT := State(1, [], [])

  datatype Outcome<+T> = Outcome(state: State, result: Result<T>)

  function RowKey(org: nat, taskId: nat, studentId: nat): Row -> bool {
    (r: Row) => r.org == org && r.taskId == taskId && r.studentId == studentId
  }

  function RefKey(): StudentRef -> nat { (r: StudentRef) => r.id }

  function ReviewKey(): Review -> nat { (r: Review) => r.studentId }

  function Enrol(base: nat, org: nat, taskId: nat, roster: seq<StudentRef>, now: Time): seq<Row> {
    seq(|roster|, k requires 0 <= k < |roster| => Row(base + k, org, taskId, roster[k].id, roster[k].name, Pending, "", None, None, now, now))
  }

  function NewTask(s: State, org: nat, date: int, classId: nat, brief: Brief, roster: seq<StudentRef>, now: Time)
    : Outcome<Task>
  {
    if roster == [] then Outcome(s, Err(Conflict))
    else
      var task := Task(s.nextId, org, date, classId, CleanedBrief(brief), true, now, now);
      var distinct := DistinctBy(roster, RefKey());
      var t := State(s.nextId + 1 + |distinct|, s.tasks + [task], s.rows + Enrol(s.nextId + 1, org, s.nextId, distinct, now));
      Outcome(t, if distinct == [] then Err(Conflict) else Ok(task))
  }

  function Graded(r: Row, v: Review, reviewer: Option<nat>, now: Time): Row {
    r.(status := v.status, note := Trim(v.note), reviewer := reviewer, reviewedAt := Some(now), updatedAt := now)
  }

  function GradeOne(s: State, org: nat, taskId: nat, v: Review, reviewer: Option<nat>, now: Time): Outcome<Row> {
    if !ValidStatus(v.status) then Outcome(s, Err(InvalidStatus))
    else
      match FirstIndex(s.rows, RowKey(org, taskId, v.studentId))
      case None => Outcome(s, Err(NotFound))
      case Some(i) =>
        var r := Graded(s.rows[i], v, reviewer, now);
        Outcome(s.(rows := s.rows[i := r]), Ok(r))
  }

  /** The first item the batch objects to before it looks at the store. */
  ghost function FirstFault(items: seq<Review>): (e: Option<Error>)
    ensures e.None? <==> (forall k | 0 <= k < |items| :: items[k].studentId != 0 && ValidStatus(items[k].status)) && DistinctKeys(items, ReviewKey())
  {
    if items == [] then None
    else
      var init, v := items[..|items| - 1], items[|items| - 1];
      match FirstFault(init)
      case Some(e) => Some(e)
      case None =>
        if v.studentId == 0 then Some(NotFound)
        else if !ValidStatus(v.status) then Some(InvalidStatus)
        else if v.studentId in Keys(init, ReviewKey()) then
          var k :| 0 <= k < |init| && ReviewKey()(init[k]) == v.studentId;
          assert ReviewKey()(items[k]) == ReviewKey()(items[|items| - 1]);
          Some(Conflict)
        else
          assert forall k | 0 <= k < |init| :: ReviewKey()(init[k]) in Keys(init, ReviewKey());
          None
  }

  /** The row an id names in the batch's table of positions, where a later row overwrites an earlier one. */
  function InTable(table: seq<Row>, org: nat, taskId: nat, studentId: nat): (r: Option<nat>)
    ensures r.Some? ==> r.value < |table|
  {
    LastIndex(table, RowKey(org, taskId, studentId))
  }

  datatype Batch = Batch(rows: seq<Row>, out: seq<Row>)

  function GradeAll(table: seq<Row>, org: nat, taskId: nat, items: seq<Review>, reviewer: Option<nat>, now: Time): (b: Batch)
    ensures |b.rows| == |table|
  {
    if items == [] then Batch(table, [])
    else
      var b := GradeAll(table, org, taskId, items[..|items| - 1], reviewer, now);
      var v := items[|items| - 1];
      match InTable(table, org, taskId, v.studentId)
      case None => b
      case Some(i) => Batch(b.rows[i := Graded(b.rows[i], v, reviewer, now)], b.out + [Graded(b.rows[i], v, reviewer, now)])
  }

  ghost predicate AllInTable(table: seq<Row>, org: nat, taskId: nat, items: seq<Review>) {
    forall k | 0 <= k < |items| :: InTable(table, org, taskId, items[k].studentId).Some?
  }

  ghost function BulkReview(s: State, org: nat, taskId: nat, items: seq<Review>, reviewer: Option<nat>, now: Time): Outcome<seq<Row>> {
    if items == [] then Outcome(s, Err(Conflict))
    else
      match FirstFault(items)
      case Some(e) => Outcome(s, Err(e))
      case None =>
        if !AllInTable(s.rows, org, taskId, items) then Outcome(s, Err(NotFound))
        else var b := GradeAll(s.rows, org, taskId, items, reviewer, now); Outcome(s.(rows := b.rows), Ok(b.out))
  }

  class MemoryStore {
    var nextId: nat
    var tasks: seq<Task>
    var rows: seq<Row>

    ghost function View(): State
      reads this
    {
      State(nextId, tasks, rows)
    }

    constructor ()
      ensures View() == INIT
    {
      nextId, tasks, rows := 1, [], [];
    }

    method CreateTask(org: nat, date: int, classId: nat, brief: Brief, roster: seq<StudentRef>, now: Time)
      returns (result: Result<Task>)
      modifies this
      ensures Outcome(View(), result) == NewTask(old(View()), org, date, classId, brief, roster, now)
    {
      if roster == [] {
        return Err(Conflict);
      }
      var task := Task(nextId, org, date, classId, CleanedBrief(brief), true, now, now);
      nextId, tasks := nextId + 1, tasks + [task];
      var distinct := Distinct(roster, RefKey());
      EnrolRows(org, task.id, distinct, now);
      result := if distinct == [] then Err(Conflict) else Ok(task);
    }

    method EnrolRows(org: nat, taskId: nat, roster: seq<StudentRef>, now: Time)
      modifies this`nextId, this`rows
      ensures nextId == old(nextId) + |roster|
      ensures rows == old(rows) + Enrol(old(nextId), org, taskId, roster, now)
    {
      for k := 0 to |roster|
        invariant nextId == old(nextId) + k
        invariant rows == old(rows) + Enrol(old(nextId), org, taskId, roster, now)[..k]
      {
        var id := nextId;
        nextId := id + 1;
        rows := rows + [Row(id, org, taskId, roster[k].id, roster[k].name, Pending, "", None, None, now, now)];
      }
    }

    method ReviewStudent(org: nat, taskId: nat, v: Review, reviewer: Option<nat>, now: Time) returns (result: Result<Row>)
      modifies this`rows
      ensures Outcome(View(), result) == GradeOne(old(View()), org, taskId, v, reviewer, now)
    {
      if !ValidStatus(v.status) {
        return Err(InvalidStatus);
      }
      var i := Scan(rows, RowKey(org, taskId, v.studentId));
      if i.None? {
        return Err(NotFound);
      }
      var item := Graded(rows[i.value], v, reviewer, now);
      rows := rows[i.value := item];
      result := Ok(item);
    }

    method BulkReviewStudents(org: nat, taskId: nat, items: seq<Review>, reviewer: Option<nat>, now: Time) returns (result: Result<seq<Row>>)
      modifies this`rows
      ensures Outcome(View(), result) == BulkReview(old(View()), org, taskId, items, reviewer, now)
    {
      if items == [] {
        return Err(Conflict);
      }
      var fault := CheckItems(items);
      if fault.Some? {
        return Err(fault.value);
      }
      var positions := Positions(org, taskId);
      for k := 0 to |items|
        invariant rows == old(rows)
        invariant forall j | 0 <= j < k :: items[j].studentId in positions
      {
        if items[k].studentId !in positions {
          return Err(NotFound);
        }
      }
      var out := GradeEach(org, taskId, items, positions, reviewer, now);
      result := Ok(out);
    }

    method CheckItems(items: seq<Review>) returns (fault: Option<Error>)
      ensures fault == FirstFault(items)
    {
      var seen: set<nat> := {};
      for k := 0 to |items|
        invariant FirstFault(items[..k]).None? && seen == Keys(items[..k], ReviewKey())
      {
        var v := items[k];
        assert items[..k + 1] == items[..k] + [v] && items[..k + 1][..k] == items[..k];
        KeysAppend(items[..k], v, ReviewKey());
        if v.studentId == 0 {
          FaultIsFirst(items, k + 1);
          return Some(NotFound);
        }
        if !ValidStatus(v.status) {
          FaultIsFirst(items, k + 1);
          return Some(InvalidStatus);
        }
        if v.studentId in seen {
          FaultIsFirst(items, k + 1);
          return Some(Conflict);
        }
        seen := seen + {v.studentId};
      }
      assert items[..|items|] == items;
      fault := None;
    }

    method Positions(org: nat, taskId: nat) returns (positions: map<nat, nat>)
      ensures forall id :: id in positions <==> InTable(rows, org, taskId, id).Some?
      ensures forall id :: id in positions ==> InTable(rows, org, taskId, id) == Some(positions[id])
    {
      positions := map[];
      for index := 0 to |rows|
        invariant forall id :: id in positions <==> InTable(rows[..index], org, taskId, id).Some?
        invariant forall id :: id in positions ==> InTable(rows[..index], org, taskId, id) == Some(positions[id])
      {
        assert rows[..index + 1][..index] == rows[..index];
        if rows[index].org == org && rows[index].taskId == taskId {
          positions := positions[rows[index].studentId := index];
        }
      }
      assert rows[..|rows|] == rows;
    }

    method GradeEach(org: nat, taskId: nat, items: seq<Review>, positions: map<nat, nat>, reviewer: Option<nat>, now: Time)
      returns (out: seq<Row>)
      requires forall id :: id in positions <==> InTable(rows, org, taskId, id).Some?
      requires forall id :: id in positions ==> InTable(rows, org, taskId, id) == Some(positions[id])
      requires forall k | 0 <= k < |items| :: items[k].studentId in positions
      modifies this`rows
      ensures Batch(rows, out) == GradeAll(old(rows), org, taskId, items, reviewer, now)
    {
      out := [];
      for k := 0 to |items|
        invariant |rows| == |old(rows)| && Batch(rows, out) == GradeAll(old(rows), org, taskId, items[..k], reviewer, now)
      {
        assert items[..k + 1][..k] == items[..k];
        var i := positions[items[k].studentId];
        var item := Graded(rows[i], items[k], reviewer, now);
        rows := rows[i := item];
        out := out + [item];
      }
      assert items[..|items|] == items;
    }
  }

  lemma {:induction false} FaultIsFirst(items: seq<Review>, k: nat)
    requires k <= |items| && FirstFault(items[..k]).Some?
    ensures FirstFault(items) == FirstFault(items[..k])
    decreases |items|
  {
    if k < |items| {
      assert items[..|items| - 1][..k] == items[..k];
      FaultIsFirst(items[..|items| - 1], k);
    } else {
      assert items[..k] == items;
    }
  }

  // -------------------------------------------------------------- refinement

  /** One row per task and student. */
  ghost predicate RowsUnique(rows: seq<Row>) {
    forall i, j | 0 <= i < j < |rows| :: rows[i].taskId != rows[j].taskId || rows[i].studentId != rows[j].studentId
  }

  /** Reviewing the items one by one, up to the first refusal. */
  function ReviewEach(s: State, org: nat, taskId: nat, items: seq<Review>, reviewer: Option<nat>, now: Time): Outcome<seq<Row>> {
    if items == [] then Outcome(s, Ok([]))
    else
      var before := ReviewEach(s, org, taskId, items[..|items| - 1], reviewer, now);
      match before.result
      case Err(_) => before
      case Ok(out) =>
        var r := GradeOne(before.state, org, taskId, items[|items| - 1], reviewer, now);
        Outcome(r.state, match r.result case Ok(row) => Ok(out + [row]) case Err(e) => Err(e))
  }

  ghost predicate SameFaces(a: seq<Row>, b: seq<Row>) { |a| == |b| && forall i | 0 <= i < |a| :: SameFace(a[i], b[i]) }

  predicate SameFace(a: Row, b: Row) { a.org == b.org && a.taskId == b.taskId && a.studentId == b.studentId && a.id == b.id }

  lemma LookupsAgree(a: seq<Row>, b: seq<Row>, org: nat, taskId: nat, studentId: nat)
    requires SameFaces(a, b) && RowsUnique(a)
    ensures FirstIndex(b, RowKey(org, taskId, studentId)) == InTable(a, org, taskId, studentId)
  {
    var p := RowKey(org, taskId, studentId);
    forall i | 0 <= i < |a| ensures p(a[i]) == p(b[i]) { assert SameFace(a[i], b[i]); }
    FirstIsLast(a, p);
  }

  lemma {:induction false} GradeAllIsReviewEach(s: State, org: nat, taskId: nat, items: seq<Review>, reviewer: Option<nat>, now: Time)
    requires RowsUnique(s.rows) && AllInTable(s.rows, org, taskId, items) && forall k | 0 <= k < |items| :: ValidStatus(items[k].status)
    ensures var b := GradeAll(s.rows, org, taskId, items, reviewer, now);
            ReviewEach(s, org, taskId, items, reviewer, now) == Outcome(s.(rows := b.rows), Ok(b.out)) && SameFaces(s.rows, b.rows)
  {
    if items != [] {
      var init, v := items[..|items| - 1], items[|items| - 1];
      GradeAllIsReviewEach(s, org, taskId, init, reviewer, now);
      var b := GradeAll(s.rows, org, taskId, init, reviewer, now);
      LookupsAgree(s.rows, b.rows, org, taskId, v.studentId);
      assert InTable(s.rows, org, taskId, items[|items| - 1].studentId).Some?;
    }
  }

  /** A batch is accepted exactly when its items are valid, name distinct
      students and each has a row; then it does what the reviews one by one do,
      rows and answers; otherwise it changes nothing. */
  lemma {:induction false} BulkRefinesReviews(s: State, org: nat, taskId: nat, items: seq<Review>, reviewer: Option<nat>, now: Time)
    requires RowsUnique(s.rows)
    ensures var r := BulkReview(s, org, taskId, items, reviewer, now);
            && (r.result.Ok? <==> items != [] && DistinctKeys(items, ReviewKey())
                                  && forall k | 0 <= k < |items| ::
                                       items[k].studentId != 0 && GradeOne(s, org, taskId, items[k], reviewer, now).result.Ok?)
            && (if r.result.Ok? then r == ReviewEach(s, org, taskId, items, reviewer, now) else r.state == s)
  {
    forall k | 0 <= k < |items|
      ensures GradeOne(s, org, taskId, items[k], reviewer, now).result.Ok?
         <==> ValidStatus(items[k].status) && InTable(s.rows, org, taskId, items[k].studentId).Some?
    {
      LookupsAgree(s.rows, s.rows, org, taskId, items[k].studentId);
    }
    if BulkReview(s, org, taskId, items, reviewer, now).result.Ok? {
      GradeAllIsReviewEach(s, org, taskId, items, reviewer, now);
    }
  }

  // ------------------------------------------------------------------- runs

  datatype Call =
    | CallCreate(org: nat, date: int, classId: nat, brief: Brief, roster: seq<StudentRef>, now: Time)
    | CallReview(org: nat, taskId: nat, review: Review, reviewer: Option<nat>, now: Time)
    | CallBulk(org: nat, taskId: nat, items: seq<Review>, reviewer: Option<nat>, now: Time)

  ghost function Step(s: State, c: Call): State {
    match c
    case CallCreate(org, date, classId, brief, roster, now) => NewTask(s, org, date, classId, brief, roster, now).state
    case CallReview(org, taskId, v, reviewer, now) => GradeOne(s, org, taskId, v, reviewer, now).state
    case CallBulk(org, taskId, items, reviewer, now) => BulkReview(s, org, taskId, items, reviewer, now).state
  }

  ghost function Run(s: State, calls: seq<Call>): State {
    if calls == [] then s else Step(Run(s, calls[..|calls| - 1]), calls[|calls| - 1])
  }

  ghost predicate Sound(s: State) {
    RowsUnique(s.rows) && forall i | 0 <= i < |s.rows| :: s.rows[i].taskId < s.nextId
  }

  lemma CreateKeepsSound(s: State, org: nat, date: int, classId: nat, brief: Brief, roster: seq<StudentRef>, now: Time)
    requires Sound(s)
    ensures Sound(NewTask(s, org, date, classId, brief, roster, now).state)
  {
    var distinct := DistinctBy(roster, RefKey());
    forall i, j | 0 <= i < j < |distinct| ensures distinct[i].id != distinct[j].id {
      assert RefKey()(distinct[i]) != RefKey()(distinct[j]);
    }
  }

  lemma FacesKeepSound(s: State, t: State)
    requires Sound(s) && SameFaces(s.rows, t.rows) && t.nextId == s.nextId
    ensures Sound(t)
  {
    forall i, j | 0 <= i < j < |t.rows| ensures t.rows[i].taskId != t.rows[j].taskId || t.rows[i].studentId != t.rows[j].studentId {
      assert SameFace(s.rows[i], t.rows[i]) && SameFace(s.rows[j], t.rows[j]);
    }
    forall i | 0 <= i < |t.rows| ensures t.rows[i].taskId < t.nextId { assert SameFace(s.rows[i], t.rows[i]); }
  }

  lemma {:induction false} GradeAllKeepsFaces(table: seq<Row>, org: nat, taskId: nat, items: seq<Review>, reviewer: Option<nat>, now: Time)
    ensures SameFaces(table, GradeAll(table, org, taskId, items, reviewer, now).rows)
  {
    if items != [] { GradeAllKeepsFaces(table, org, taskId, items[..|items| - 1], reviewer, now); }
  }

  lemma {:induction false} RunKeepsSound(s: State, calls: seq<Call>)
    requires Sound(s)
    ensures Sound(Run(s, calls))
  {
    if calls != [] {
      var before := Run(s, calls[..|calls| - 1]);
      RunKeepsSound(s, calls[..|calls| - 1]);
      match calls[|calls| - 1]
      case CallCreate(org, date, classId, brief, roster, now) =>
        CreateKeepsSound(before, org, date, classId, brief, roster, now);
      case CallReview(org, taskId, v, reviewer, now) =>
        FacesKeepSound(before, GradeOne(before, org, taskId, v, reviewer, now).state);
      case CallBulk(org, taskId, items, reviewer, now) =>
        GradeAllKeepsFaces(before.rows, org, taskId, items, reviewer, now);
        FacesKeepSound(before, BulkReview(before, org, taskId, items, reviewer, now).state);
    }
  }

  /** The premise of the refinement holds in every run: a task has one row per student. */
  lemma {:induction false} OneRowPerTaskAndStudent(calls: seq<Call>)
    ensures RowsUnique(Run(INIT, calls).rows)
  {
    RunKeepsSound(INIT, calls);
  }

  // ------------------------------------------------------ what a grade says

  /** Row `b` is row `a` graded as the review says, at that time by that reviewer. */
  predicate GradedAs(a: Row, b: Row, v: Review, reviewer: Option<nat>, now: Time) {
    && b.id == a.id && b.org == a.org && b.taskId == a.taskId && b.studentId == a.studentId && b.studentName == a.studentName
    && b.status == v.status && b.note == Trim(v.note) && b.reviewer == reviewer && b.reviewedAt == Some(now)
  }

  predicate RowFor(r: Row, org: nat, taskId: nat, studentId: nat) { r.org == org && r.taskId == taskId && r.studentId == studentId }

  ghost predicate HasRow(rows: seq<Row>, org: nat, taskId: nat, studentId: nat) {
    exists i | 0 <= i < |rows| :: RowFor(rows[i], org, taskId, studentId)
  }

  /** The rows of the students reviewed are graded, each by its review; the others are as they were. */
  ghost predicate GradedBy(before: seq<Row>, after: seq<Row>, org: nat, taskId: nat, items: seq<Review>, reviewer: Option<nat>, now: Time) {
    && |after| == |before|
    && (forall i, k | 0 <= i < |before| && 0 <= k < |items| && RowFor(before[i], org, taskId, items[k].studentId) ::
          GradedAs(before[i], after[i], items[k], reviewer, now))
    && (forall i | 0 <= i < |before| && (forall k | 0 <= k < |items| :: !RowFor(before[i], org, taskId, items[k].studentId)) :: after[i] == before[i])
  }

  /** A grade acceptable, and somebody to give it to. */
  ghost predicate Gradable(rows: seq<Row>, org: nat, taskId: nat, v: Review) {
    v.status in {Completed, Incomplete, NotSubmitted} && HasRow(rows, org, taskId, v.studentId)
  }

  lemma OneGraded(s: State, org: nat, taskId: nat, v: Review, reviewer: Option<nat>, now: Time)
    requires RowsUnique(s.rows)
    ensures var r := GradeOne(s, org, taskId, v, reviewer, now);
            && (r.result.Ok? <==> Gradable(s.rows, org, taskId, v))
            && (if r.result.Ok? then GradedBy(s.rows, r.state.rows, org, taskId, [v], reviewer, now) else r.state == s)
  {
    if i :| 0 <= i < |s.rows| && RowFor(s.rows[i], org, taskId, v.studentId) {
      FirstIsOnly(s.rows, RowKey(org, taskId, v.studentId), i);
      assert [v][0] == v;
    }
  }

  lemma OneMoreGraded(a: seq<Row>, b: seq<Row>, c: seq<Row>, org: nat, taskId: nat, items: seq<Review>, v: Review, reviewer: Option<nat>, now: Time)
    requires GradedBy(a, b, org, taskId, items, reviewer, now) && GradedBy(b, c, org, taskId, [v], reviewer, now) && SameFaces(a, b)
    requires forall k | 0 <= k < |items| :: items[k].studentId != v.studentId
    ensures GradedBy(a, c, org, taskId, items + [v], reviewer, now)
  {
    var all := items + [v];
    assert [v][0] == v && all[|items|] == v;
    forall i, k | 0 <= i < |a| && 0 <= k < |all| && RowFor(a[i], org, taskId, all[k].studentId)
      ensures GradedAs(a[i], c[i], all[k], reviewer, now)
    {
      assert SameFace(a[i], b[i]);
      if k < |items| { assert all[k] == items[k] && GradedAs(a[i], b[i], items[k], reviewer, now); }
      else { UngradedSame(a, b, org, taskId, items, v.studentId, reviewer, now, i); }
    }
    forall i | 0 <= i < |a| && (forall k | 0 <= k < |all| :: !RowFor(a[i], org, taskId, all[k].studentId)) ensures c[i] == a[i] {
      forall k | 0 <= k < |items| ensures !RowFor(a[i], org, taskId, items[k].studentId) { assert all[k] == items[k]; }
      assert b[i] == a[i] && !RowFor(a[i], org, taskId, all[|items|].studentId);
    }
  }

  lemma UngradedSame(a: seq<Row>, b: seq<Row>, org: nat, taskId: nat, items: seq<Review>, studentId: nat, reviewer: Option<nat>, now: Time, i: nat)
    requires GradedBy(a, b, org, taskId, items, reviewer, now) && i < |a| && RowFor(a[i], org, taskId, studentId)
    requires forall k | 0 <= k < |items| :: items[k].studentId != studentId
    ensures b[i] == a[i]
  {
    forall k | 0 <= k < |items| ensures !RowFor(a[i], org, taskId, items[k].studentId) {}
  }

  lemma {:induction false} EachGraded(s: State, org: nat, taskId: nat, items: seq<Review>, reviewer: Option<nat>, now: Time)
    requires RowsUnique(s.rows) && DistinctKeys(items, ReviewKey()) && ReviewEach(s, org, taskId, items, reviewer, now).result.Ok?
    ensures var t := ReviewEach(s, org, taskId, items, reviewer, now).state;
            GradedBy(s.rows, t.rows, org, taskId, items, reviewer, now) && SameFaces(s.rows, t.rows) && RowsUnique(t.rows)
  {
    if items != [] {
      var init, v := items[..|items| - 1], items[|items| - 1];
      assert items == init + [v];
      assert forall k | 0 <= k < |init| :: ReviewKey()(items[k]) != ReviewKey()(v);
      EachGraded(s, org, taskId, init, reviewer, now);
      var mid := ReviewEach(s, org, taskId, init, reviewer, now).state;
      OneGraded(mid, org, taskId, v, reviewer, now);
      GradedFaces(mid, org, taskId, v, reviewer, now);
      var t := ReviewEach(s, org, taskId, items, reviewer, now).state;
      OneMoreGraded(s.rows, mid.rows, t.rows, org, taskId, init, v, reviewer, now);
      FacesStay(s.rows, mid.rows, t.rows);
    }
  }

  lemma GradedFaces(s: State, org: nat, taskId: nat, v: Review, reviewer: Option<nat>, now: Time)
    ensures SameFaces(s.rows, GradeOne(s, org, taskId, v, reviewer, now).state.rows)
  {
  }

  lemma FacesStay(a: seq<Row>, b: seq<Row>, c: seq<Row>)
    requires SameFaces(a, b) && SameFaces(b, c) && RowsUnique(a)
    ensures SameFaces(a, c) && RowsUnique(c)
  {
    forall i | 0 <= i < |a| ensures SameFace(a[i], c[i]) { assert SameFace(a[i], b[i]) && SameFace(b[i], c[i]); }
  }

  /** In every run a batch is accepted exactly when it names somebody, nobody twice,
      and each grade is a real one for a student with a row; then each of those rows
      carries its own grade, trimmed note, reviewer and time, and no other row changes. */
  lemma {:induction false} BatchGradesEach(calls: seq<Call>, org: nat, taskId: nat, items: seq<Review>, reviewer: Option<nat>, now: Time)
    ensures var s := Run(INIT, calls); var r := BulkReview(s, org, taskId, items, reviewer, now);
            && (r.result.Ok? <==> && items != [] && (forall j, k | 0 <= j < k < |items| :: items[j].studentId != items[k].studentId)
                                  && forall k | 0 <= k < |items| :: items[k].studentId != 0 && Gradable(s.rows, org, taskId, items[k]))
            && (if r.result.Ok? then GradedBy(s.rows, r.state.rows, org, taskId, items, reviewer, now) else r.state == s)
  {
    var s := Run(INIT, calls);
    OneRowPerTaskAndStudent(calls);
    BulkRefinesReviews(s, org, taskId, items, reviewer, now);
    forall k | 0 <= k < |items| ensures GradeOne(s, org, taskId, items[k], reviewer, now).result.Ok? <==> Gradable(s.rows, org, taskId, items[k]) {
      OneGraded(s, org, taskId, items[k], reviewer, now);
    }
    DistinctMeans(items);
    if BulkReview(s, org, taskId, items, reviewer, now).result.Ok? { EachGraded(s, org, taskId, items, reviewer, now); }
  }

  lemma DistinctMeans(items: seq<Review>)
    ensures DistinctKeys(items, ReviewKey()) <==> forall j, k | 0 <= j < k < |items| :: items[j].studentId != items[k].studentId
  {
    if DistinctKeys(items, ReviewKey()) {
      forall j, k | 0 <= j < k < |items| ensures items[j].studentId != items[k].studentId { assert ReviewKey()(items[j]) != ReviewKey()(items[k]); }
    }
  }

  /** The first entry of the roster with that nonzero id. */
  ghost predicate FirstEntry(roster: seq<StudentRef>, id: nat, name: string) {
    id != 0 && exists k | 0 <= k < |roster| :: roster[k].id == id && roster[k].name == name && forall j | 0 <= j < k :: roster[j].id != id
  }

  /** A task is set exactly for a roster that names somebody, and then the new rows
      are one for each student named, waiting, under the name it was first listed with. */
  lemma TaskIsSetFor(s: State, org: nat, date: int, classId: nat, brief: Brief, roster: seq<StudentRef>, now: Time)
    ensures var r := NewTask(s, org, date, classId, brief, roster, now);
            && (r.result.Ok? <==> exists k | 0 <= k < |roster| :: roster[k].id != 0)
            && (r.result.Ok? ==> |r.state.rows| >= |s.rows| && r.state.rows[..|s.rows|] == s.rows
                                 && RowsOfRoster(r.state.rows[|s.rows|..], org, r.result.value.id, roster))
  {
    var r, d := NewTask(s, org, date, classId, brief, roster, now), DistinctBy(roster, RefKey());
    RosterKept(roster);
    if d != [] { assert FirstEntry(roster, d[0].id, d[0].name); }
    if r.result.Ok? {
      var added := Enrol(s.nextId + 1, org, s.nextId, d, now);
      assert r.state.rows[|s.rows|..] == added;
      EnrolledRows(s.nextId + 1, org, s.nextId, roster, now);
    }
  }

  ghost predicate RowsOfRoster(rows: seq<Row>, org: nat, taskId: nat, roster: seq<StudentRef>) {
    && (forall i | 0 <= i < |rows| :: rows[i].org == org && rows[i].taskId == taskId && rows[i].status == Pending && rows[i].note == ""
                                      && FirstEntry(roster, rows[i].studentId, rows[i].studentName))
    && (forall i, j | 0 <= i < j < |rows| :: rows[i].studentId != rows[j].studentId)
    && (forall k | 0 <= k < |roster| && roster[k].id != 0 :: HasRow(rows, org, taskId, roster[k].id))
  }

  lemma RosterKept(roster: seq<StudentRef>)
    ensures var d := DistinctBy(roster, RefKey());
            && (forall i | 0 <= i < |d| :: FirstEntry(roster, d[i].id, d[i].name))
            && (forall i, j | 0 <= i < j < |d| :: d[i].id != d[j].id)
            && (forall k | 0 <= k < |roster| && roster[k].id != 0 :: exists i | 0 <= i < |d| :: d[i].id == roster[k].id)
  {
    var d := DistinctBy(roster, RefKey());
    forall i | 0 <= i < |d| ensures FirstEntry(roster, d[i].id, d[i].name) {
      KeptIsFirst(roster, RefKey(), d[i]);
      var k :| 0 <= k < |roster| && roster[k] == d[i] && forall j | 0 <= j < k :: RefKey()(roster[j]) != RefKey()(d[i]);
      assert RefKey()(d[i]) != 0;
      forall j | 0 <= j < k ensures roster[j].id != d[i].id { assert RefKey()(roster[j]) != RefKey()(d[i]); }
    }
    forall i, j | 0 <= i < j < |d| ensures d[i].id != d[j].id { assert RefKey()(d[i]) != RefKey()(d[j]); }
    forall k | 0 <= k < |roster| && roster[k].id != 0 ensures exists i | 0 <= i < |d| :: d[i].id == roster[k].id {
      assert RefKey()(roster[k]) in Keys(roster, RefKey()) && roster[k].id in Keys(d, RefKey());
      var i :| 0 <= i < |d| && RefKey()(d[i]) == roster[k].id;
      assert d[i].id == roster[k].id;
    }
  }

  lemma EnrolledRows(base: nat, org: nat, taskId: nat, roster: seq<StudentRef>, now: Time)
    ensures RowsOfRoster(Enrol(base, org, taskId, DistinctBy(roster, RefKey()), now), org, taskId, roster)
  {
    var d := DistinctBy(roster, RefKey());
    var rows := Enrol(base, org, taskId, d, now);
    RosterKept(roster);
    forall k | 0 <= k < |roster| && roster[k].id != 0 ensures HasRow(rows, org, taskId, roster[k].id) {
      var i :| 0 <= i < |d| && d[i].id == roster[k].id;
      assert RowFor(rows[i], org, taskId, roster[k].id);
    }
  }
}

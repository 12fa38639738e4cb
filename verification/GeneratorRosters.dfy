/** Whom the operations made by the generator are for: the children of the
    schedule's class, and of its care class, and nobody else. */
module GeneratorRosters {
  import opened Common
  import opened PickupModel
  import P = PickupSpec
  import opened PickupBatch
  import opened PickupRuns
  import opened PickupHistory
  import opened PickupAnswers
  import M = MasterData
  import opened Schedules
  import opened Generator
  import opened GeneratorRules

  /** A planned member of the operation that is one of the children to be fetched, under its own name. */
  ghost predicate FetchedBy(m: Member, d: Input, p: Plan) {
    && m.org == d.org && m.status == Planned && m.photo == "" && !m.isTemporary
    && exists k | 0 <= k < |d.students| :: ToFetch(d.students[k], p) && d.students[k].id == m.studentId && d.students[k].name == m.studentName
  }

  /** The members of operation `id` are the children of the plan, each once. */
  ghost predicate MembersAreClass(ms: seq<Member>, id: nat, d: Input, p: Plan) {
    && (forall i | 0 <= i < |ms| && ms[i].operationId == id :: FetchedBy(ms[i], d, p))
    && (forall k | 0 <= k < |d.students| && ToFetch(d.students[k], p) :: OnList(ms, id, d.students[k].id))
    && (forall i, j | 0 <= i < j < |ms| && ms[i].operationId == id && ms[j].operationId == id :: ms[i].studentId != ms[j].studentId)
  }

  lemma RosterIsClass(ms: seq<Member>, id: nat, d: Input, p: Plan)
    requires RosterEnrolled(ms, d.org, id, RosterOf(d.students, p)) && Enrolled(d)
    ensures MembersAreClass(ms, id, d, p)
  {
    var chosen, roster := Select(d.students, RosterKey(p)), RosterOf(d.students, p);
    RosterIsToFetch(d.students, p);
    forall i | 0 <= i < |ms| && ms[i].operationId == id ensures FetchedBy(ms[i], d, p) {
      assert EnrolledFrom(roster, ms[i]);
      var r :| 0 <= r < |roster| && roster[r].id == ms[i].studentId && roster[r].name == ms[i].studentName;
      assert chosen[r] in chosen;
      var k :| 0 <= k < |d.students| && d.students[k] == chosen[r];
      assert ToFetch(d.students[k], p);
    }
    forall k | 0 <= k < |d.students| && ToFetch(d.students[k], p) ensures OnList(ms, id, d.students[k].id) {
      assert d.students[k] in chosen;
      var r :| 0 <= r < |chosen| && chosen[r] == d.students[k];
      assert roster[r].id == d.students[k].id != 0;
    }
  }

  /** Members added for another operation do not matter. */
  lemma OthersAdded(before: seq<Member>, after: seq<Member>, id: nat, d: Input, p: Plan)
    requires MembersAreClass(before, id, d, p) && |before| <= |after| && after[..|before|] == before
    requires forall i | |before| <= i < |after| :: after[i].operationId != id
    ensures MembersAreClass(after, id, d, p)
  {
    forall i | 0 <= i < |before| ensures after[i] == before[i] { assert after[..|before|][i] == before[i]; }
    forall k | 0 <= k < |d.students| && ToFetch(d.students[k], p) ensures OnList(after, id, d.students[k].id) {
      assert OnList(before, id, d.students[k].id);
      var i :| 0 <= i < |before| && before[i].operationId == id && before[i].studentId == d.students[k].id;
      assert after[i] == before[i];
    }
  }

  /** The `c`-th operation made has the right members. */
  ghost predicate RosteredAt(s: P.State, d: Input, made: seq<nat>, t: P.State, c: nat) {
    c < |made| && made[c] < |d.schedules| && |s.operations| + c < |t.operations|
    && MembersAreClass(t.members, t.operations[|s.operations| + c].id, d, d.schedules[made[c]].plan)
  }

  ghost predicate AllRostered(s: P.State, d: Input, n: nat, t: P.State)
    requires n <= |d.schedules|
  {
    forall c | 0 <= c < |Made(s, d, n)| :: RosteredAt(s, d, Made(s, d, n), t, c)
  }

  lemma MadeRosters(s: P.State, d: Input, n: nat, m: P.State, t: P.State, x: Schedule)
    requires 0 < n <= |d.schedules| && Enrolled(d) && IsMade(s, d, n - 1) && x == d.schedules[n - 1]
    requires OperationsRise(m) && AllRostered(s, d, n - 1, m) && |m.operations| == |s.operations| + |Made(s, d, n - 1)|
    requires MadeAsAsked(m, t, d.org, d.date, DetailsOf(x.plan), x.plan.schoolClassId, RosterOf(d.students, x.plan))
    ensures AllRostered(s, d, n, t)
  {
    var before := Made(s, d, n - 1);
    AllKept(s, m, t, d, x, before, n - 1);
    NewestRoster(s, m, t, d, x, before, n - 1);
    OneMoreRostered(s, d, before, n - 1, t, Made(s, d, n));
  }

  lemma OneMoreRostered(s: P.State, d: Input, before: seq<nat>, k: nat, t: P.State, made: seq<nat>)
    requires made == before + [k] && forall c | 0 <= c < |before| :: RosteredAt(s, d, before + [k], t, c)
    requires RosteredAt(s, d, before + [k], t, |before|)
    ensures forall c | 0 <= c < |made| :: RosteredAt(s, d, made, t, c)
  {
  }

  lemma NewestRoster(s: P.State, m: P.State, t: P.State, d: Input, x: Schedule, before: seq<nat>, k: nat)
    requires Enrolled(d) && MadeAsAsked(m, t, d.org, d.date, DetailsOf(x.plan), x.plan.schoolClassId, RosterOf(d.students, x.plan))
    requires k < |d.schedules| && d.schedules[k] == x && |m.operations| == |s.operations| + |before|
    ensures RosteredAt(s, d, before + [k], t, |before|)
  {
    RosterIsClass(t.members, m.nextId, d, x.plan);
  }

  lemma AllKept(s: P.State, m: P.State, t: P.State, d: Input, x: Schedule, before: seq<nat>, k: nat)
    requires OperationsRise(m) && forall c | 0 <= c < |before| :: RosteredAt(s, d, before, m, c)
    requires MadeAsAsked(m, t, d.org, d.date, DetailsOf(x.plan), x.plan.schoolClassId, RosterOf(d.students, x.plan))
    ensures forall c | 0 <= c < |before| :: RosteredAt(s, d, before + [k], t, c)
  {
    forall c | 0 <= c < |before| ensures RosteredAt(s, d, before + [k], t, c) { EarlierKept(s, m, t, d, x, before, k, c); }
  }

  lemma EarlierKept(s: P.State, m: P.State, t: P.State, d: Input, x: Schedule, before: seq<nat>, k: nat, c: nat)
    requires OperationsRise(m) && c < |before| && RosteredAt(s, d, before, m, c)
    requires MadeAsAsked(m, t, d.org, d.date, DetailsOf(x.plan), x.plan.schoolClassId, RosterOf(d.students, x.plan))
    ensures RosteredAt(s, d, before + [k], t, c)
  {
    EarlierRoster(m, t, |s.operations| + c, d, d.schedules[before[c]].plan);
  }

  /** An operation made later leaves an earlier one's members as they are. */
  lemma EarlierRoster(s: P.State, t: P.State, o: nat, d: Input, p: Plan)
    requires OperationsRise(s) && o < |s.operations| && MembersAreClass(s.members, s.operations[o].id, d, p)
    requires |s.operations| <= |t.operations| && t.operations[..|s.operations|] == s.operations
    requires |s.members| <= |t.members| && t.members[..|s.members|] == s.members
    requires forall i | |s.members| <= i < |t.members| :: t.members[i].operationId == s.nextId
    ensures MembersAreClass(t.members, t.operations[o].id, d, p)
  {
    assert t.operations[..|s.operations|][o] == t.operations[o];
    OthersAdded(s.members, t.members, s.operations[o].id, d, p);
  }

  /** Wherever the pass begins, if the store's history is sound. */
  lemma {:induction false} GenerateRosters(s: P.State, d: Input, n: nat)
    requires n <= |d.schedules| && Enrolled(d) && History(s)
    ensures AllRostered(s, d, n, Generate(s, d, n).state) && History(Generate(s, d, n).state)
  {
    if n > 0 {
      GenerateRosters(s, d, n - 1);
      GenerateTracks(s, d, n - 1);
      NextGeneration(s, d, n);
      StepRosters(s, d, n, Generate(s, d, n - 1));
    }
  }

  lemma StepRosters(s: P.State, d: Input, n: nat, g: Generation)
    requires 0 < n <= |d.schedules| && Enrolled(d) && Tracks(s, d, n - 1, g) && AllRostered(s, d, n - 1, g.state) && History(g.state)
    ensures AllRostered(s, d, n, Consider(g, d, d.schedules[n - 1]).state) && History(Consider(g, d, d.schedules[n - 1]).state)
  {
    var x := d.schedules[n - 1];
    ObstacleIsFate(s, d, n - 1, g);
    if IsMade(s, d, n - 1) {
      CreationSucceeds(g.state, d, x);
      CreatedAsAsked(g.state, d.org, d.date, DetailsOf(x.plan), x.plan.schoolClassId, RosterOf(d.students, x.plan), d.now);
      CreateKeepsHistory(g.state, d.org, d.date, DetailsOf(x.plan), x.plan.schoolClassId, RosterOf(d.students, x.plan), d.now);
      MadeRosters(s, d, n, g.state, Consider(g, d, x).state, x);
    } else {
      assert Made(s, d, n) == Made(s, d, n - 1) && Consider(g, d, x).state == g.state;
    }
  }

  predicate PlannedAs(x: Details, p: Plan) {
    && x.pickupMode == p.pickupMode && x.schoolId == p.schoolId && x.careClassId == p.careClassId
    && x.teacher.id == p.teacherId && x.teacher.name == Trim(p.teacherName)
    && x.expectedTime == Trim(p.expectedTime) && x.notes == Trim(p.notes)
  }

  lemma AsScheduled(p: Plan)
    ensures PlannedAs(DetailsOf(p), p)
  {
  }

  /** The `c`-th operation made is a draft for the class and day of its schedule, with the right members. */
  ghost predicate ForItsClass(s: P.State, d: Input, g: Generation, c: nat)
    requires c < |Made(s, d, |d.schedules|)|
  {
    && |s.operations| + c < |g.state.operations| && c < |g.created|
    && var o, p := g.state.operations[|s.operations| + c], d.schedules[Made(s, d, |d.schedules|)[c]].plan;
    && o.org == d.org && o.date == d.date && o.status == Draft && o.schoolClassId == p.schoolClassId
    && g.created[c] == o.id && PlannedAs(o.details, p) && MembersAreClass(g.state.members, o.id, d, p)
  }

  lemma MadeForItsClass(s: P.State, d: Input, g: Generation, c: nat)
    requires c < |Made(s, d, |d.schedules|)| && TracksLists(s, d, |d.schedules|, g) && AllRostered(s, d, |d.schedules|, g.state)
    ensures ForItsClass(s, d, g, c)
  {
    var x := d.schedules[Made(s, d, |d.schedules|)[c]];
    assert MadeFor(g.state.operations[|s.operations| + c], g.created[c], d, x);
    assert RosteredAt(s, d, Made(s, d, |d.schedules|), g.state, c);
    AsScheduled(x.plan);
  }

  /** From every state the store can be in: each operation made is a draft of its
      schedule's class for the day, planned as the schedule says, and its members
      are exactly the students that go on, are of that class and, if the schedule
      names a care class, of that; each once, planned, under its own name. */
  lemma {:induction false} OperationsAreForTheirClass(calls: seq<PickupRuns.Call>, d: Input, c: nat)
    requires Enrolled(d) && c < |Made(PickupRuns.Run(P.INIT, calls), d, |d.schedules|)|
    ensures var s := PickupRuns.Run(P.INIT, calls); ForItsClass(s, d, Generate(s, d, |d.schedules|), c)
  {
    var s := PickupRuns.Run(P.INIT, calls);
    RunKeepsHistory(P.INIT, calls);
    GenerateRosters(s, d, |d.schedules|);
    GenerateTracks(s, d, |d.schedules|);
    MadeForItsClass(s, d, Generate(s, d, |d.schedules|), c);
  }

  /** A due schedule is skipped for lack of students exactly when its class is not
      served yet, is going on, and nobody in it is to be fetched. */
  lemma {:induction false} NoStudentsMeansNobody(s: P.State, d: Input, k: nat)
    requires Enrolled(d) && k < |d.schedules| && FallsDue(d.schedules[k], d.date)
    requires forall i, j | 0 <= i < j < |d.schedules| :: d.schedules[i].id != d.schedules[j].id
    ensures var g, p := Generate(s, d, |d.schedules|), d.schedules[k].plan;
            (d.schedules[k].id in g.reasons && g.reasons[d.schedules[k].id] == NoStudents)
            <==> && !HasLive(s.operations, d.org, d.date, p.schoolClassId)
                 && !(exists j | 0 <= j < k :: DueFor(d, j, p.schoolClassId) && j in Made(s, d, |d.schedules|))
                 && ClassRuns(d.classes, p.schoolClassId) && !SomebodyToFetch(d.students, p)
  {
    var n := |d.schedules|;
    forall j: nat | j < k ensures j in Made(s, d, n) <==> IsMade(s, d, j) { MadeMembers(s, d, n, j); }
    if Fate(s, d, k).Some? { ReasonsAreRight(s, d, n, k); } else { MadeHasNoReason(s, d, n, k); }
  }

  lemma OnlyOwnReason(g: Generation, d: Input, x: Schedule, id: nat)
    requires x.id != id
    ensures id in Consider(g, d, x).reasons <==> id in g.reasons
  {
  }

  lemma MadeAddsNoReason(g: Generation, d: Input, x: Schedule)
    requires Enrolled(d) && Obstacle(g.existing, d, x.plan).None? && x.plan.schoolClassId !in LiveClasses(g.state.operations, d.org, d.date)
    ensures Consider(g, d, x).reasons == g.reasons
  {
    CreationSucceeds(g.state, d, x);
  }

  lemma {:induction false} MadeHasNoReason(s: P.State, d: Input, n: nat, k: nat)
    requires Enrolled(d) && k < |d.schedules| && n <= |d.schedules| && IsMade(s, d, k)
    requires forall i, j | 0 <= i < j < |d.schedules| :: d.schedules[i].id != d.schedules[j].id
    ensures d.schedules[k].id !in Generate(s, d, n).reasons
  {
    if n > 0 {
      var g := Generate(s, d, n - 1);
      MadeHasNoReason(s, d, n - 1, k);
      if n - 1 == k {
        GenerateTracks(s, d, k);
        ObstacleIsFate(s, d, k, g);
        MadeAddsNoReason(g, d, d.schedules[k]);
      } else {
        OnlyOwnReason(g, d, d.schedules[n - 1], d.schedules[k].id);
      }
    }
  }
}

/** What a run of the generator does with each schedule. */
module GeneratorRules {
  import opened Common
  import opened PickupModel
  import P = PickupSpec
  import opened PickupRuns
  import opened PickupAnswers
  import M = MasterData
  import opened Schedules
  import opened Generator

  /** Students have ids, as the master-data store gives them. */
  ghost predicate Enrolled(d: Input) { forall i | 0 <= i < |d.students| :: d.students[i].id != 0 }

  // ------------------------------------------- the rules, told from the records

  /** Enabled, on its weekday (Sunday is 0, and day 0 a Monday), within its period. */
  ghost predicate FallsDue(x: Schedule, date: Day) {
    x.plan.enabled && x.plan.weekday == (date + 1) % 7 && x.plan.from <= date && (x.plan.to == None || date <= x.plan.to.value)
  }

  /** The last class listed with that id is going on. */
  ghost predicate ClassRuns(classes: seq<M.SchoolClass>, id: nat) {
    exists k | 0 <= k < |classes| :: classes[k].id == id && classes[k].active && forall j | k < j < |classes| :: classes[j].id != id
  }

  /** A child to be fetched: going on, of the class, and of the care class if one is named. */
  ghost predicate ToFetch(x: M.Student, p: Plan) {
    x.active && x.schoolClassId == p.schoolClassId && (p.careClassId == None || x.careClassId == p.careClassId)
  }

  ghost predicate SomebodyToFetch(students: seq<M.Student>, p: Plan) { exists i | 0 <= i < |students| :: ToFetch(students[i], p) }

  lemma DueIsFallsDue(x: Schedule, date: Day)
    ensures Due(x, date) <==> FallsDue(x, date)
  {
  }

  lemma LiveIsTaken(ops: seq<Operation>, org: nat, date: Day, classId: nat)
    ensures classId in LiveClasses(ops, org, date) <==> HasLive(ops, org, date, classId)
  {
    if o :| 0 <= o < |ops| && ops[o].org == org && ops[o].date == date && ops[o].schoolClassId == classId && ops[o].status != Cancelled {
      assert LiveOn(ops[o], org, date);
    }
  }

  lemma ActiveRuns(classes: seq<M.SchoolClass>, id: nat)
    ensures ClassActive(classes, id) <==> ClassRuns(classes, id)
  {
    var f := LastIndex(classes, ClassId(id));
    if k :| 0 <= k < |classes| && classes[k].id == id && classes[k].active && forall j | k < j < |classes| :: classes[j].id != id {
      assert ClassId(id)(classes[k]);
    }
    if f.Some? {
      forall j | f.value < j < |classes| ensures classes[j].id != id { assert !ClassId(id)(classes[j]); }
    }
  }

  lemma RosterIsToFetch(students: seq<M.Student>, p: Plan)
    ensures forall x :: x in Select(students, RosterKey(p)) <==> x in students && ToFetch(x, p)
    ensures RosterOf(students, p) != [] <==> SomebodyToFetch(students, p)
  {
    var chosen := Select(students, RosterKey(p));
    forall x ensures x in chosen <==> x in students && ToFetch(x, p) {}
    if chosen != [] {
      assert chosen[0] in chosen;
      var i :| 0 <= i < |students| && students[i] == chosen[0];
    }
    if i :| 0 <= i < |students| && ToFetch(students[i], p) { assert students[i] in chosen; }
  }

  /** The generator's own tests are these rules. */
  lemma RulesAgree(s: P.State, d: Input, p: Plan)
    ensures p.schoolClassId in LiveClasses(s.operations, d.org, d.date) <==> HasLive(s.operations, d.org, d.date, p.schoolClassId)
    ensures ClassActive(d.classes, p.schoolClassId) <==> ClassRuns(d.classes, p.schoolClassId)
    ensures RosterOf(d.students, p) != [] <==> SomebodyToFetch(d.students, p)
  {
    LiveIsTaken(s.operations, d.org, d.date, p.schoolClassId);
    ActiveRuns(d.classes, p.schoolClassId);
    RosterIsToFetch(d.students, p);
  }

  /** Why schedule `k` is skipped, told from the inputs alone; none when an
      operation is made for it.  The class may be taken by an operation that was
      there or by an earlier schedule of the same run. */
  ghost function Fate(s: P.State, d: Input, k: nat): Option<SkipReason>
    requires k < |d.schedules|
  {
    var p := d.schedules[k].plan;
    if HasLive(s.operations, d.org, d.date, p.schoolClassId)
       || exists j | 0 <= j < k :: DueFor(d, j, p.schoolClassId) && Fate(s, d, j).None?
    then Some(AlreadyThere)
    else if !ClassRuns(d.classes, p.schoolClassId) then Some(NoActiveClass)
    else if !SomebodyToFetch(d.students, p) then Some(NoStudents)
    else None
  }

  ghost predicate DueFor(d: Input, j: nat, classId: nat)
    requires j < |d.schedules|
  {
    FallsDue(d.schedules[j], d.date) && d.schedules[j].plan.schoolClassId == classId
  }

  /** The due schedules among the first `n` that make an operation, and those that are skipped. */
  ghost function Made(s: P.State, d: Input, n: nat): (r: seq<nat>)
    requires n <= |d.schedules|
    ensures forall c | 0 <= c < |r| :: r[c] < n
  {
    if n == 0 then []
    else if FallsDue(d.schedules[n - 1], d.date) && Fate(s, d, n - 1).None? then Made(s, d, n - 1) + [n - 1]
    else Made(s, d, n - 1)
  }

  ghost function Passed(s: P.State, d: Input, n: nat): (r: seq<nat>)
    requires n <= |d.schedules|
    ensures forall c | 0 <= c < |r| :: r[c] < n
  {
    if n == 0 then []
    else if FallsDue(d.schedules[n - 1], d.date) && Fate(s, d, n - 1).Some? then Passed(s, d, n - 1) + [n - 1]
    else Passed(s, d, n - 1)
  }

  ghost predicate Rising(ks: seq<nat>) { forall a, b | 0 <= a < b < |ks| :: ks[a] < ks[b] }

  lemma {:induction false} ListsRise(s: P.State, d: Input, n: nat)
    requires n <= |d.schedules|
    ensures Rising(Made(s, d, n)) && Rising(Passed(s, d, n))
  {
    if n > 0 { ListsRise(s, d, n - 1); }
  }

  lemma {:induction false} MadeMembers(s: P.State, d: Input, n: nat, k: nat)
    requires n <= |d.schedules|
    ensures k in Made(s, d, n) <==> k < n && FallsDue(d.schedules[k], d.date) && Fate(s, d, k).None?
  {
    if n > 0 { MadeMembers(s, d, n - 1, k); }
  }

  lemma {:induction false} PassedMembers(s: P.State, d: Input, n: nat, k: nat)
    requires n <= |d.schedules|
    ensures k in Passed(s, d, n) <==> k < n && FallsDue(d.schedules[k], d.date) && Fate(s, d, k).Some?
  {
    if n > 0 { PassedMembers(s, d, n - 1, k); }
  }

  /** Every due schedule is on exactly one of the two lists, once, and no other schedule is on either. */
  lemma MadeOrPassed(s: P.State, d: Input, n: nat)
    requires n <= |d.schedules|
    ensures forall k | 0 <= k < n :: (k in Made(s, d, n) || k in Passed(s, d, n)) <==> FallsDue(d.schedules[k], d.date)
    ensures forall k :: !(k in Made(s, d, n) && k in Passed(s, d, n))
    ensures Rising(Made(s, d, n)) && Rising(Passed(s, d, n))
  {
    ListsRise(s, d, n);
    forall k: nat ensures (k in Made(s, d, n) || k in Passed(s, d, n)) <==> k < n && FallsDue(d.schedules[k], d.date)
                  ensures !(k in Made(s, d, n) && k in Passed(s, d, n))
    {
      MadeMembers(s, d, n, k);
      PassedMembers(s, d, n, k);
    }
  }

  ghost predicate IsMade(s: P.State, d: Input, j: nat)
    requires j < |d.schedules|
  {
    FallsDue(d.schedules[j], d.date) && Fate(s, d, j).None?
  }

  /** The operation made for a schedule. */
  predicate MadeFor(o: Operation, id: nat, d: Input, x: Schedule) {
    o.id == id && o.org == d.org && o.date == d.date && o.schoolClassId == x.plan.schoolClassId && o.details == DetailsOf(x.plan)
    && o.status == Draft
  }

  ghost predicate QuietFrom(s: P.State, t: P.State) {
    t.events == s.events && t.notifications == s.notifications && t.outbox == s.outbox && t.logs == s.logs && t.requests == s.requests
    && t.handoffs == s.handoffs && |s.members| <= |t.members| && t.members[..|s.members|] == s.members
  }

  /** The classes taken after `n` schedules. */
  ghost predicate TracksClasses(s: P.State, d: Input, n: nat, g: Generation)
    requires n <= |d.schedules|
  {
    && g.existing == LiveClasses(g.state.operations, d.org, d.date)
    && (forall c :: c in g.existing <==> HasLive(s.operations, d.org, d.date, c)
                                         || exists j | 0 <= j < n :: DueFor(d, j, c) && Fate(s, d, j).None?)
  }

  /** What was created and skipped after `n` schedules. */
  ghost predicate TracksLists(s: P.State, d: Input, n: nat, g: Generation)
    requires n <= |d.schedules|
  {
    && g.failure.None? && QuietFrom(s, g.state)
    && var made, passed := Made(s, d, n), Passed(s, d, n);
    && |g.created| == |made| && |g.state.operations| == |s.operations| + |made| && g.state.operations[..|s.operations|] == s.operations
    && (forall c | 0 <= c < |made| :: MadeFor(g.state.operations[|s.operations| + c], g.created[c], d, d.schedules[made[c]]))
    && (made == [] ==> g.state == s)
    && |g.skipped| == |passed| && (forall c | 0 <= c < |passed| :: g.skipped[c] == d.schedules[passed[c]].id)
  }

  /** Where the loop is after `n` schedules, told from `Made` and `Passed`. */
  ghost predicate Tracks(s: P.State, d: Input, n: nat, g: Generation)
    requires n <= |d.schedules|
  {
    TracksClasses(s, d, n, g) && TracksLists(s, d, n, g)
  }

  /** A nonempty roster of enrolled students, for a class without a live operation, always makes one. */
  lemma CreationSucceeds(s: P.State, d: Input, x: Schedule)
    requires Enrolled(d) && x.plan.schoolClassId !in LiveClasses(s.operations, d.org, d.date) && RosterOf(d.students, x.plan) != []
    ensures var r := P.CreateOperation(s, d.org, d.date, DetailsOf(x.plan), x.plan.schoolClassId, RosterOf(d.students, x.plan), d.now);
            && r.result.Ok? && r.state.operations == s.operations + [r.result.value] && MadeFor(r.result.value, r.result.value.id, d, x)
            && QuietFrom(s, r.state)
  {
    var roster := RosterOf(d.students, x.plan);
    var f := FirstIndex(s.operations, LiveKey(d.org, d.date, x.plan.schoolClassId));
    if f.Some? {
      assert LiveOn(s.operations[f.value], d.org, d.date);
      assert false;
    }
    var first := Select(d.students, RosterKey(x.plan))[0];
    assert first in Select(d.students, RosterKey(x.plan)) && first in d.students;
    var i :| 0 <= i < |d.students| && d.students[i] == first;
    assert roster[0].id == first.id != 0;
    NonzeroKeyRemains(roster, RefId(), 0);
    TrimIsTrimmed(x.plan.teacherName);
    TrimIsTrimmed(x.plan.expectedTime);
    TrimIsTrimmed(x.plan.notes);
  }

  lemma QuietTwice(s: P.State, m: P.State, t: P.State)
    requires QuietFrom(s, m) && QuietFrom(m, t)
    ensures QuietFrom(s, t)
  {
    assert t.members[..|s.members|] == t.members[..|m.members|][..|s.members|];
  }

  /** The new operation is appended, its class becomes taken. */
  ghost predicate Creates(g: Generation, g': Generation, d: Input, x: Schedule) {
    && |g'.state.operations| == |g.state.operations| + 1 && g'.created == g.created + [g'.state.operations[|g.state.operations|].id]
    && g'.state.operations == g.state.operations + [g'.state.operations[|g.state.operations|]]
    && MadeFor(g'.state.operations[|g.state.operations|], g'.state.operations[|g.state.operations|].id, d, x)
    && QuietFrom(g.state, g'.state) && g'.existing == g.existing + {x.plan.schoolClassId}
    && g'.failure == g.failure && g'.skipped == g.skipped
  }

  lemma MadeClasses(s: P.State, d: Input, n: nat, g: Generation, g': Generation)
    requires 0 < n <= |d.schedules| && TracksClasses(s, d, n - 1, g) && IsMade(s, d, n - 1) && Creates(g, g', d, d.schedules[n - 1])
    ensures TracksClasses(s, d, n, g')
  {
    var x := d.schedules[n - 1];
    LiveClassesAppend(g.state.operations, g'.state.operations[|g.state.operations|], d.org, d.date);
    assert DueFor(d, n - 1, x.plan.schoolClassId);
    forall c ensures c in g'.existing <==> HasLive(s.operations, d.org, d.date, c)
                                           || exists j | 0 <= j < n :: DueFor(d, j, c) && Fate(s, d, j).None?
    {
      if j :| 0 <= j < n && DueFor(d, j, c) && Fate(s, d, j).None? { assert j < n - 1 || c == x.plan.schoolClassId; }
    }
  }

  lemma MadeLists(s: P.State, d: Input, n: nat, g: Generation, g': Generation)
    requires 0 < n <= |d.schedules| && TracksLists(s, d, n - 1, g) && IsMade(s, d, n - 1) && Creates(g, g', d, d.schedules[n - 1])
    ensures TracksLists(s, d, n, g')
  {
    QuietTwice(s, g.state, g'.state);
    assert Made(s, d, n) == Made(s, d, n - 1) + [n - 1] && Passed(s, d, n) == Passed(s, d, n - 1);
    assert g'.state.operations[..|s.operations|] == g.state.operations[..|s.operations|];
  }

  /** What keeps the next schedule from being tried is its fate. */
  lemma ObstacleIsFate(s: P.State, d: Input, n: nat, g: Generation)
    requires n < |d.schedules| && TracksClasses(s, d, n, g)
    ensures Obstacle(g.existing, d, d.schedules[n].plan) == Fate(s, d, n)
    ensures Due(d.schedules[n], d.date) <==> FallsDue(d.schedules[n], d.date)
  {
    RulesAgree(s, d, d.schedules[n].plan);
    DueIsFallsDue(d.schedules[n], d.date);
  }

  lemma MadeTracks(s: P.State, d: Input, n: nat, g: Generation)
    requires 0 < n <= |d.schedules| && Enrolled(d) && Tracks(s, d, n - 1, g) && IsMade(s, d, n - 1)
    ensures Tracks(s, d, n, Consider(g, d, d.schedules[n - 1]))
  {
    var x := d.schedules[n - 1];
    ObstacleIsFate(s, d, n - 1, g);
    CreationSucceeds(g.state, d, x);
    MadeClasses(s, d, n, g, Consider(g, d, x));
    MadeLists(s, d, n, g, Consider(g, d, x));
  }

  lemma PassedTracks(s: P.State, d: Input, n: nat, g: Generation)
    requires 0 < n <= |d.schedules| && Tracks(s, d, n - 1, g) && !IsMade(s, d, n - 1)
    ensures Tracks(s, d, n, Consider(g, d, d.schedules[n - 1]))
  {
    var x := d.schedules[n - 1];
    var g' := Consider(g, d, x);
    ObstacleIsFate(s, d, n - 1, g);
    assert g'.state == g.state && g'.existing == g.existing;
    PassedClasses(s, d, n, g);
    assert Made(s, d, n) == Made(s, d, n - 1);
  }

  lemma PassedClasses(s: P.State, d: Input, n: nat, g: Generation)
    requires 0 < n <= |d.schedules| && TracksClasses(s, d, n - 1, g) && !IsMade(s, d, n - 1)
    ensures TracksClasses(s, d, n, g)
  {
    forall c ensures c in g.existing <==> HasLive(s.operations, d.org, d.date, c)
                                          || exists j | 0 <= j < n :: DueFor(d, j, c) && Fate(s, d, j).None?
    {
      if j :| 0 <= j < n && DueFor(d, j, c) && Fate(s, d, j).None? { assert j < n - 1; }
    }
  }

  /** The loop agrees with `Made` and `Passed` at every step. */
  lemma {:induction false} GenerateTracks(s: P.State, d: Input, n: nat)
    requires n <= |d.schedules| && Enrolled(d)
    ensures Tracks(s, d, n, Generate(s, d, n))
  {
    if n == 0 {
      assert s.operations[..|s.operations|] == s.operations && s.members[..|s.members|] == s.members;
    } else {
      GenerateTracks(s, d, n - 1);
      if IsMade(s, d, n - 1) { MadeTracks(s, d, n, Generate(s, d, n - 1)); }
      else { PassedTracks(s, d, n, Generate(s, d, n - 1)); }
    }
  }

  /** Generate succeeds; its created operations are those of the due schedules
      that had a free active class with children, in order, its skipped ids
      those of the other due schedules, in order; nothing else in the pickup
      store changes but the members of the new operations. */
  lemma {:induction false} EachDueScheduleOnce(s: P.State, d: Input)
    requires Enrolled(d)
    ensures var n := |d.schedules|; var g := Generate(s, d, n); var made, passed := Made(s, d, n), Passed(s, d, n);
            && TracksLists(s, d, n, g)
            && (forall k | 0 <= k < n :: (k in made || k in passed) <==> FallsDue(d.schedules[k], d.date))
            && (forall k :: !(k in made && k in passed)) && Rising(made) && Rising(passed)
  {
    GenerateTracks(s, d, |d.schedules|);
    MadeOrPassed(s, d, |d.schedules|);
  }

  /** A second run on what the first one left creates nothing and changes nothing. */
  lemma {:induction false} SecondRunCreatesNothing(s: P.State, d: Input)
    requires Enrolled(d)
    ensures var n := |d.schedules|; var t := Generate(s, d, n).state; var again := Generate(t, d, n);
            again.created == [] && again.state == t && again.failure.None?
  {
    var n := |d.schedules|;
    var t := Generate(s, d, n).state;
    GenerateTracks(s, d, n);
    GenerateTracks(t, d, n);
    forall k | 0 <= k < n && FallsDue(d.schedules[k], d.date) ensures Fate(t, d, k).Some? {
      if Fate(s, d, k).None? { assert DueFor(d, k, d.schedules[k].plan.schoolClassId); }
    }
    NothingMade(t, d, n);
  }

  lemma {:induction false} NothingMade(s: P.State, d: Input, n: nat)
    requires n <= |d.schedules| && forall k | 0 <= k < n && FallsDue(d.schedules[k], d.date) :: Fate(s, d, k).Some?
    ensures Made(s, d, n) == []
  {
    if n > 0 { NothingMade(s, d, n - 1); }
  }

  /** The schedules are stored ones of the organization, each listed once. */
  ghost predicate Stored(store: Schedules.State, d: Input) {
    && (forall k | 0 <= k < |d.schedules| :: d.schedules[k] in store.schedules && d.schedules[k].org == d.org)
    && (forall j, k | 0 <= j < k < |d.schedules| :: d.schedules[j].id != d.schedules[k].id)
  }

  /** On a day without live operations no stored schedule is skipped because its operation is already there. */
  lemma {:induction false} NothingAlreadyThere(calls: seq<Schedules.Call>, s: P.State, d: Input, k: nat)
    requires Stored(Schedules.Run(Schedules.INIT, calls), d) && forall classId :: !HasLive(s.operations, d.org, d.date, classId)
    requires k < |d.schedules| && FallsDue(d.schedules[k], d.date)
    ensures Fate(s, d, k) != Some(AlreadyThere)
  {
    var store := Schedules.Run(Schedules.INIT, calls);
    DueIsFallsDue(d.schedules[k], d.date);
    forall j | 0 <= j < k ensures !DueFor(d, j, d.schedules[k].plan.schoolClassId) {
      DueIsFallsDue(d.schedules[j], d.date);
      var a :| 0 <= a < |store.schedules| && store.schedules[a] == d.schedules[j];
      var b :| 0 <= b < |store.schedules| && store.schedules[b] == d.schedules[k];
      OneDuePerClassAndDay(calls, a, b, d.date);
    }
  }

  lemma ReasonStays(g: Generation, d: Input, x: Schedule, id: nat)
    requires id in g.reasons && x.id != id
    ensures id in Consider(g, d, x).reasons && Consider(g, d, x).reasons[id] == g.reasons[id]
  {
  }

  /** The pass never fails on the way. */
  lemma NextGeneration(s: P.State, d: Input, n: nat)
    requires 0 < n <= |d.schedules| && Enrolled(d)
    ensures Generate(s, d, n) == Consider(Generate(s, d, n - 1), d, d.schedules[n - 1])
  {
    GenerateTracks(s, d, n - 1);
  }

  /** With distinct ids, each skipped schedule is given its own reason. */
  lemma {:induction false} ReasonsAreRight(s: P.State, d: Input, n: nat, k: nat)
    requires Enrolled(d) && k < n <= |d.schedules| && (forall i, j | 0 <= i < j < |d.schedules| :: d.schedules[i].id != d.schedules[j].id)
    requires FallsDue(d.schedules[k], d.date) && Fate(s, d, k).Some?
    ensures d.schedules[k].id in Generate(s, d, n).reasons
    ensures Generate(s, d, n).reasons[d.schedules[k].id] == Fate(s, d, k).value
  {
    var g := Generate(s, d, n - 1);
    NextGeneration(s, d, n);
    if k < n - 1 {
      ReasonsAreRight(s, d, n - 1, k);
      ReasonStays(g, d, d.schedules[n - 1], d.schedules[k].id);
    } else {
      GenerateTracks(s, d, k);
      ObstacleIsFate(s, d, k, g);
      OwnReason(g, d, d.schedules[k]);
    }
  }

  lemma OwnReason(g: Generation, d: Input, x: Schedule)
    requires Due(x, d.date) && Obstacle(g.existing, d, x.plan).Some?
    ensures var r := Consider(g, d, x).reasons; x.id in r && r[x.id] == Obstacle(g.existing, d, x.plan).value
  {
  }

  lemma ConsiderIsCreation(g: Generation, d: Input, x: Schedule) returns (call: PickupRuns.Call)
    ensures call.command.CmdCreate? && call.org == d.org && call.command.date == d.date
    ensures var t := Consider(g, d, x).state; t == g.state || t == PickupRuns.Step(g.state, call.org, call.command, call.now)
  {
    call := PickupRuns.Call(d.org, CmdCreate(d.date, DetailsOf(x.plan), x.plan.schoolClassId, RosterOf(d.students, x.plan)), d.now);
  }

  /** A generator does to the pickup store what calls of CreateOperation alone do. */
  lemma {:induction false} GenerateIsCreations(s: P.State, d: Input, n: nat) returns (calls: seq<PickupRuns.Call>)
    requires n <= |d.schedules|
    ensures Generate(s, d, n).state == PickupRuns.Run(s, calls)
    ensures forall c | c in calls :: c.command.CmdCreate? && c.org == d.org && c.command.date == d.date
  {
    if n == 0 { return []; }
    calls := GenerateIsCreations(s, d, n - 1);
    var g := Generate(s, d, n - 1);
    if Generate(s, d, n).state != g.state {
      var call := ConsiderIsCreation(g, d, d.schedules[n - 1]);
      RunAppend(s, calls, call);
      calls := calls + [call];
    }
  }
}

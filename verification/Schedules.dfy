/** The weekly schedules: create and update keep enabled schedules of a class from overlapping. */
module Schedules {
  import opened Common
  import opened PickupModel

  /** Days count from 0001-01-01, a Monday, which Go calls the zero time. */
  const ZERO_DAY: Day := 0

  /** time.Weekday: Sunday is 0. */
  function WeekdayOf(d: Day): int { (d + 1) % 7 }

  datatype Plan = Plan(
    schoolId: nat, schoolClassId: nat, careClassId: Option<nat>, weekday: int, pickupMode: string, teacherId: Option<nat>,
    teacherName: string, expectedTime: string, from: Day, to: Option<Day>, enabled: bool, notes: string)

  datatype Schedule = Schedule(id: nat, org: nat, plan: Plan, createdAt: Time, updatedAt: Time)

  datatype State = State(nextId: nat, schedules: seq<Schedule>)

  const INIT := State(1, [])

  datatype Outcome = Outcome(state: State, result: Result<Schedule>)

  predicate ValidPlan(p: Plan) {
    && p.schoolId != 0 && p.schoolClassId != 0 && 0 <= p.weekday <= 6 && p.from != ZERO_DAY
    && p.pickupMode in {"school_pickup", "self_arrival"}
    && (p.to.Some? ==> p.from <= p.to.value)
    && |Trim(p.expectedTime)| <= 16 && |Trim(p.notes)| <= 500
  }

  predicate Overlaps(a: Plan, b: Plan) {
    if a.schoolClassId != b.schoolClassId || a.weekday != b.weekday then false
    else if a.to.Some? && a.to.value < b.from then false
    else if b.to.Some? && b.to.value < a.from then false
    else true
  }

  function Cleaned(p: Plan): Plan {
    p.(teacherName := Trim(p.teacherName), expectedTime := Trim(p.expectedTime), notes := Trim(p.notes))
  }

  function ClashKey(org: nat, p: Plan): Schedule -> bool {
    (x: Schedule) => x.org == org && x.plan.enabled && Overlaps(x.plan, p)
  }

  function OtherClashKey(org: nat, id: nat, p: Plan): Schedule -> bool {
    (x: Schedule) => x.id != id && x.org == org && x.plan.enabled && p.enabled && Overlaps(x.plan, p)
  }

  function ScheduleKey(org: nat, id: nat): Schedule -> bool {
    (x: Schedule) => x.org == org && x.id == id
  }

  function CreateSchedule(s: State, org: nat, p: Plan, now: Time): Outcome {
    if !ValidPlan(p) then Outcome(s, Err(InvalidInput))
    else if FirstIndex(s.schedules, ClashKey(org, p)).Some? then Outcome(s, Err(Conflict))
    else
      var x := Schedule(s.nextId, org, Cleaned(p), now, now);
      Outcome(State(s.nextId + 1, s.schedules + [x]), Ok(x))
  }

  function UpdateSchedule(s: State, org: nat, id: nat, p: Plan, now: Time): Outcome {
    if !ValidPlan(p) then Outcome(s, Err(InvalidInput))
    else
      match FirstIndex(s.schedules, ScheduleKey(org, id))
      case None => Outcome(s, Err(NotFound))
      case Some(i) =>
        if FirstIndex(s.schedules, OtherClashKey(org, s.schedules[i].id, p)).Some? then Outcome(s, Err(Conflict))
        else
          var x := Schedule(s.schedules[i].id, org, Cleaned(p), s.schedules[i].createdAt, now);
          Outcome(s.(schedules := s.schedules[i := x]), Ok(x))
  }

  class MemoryStore {
    var nextId: nat
    var schedules: seq<Schedule>

    ghost function View(): State
      reads this
    {
      State(nextId, schedules)
    }

    constructor ()
      ensures View() == INIT
    {
      nextId, schedules := 1, [];
    }

    method Create(org: nat, p: Plan, now: Time) returns (result: Result<Schedule>)
      modifies this
      ensures Outcome(View(), result) == CreateSchedule(old(View()), org, p, now)
    {
      if !ValidPlan(p) {
        return Err(InvalidInput);
      }
      for i := 0 to |schedules|
        invariant View() == old(View())
        invariant forall j | 0 <= j < i :: !ClashKey(org, p)(schedules[j])
      {
        var x := schedules[i];
        if x.org == org && x.plan.enabled && Overlaps(x.plan, p) {
          return Err(Conflict);
        }
      }
      var item := Schedule(nextId, org, Cleaned(p), now, now);
      nextId, schedules := nextId + 1, schedules + [item];
      result := Ok(item);
    }

    method Update(org: nat, id: nat, p: Plan, now: Time) returns (result: Result<Schedule>)
      modifies this
      ensures Outcome(View(), result) == UpdateSchedule(old(View()), org, id, p, now)
    {
      if !ValidPlan(p) {
        return Err(InvalidInput);
      }
      var i := Scan(schedules, ScheduleKey(org, id));
      if i.None? {
        return Err(NotFound);
      }
      var item := schedules[i.value];
      for j := 0 to |schedules|
        invariant View() == old(View())
        invariant forall l | 0 <= l < j :: !OtherClashKey(org, item.id, p)(schedules[l])
      {
        var other := schedules[j];
        if other.id != item.id && other.org == org && other.plan.enabled && p.enabled && Overlaps(other.plan, p) {
          return Err(Conflict);
        }
      }
      var updated := Schedule(item.id, org, Cleaned(p), item.createdAt, now);
      schedules := schedules[i.value := updated];
      result := Ok(updated);
    }
  }

  // ------------------------------------------------------------------- runs

  datatype Call =
    | CallCreate(org: nat, plan: Plan, now: Time)
    | CallUpdate(org: nat, id: nat, plan: Plan, now: Time)

  function Step(s: State, c: Call): State {
    match c
    case CallCreate(org, p, now) => CreateSchedule(s, org, p, now).state
    case CallUpdate(org, id, p, now) => UpdateSchedule(s, org, id, p, now).state
  }

  function Run(s: State, calls: seq<Call>): State {
    if calls == [] then s else Step(Run(s, calls[..|calls| - 1]), calls[|calls| - 1])
  }

  predicate Covers(p: Plan, d: Day) { p.from <= d && (p.to.Some? ==> d <= p.to.value) }

  /** The store's own test is right: two valid plans overlap when the same class
      and weekday share a day of their periods. */
  lemma {:induction false} OverlapsMeansCommonDay(a: Plan, b: Plan)
    requires ValidPlan(a) && ValidPlan(b)
    ensures Overlaps(a, b) <==> a.schoolClassId == b.schoolClassId && a.weekday == b.weekday && exists d :: Covers(a, d) && Covers(b, d)
  {
    var latest := if a.from < b.from then b.from else a.from;
    if Overlaps(a, b) { assert Covers(a, latest) && Covers(b, latest); }
  }

  ghost predicate Disjoint(s: State) {
    && s.nextId >= 1
    && (forall i | 0 <= i < |s.schedules| :: 1 <= s.schedules[i].id < s.nextId && ValidPlan(s.schedules[i].plan))
    && (forall i, j | 0 <= i < j < |s.schedules| :: s.schedules[i].id != s.schedules[j].id)
    && (forall i, j | 0 <= i < |s.schedules| && 0 <= j < |s.schedules| && i != j :: !Clash(s.schedules[i], s.schedules[j]))
  }

  predicate Clash(x: Schedule, y: Schedule) {
    x.org == y.org && x.plan.enabled && y.plan.enabled && Overlaps(x.plan, y.plan)
  }

  lemma CleanedIsValid(p: Plan)
    requires ValidPlan(p)
    ensures ValidPlan(Cleaned(p))
  {
    TrimIsTrimmed(p.expectedTime);
    TrimIsTrimmed(p.notes);
  }

  lemma StepKeepsDisjoint(s: State, c: Call)
    requires Disjoint(s)
    ensures Disjoint(Step(s, c))
  {
    if ValidPlan(c.plan) { CleanedIsValid(c.plan); }
    match c
    case CallCreate(org, p, now) => CreateKeepsDisjoint(s, org, p, now);
    case CallUpdate(org, id, p, now) => UpdateKeepsDisjoint(s, org, id, p, now);
  }

  lemma CreateKeepsDisjoint(s: State, org: nat, p: Plan, now: Time)
    requires Disjoint(s) && (ValidPlan(p) ==> ValidPlan(Cleaned(p)))
    ensures Disjoint(CreateSchedule(s, org, p, now).state)
  {
    var r := CreateSchedule(s, org, p, now);
    if r.result.Ok? {
      var x := r.result.value;
      forall j | 0 <= j < |s.schedules| ensures !Clash(x, s.schedules[j]) && !Clash(s.schedules[j], x) {
        assert !ClashKey(org, p)(s.schedules[j]);
      }
      AppendKeepsDisjoint(s, r.state, x);
    }
  }

  lemma AppendKeepsDisjoint(s: State, t: State, x: Schedule)
    requires Disjoint(s) && t == State(s.nextId + 1, s.schedules + [x]) && x.id == s.nextId && ValidPlan(x.plan)
    requires forall j | 0 <= j < |s.schedules| :: !Clash(x, s.schedules[j]) && !Clash(s.schedules[j], x)
    ensures Disjoint(t)
  {
  }

  lemma UpdateKeepsDisjoint(s: State, org: nat, id: nat, p: Plan, now: Time)
    requires Disjoint(s) && (ValidPlan(p) ==> ValidPlan(Cleaned(p)))
    ensures Disjoint(UpdateSchedule(s, org, id, p, now).state)
  {
    var r := UpdateSchedule(s, org, id, p, now);
    if r.result.Ok? {
      var k := FirstIndex(s.schedules, ScheduleKey(org, id)).value;
      forall j | 0 <= j < |s.schedules| && j != k ensures !Clash(r.state.schedules[k], s.schedules[j]) && !Clash(s.schedules[j], r.state.schedules[k]) {
        assert s.schedules[j].id != s.schedules[k].id;
        assert !OtherClashKey(org, s.schedules[k].id, p)(s.schedules[j]);
      }
    }
  }

  lemma {:induction false} RunKeepsDisjoint(s: State, calls: seq<Call>)
    requires Disjoint(s)
    ensures Disjoint(Run(s, calls))
  {
    if calls != [] {
      RunKeepsDisjoint(s, calls[..|calls| - 1]);
      StepKeepsDisjoint(Run(s, calls[..|calls| - 1]), calls[|calls| - 1]);
    }
  }

  /** Due on a day: enabled, the day's weekday, within the period. */
  predicate Due(x: Schedule, d: Day) { x.plan.enabled && x.plan.weekday == WeekdayOf(d) && Covers(x.plan, d) }

  /** In every run no two enabled schedules of an organization overlap, so at
      most one is due per class and day. */
  lemma {:induction false} OneDuePerClassAndDay(calls: seq<Call>, i: nat, j: nat, d: Day)
    requires i < |Run(INIT, calls).schedules| && j < |Run(INIT, calls).schedules| && i != j
    requires Run(INIT, calls).schedules[i].org == Run(INIT, calls).schedules[j].org
    ensures var x, y := Run(INIT, calls).schedules[i], Run(INIT, calls).schedules[j];
            && !(x.plan.enabled && y.plan.enabled && Overlaps(x.plan, y.plan))
            && (Due(x, d) && Due(y, d) ==> x.plan.schoolClassId != y.plan.schoolClassId)
  {
    RunKeepsDisjoint(INIT, calls);
    var x, y := Run(INIT, calls).schedules[i], Run(INIT, calls).schedules[j];
    assert !Clash(x, y);
    if Due(x, d) && Due(y, d) { OverlapsMeansCommonDay(x.plan, y.plan); }
  }

  // ------------------------------------------------- when plans are accepted

  /** A plan as it may be handed in. */
  predicate WellFormed(p: Plan) {
    && p.schoolId > 0 && p.schoolClassId > 0 && 0 <= p.weekday < 7 && p.from != 0 && (p.to == None || p.from <= p.to.value)
    && (p.pickupMode == "school_pickup" || p.pickupMode == "self_arrival") && |Trim(p.expectedTime)| <= 16 && |Trim(p.notes)| <= 500
  }

  /** Schedule `x` takes the plan's class on some day the plan would. */
  ghost predicate Competes(x: Schedule, org: nat, p: Plan) {
    x.org == org && x.plan.enabled && x.plan.schoolClassId == p.schoolClassId && x.plan.weekday == p.weekday && exists d :: BothOn(x.plan, p, d)
  }

  predicate BothOn(a: Plan, b: Plan, d: Day) {
    a.from <= d && (a.to == None || d <= a.to.value) && b.from <= d && (b.to == None || d <= b.to.value)
  }

  lemma CompetingOverlaps(x: Schedule, org: nat, p: Plan)
    requires ValidPlan(x.plan) && ValidPlan(p)
    ensures Competes(x, org, p) <==> x.org == org && x.plan.enabled && Overlaps(x.plan, p)
  {
    OverlapsMeansCommonDay(x.plan, p);
    if d :| Covers(x.plan, d) && Covers(p, d) { assert BothOn(x.plan, p, d); }
    if d :| BothOn(x.plan, p, d) { assert Covers(x.plan, d) && Covers(p, d); }
  }

  lemma CompetingClash(xs: seq<Schedule>, org: nat, p: Plan)
    requires ValidPlan(p) && forall i | 0 <= i < |xs| :: ValidPlan(xs[i].plan)
    ensures forall i | 0 <= i < |xs| :: Competes(xs[i], org, p) <==> ClashKey(org, p)(xs[i])
  {
    forall i | 0 <= i < |xs| ensures Competes(xs[i], org, p) <==> ClashKey(org, p)(xs[i]) { CompetingOverlaps(xs[i], org, p); }
  }

  /** In every run a plan is taken on exactly when it is well-formed and no enabled
      schedule of the organization takes its class on a day it would (enabled or
      not); and replaces another's exactly when it is well-formed, the other is
      there, and, if it is to be enabled, none but the other takes such a day. */
  lemma {:induction false} PlansAreAcceptedWhen(calls: seq<Call>, org: nat, id: nat, p: Plan, now: Time)
    ensures var s := Run(INIT, calls);
            && (CreateSchedule(s, org, p, now).result.Ok? <==>
                WellFormed(p) && !exists i | 0 <= i < |s.schedules| :: Competes(s.schedules[i], org, p))
            && (UpdateSchedule(s, org, id, p, now).result.Ok? <==>
                && WellFormed(p) && (exists i | 0 <= i < |s.schedules| :: s.schedules[i].org == org && s.schedules[i].id == id)
                && (p.enabled ==> !exists i | 0 <= i < |s.schedules| :: s.schedules[i].id != id && Competes(s.schedules[i], org, p)))
  {
    var s := Run(INIT, calls);
    RunKeepsDisjoint(INIT, calls);
    if ValidPlan(p) {
      CompetingClash(s.schedules, org, p);
      CreatedUnless(s, org, p, now);
      UpdatedUnless(s, org, id, p, now);
    }
  }

  lemma CreatedUnless(s: State, org: nat, p: Plan, now: Time)
    requires ValidPlan(p)
    ensures CreateSchedule(s, org, p, now).result.Err? <==> exists i | 0 <= i < |s.schedules| :: ClashKey(org, p)(s.schedules[i])
  {
  }

  lemma UpdatedUnless(s: State, org: nat, id: nat, p: Plan, now: Time)
    requires ValidPlan(p)
    ensures UpdateSchedule(s, org, id, p, now).result.Ok? <==>
              && (exists i | 0 <= i < |s.schedules| :: s.schedules[i].org == org && s.schedules[i].id == id)
              && (p.enabled ==> !exists i | 0 <= i < |s.schedules| :: s.schedules[i].id != id && ClashKey(org, p)(s.schedules[i]))
  {
    var f := FirstIndex(s.schedules, ScheduleKey(org, id));
    if i :| 0 <= i < |s.schedules| && s.schedules[i].org == org && s.schedules[i].id == id { assert ScheduleKey(org, id)(s.schedules[i]); }
    if f.Some? {
      var c := FirstIndex(s.schedules, OtherClashKey(org, id, p));
      if i :| 0 <= i < |s.schedules| && s.schedules[i].id != id && ClashKey(org, p)(s.schedules[i]) && p.enabled {
        assert OtherClashKey(org, id, p)(s.schedules[i]);
      }
    }
  }
}

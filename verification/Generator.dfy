/** The daily generator: weekly schedules that are due become draft pickup operations. */
module Generator {
  import opened Common
  import opened PickupModel
  import P = PickupSpec
  import PickupStore
  import M = MasterData
  import opened Schedules

  datatype SkipReason = AlreadyThere | NoActiveClass | NoStudents

  /** What one call of Generate works from. */
  datatype Input = Input(org: nat, date: Day, schedules: seq<Schedule>, classes: seq<M.SchoolClass>, students: seq<M.Student>, now: Time)

  datatype Generation = Generation(
    state: P.State, existing: set<nat>, created: seq<nat>, skipped: seq<nat>, reasons: map<nat, SkipReason>, failure: Option<Error>)

  /** The classes that have a live operation that day. */
  function LiveClasses(operations: seq<Operation>, org: nat, date: Day): set<nat> {
    set i | 0 <= i < |operations| && LiveOn(operations[i], org, date) :: operations[i].schoolClassId
  }

  predicate LiveOn(o: Operation, org: nat, date: Day) { o.org == org && o.date == date && o.status != Cancelled }

  function ClassId(id: nat): M.SchoolClass -> bool { (c: M.SchoolClass) => c.id == id }

  /** The table of classes keeps the last one with an id. */
  predicate ClassActive(classes: seq<M.SchoolClass>, id: nat) {
    var c := LastIndex(classes, ClassId(id));
    c.Some? && classes[c.value].active
  }

  predicate OnRoster(x: M.Student, p: Plan) {
    x.active && x.schoolClassId == p.schoolClassId && (p.careClassId.Some? ==> x.careClassId == p.careClassId)
  }

  function RosterKey(p: Plan): M.Student -> bool { (x: M.Student) => OnRoster(x, p) }

  function Refs(xs: seq<M.Student>): seq<StudentRef> {
    seq(|xs|, i requires 0 <= i < |xs| => StudentRef(xs[i].id, xs[i].name))
  }

  function RosterOf(students: seq<M.Student>, p: Plan): seq<StudentRef> { Refs(Select(students, RosterKey(p))) }

  /** What the operation of a schedule is to be like. */
  function DetailsOf(p: Plan): Details {
    Details(p.pickupMode, p.schoolId, p.careClassId, Teacher(p.teacherId, Trim(p.teacherName)), Trim(p.expectedTime), Trim(p.notes))
  }

  function Skip(g: Generation, x: Schedule, reason: SkipReason): Generation {
    g.(skipped := g.skipped + [x.id], reasons := g.reasons[x.id := reason])
  }

  /** What keeps a due schedule from being tried. */
  function Obstacle(existing: set<nat>, d: Input, p: Plan): Option<SkipReason> {
    if p.schoolClassId in existing then Some(AlreadyThere)
    else if !ClassActive(d.classes, p.schoolClassId) then Some(NoActiveClass)
    else if RosterOf(d.students, p) == [] then Some(NoStudents)
    else None
  }

  /** The loop's body for one schedule. */
  function Consider(g: Generation, d: Input, x: Schedule): Generation {
    if !Due(x, d.date) then g
    else if Obstacle(g.existing, d, x.plan).Some? then Skip(g, x, Obstacle(g.existing, d, x.plan).value)
    else
      var r := P.CreateOperation(g.state, d.org, d.date, DetailsOf(x.plan), x.plan.schoolClassId, RosterOf(d.students, x.plan), d.now);
      match r.result
      case Err(e) => if e == Conflict then Skip(g.(state := r.state), x, AlreadyThere) else g.(state := r.state, failure := Some(e))
      case Ok(o) => g.(state := r.state, created := g.created + [o.id], existing := g.existing + {x.plan.schoolClassId})
  }

  function Generate(s: P.State, d: Input, n: nat): Generation
    requires n <= |d.schedules|
  {
    if n == 0 then Generation(s, LiveClasses(s.operations, d.org, d.date), [], [], map[], None)
    else
      var g := Generate(s, d, n - 1);
      if g.failure.Some? then g else Consider(g, d, d.schedules[n - 1])
  }

  /** The generator's own record of a pass. */
  datatype Pass = Pass(existing: set<nat>, created: seq<nat>, skipped: seq<nat>, reasons: map<nat, SkipReason>)

  function After(s: P.State, pass: Pass, failure: Option<Error>): Generation {
    Generation(s, pass.existing, pass.created, pass.skipped, pass.reasons, failure)
  }

  class PickupGenerator {
    const pickup: PickupStore.MemoryStore
    const masterData: M.MemoryStore

    constructor (pickup: PickupStore.MemoryStore, masterData: M.MemoryStore)
      ensures this.pickup == pickup && this.masterData == masterData
    {
      this.pickup, this.masterData := pickup, masterData;
    }

    /** The organization's own classes and students. */
    ghost function InputOf(org: nat, date: Day, schedules: seq<Schedule>, now: Time): (d: Input)
      reads masterData
      ensures forall c :: c in d.classes <==> c in masterData.classes && c.org == org
      ensures forall x :: x in d.students <==> x in masterData.students && x.org == org
    {
      Input(org, date, schedules, Select(masterData.classes, M.ClassesOf(org)), Select(masterData.students, M.StudentsOf(org)), now)
    }

    method Run(org: nat, date: Day, schedules: seq<Schedule>, now: Time)
      returns (created: seq<nat>, skipped: seq<nat>, reasons: map<nat, SkipReason>, failure: Option<Error>)
      modifies pickup
      ensures var g := Generate(old(pickup.View()), InputOf(org, date, schedules, now), |schedules|);
              && pickup.View() == g.state && created == g.created && skipped == g.skipped
              && reasons == g.reasons && failure == g.failure
    {
      var classes := masterData.ListSchoolClasses(org);
      var students := masterData.ListStudents(org);
      var active := ActiveTable(classes);
      var existing := ExistingClasses(org, date);
      ghost var d, s := InputOf(org, date, schedules, now), pickup.View();
      var pass := Pass(existing, [], [], map[]);
      failure := None;
      for i := 0 to |schedules|
        invariant failure.None?
        invariant Generate(s, d, i) == After(pickup.View(), pass, failure)
      {
        pass, failure := TakeUp(d, org, date, now, schedules[i], active, students, pass);
        if failure.Some? {
          FailedStays(s, d, i + 1, |schedules|);
          return pass.created, pass.skipped, pass.reasons, failure;
        }
      }
      created, skipped, reasons := pass.created, pass.skipped, pass.reasons;
    }

    /** The body of the loop. */
    method TakeUp(ghost d: Input, org: nat, date: Day, now: Time, item: Schedule, active: set<nat>, students: seq<M.Student>, before: Pass)
      returns (pass: Pass, failure: Option<Error>)
      requires d.org == org && d.date == date && d.now == now && students == d.students
      requires forall id :: id in active <==> ClassActive(d.classes, id)
      modifies pickup
      ensures After(pickup.View(), pass, failure) == Consider(After(old(pickup.View()), before, None), d, item)
    {
      pass, failure := before, None;
      if !Due(item, date) {
        return;
      }
      var obstacle, roster := CheckSchedule(d, item.plan, pass.existing, active, students);
      if obstacle.Some? {
        pass := pass.(skipped := pass.skipped + [item.id], reasons := pass.reasons[item.id := obstacle.value]);
        return;
      }
      var result := pickup.CreateOperation(org, date, DetailsOf(item.plan), item.plan.schoolClassId, roster, now);
      if result.Err? {
        if result.error == Conflict {
          pass := pass.(skipped := pass.skipped + [item.id], reasons := pass.reasons[item.id := AlreadyThere]);
          return;
        }
        failure := Some(result.error);
        return;
      }
      pass := pass.(created := pass.created + [result.value.id], existing := pass.existing + {item.plan.schoolClassId});
    }

    /** The reasons to skip, in the order they are looked at; the roster is built last. */
    method CheckSchedule(ghost d: Input, p: Plan, existing: set<nat>, active: set<nat>, students: seq<M.Student>)
      returns (obstacle: Option<SkipReason>, roster: seq<StudentRef>)
      requires (forall id :: id in active <==> ClassActive(d.classes, id)) && students == d.students
      ensures obstacle == Obstacle(existing, d, p) && (obstacle.None? ==> roster == RosterOf(students, p))
    {
      roster := [];
      if p.schoolClassId in existing {
        return Some(AlreadyThere), roster;
      }
      if p.schoolClassId !in active {
        return Some(NoActiveClass), roster;
      }
      roster := BuildRoster(students, p);
      obstacle := if roster == [] then Some(NoStudents) else None;
    }

    method ActiveTable(classes: seq<M.SchoolClass>) returns (active: set<nat>)
      ensures forall id :: id in active <==> ClassActive(classes, id)
    {
      var byId: map<nat, M.SchoolClass> := map[];
      for i := 0 to |classes|
        invariant forall id :: id in byId <==> LastIndex(classes[..i], ClassId(id)).Some?
        invariant forall id | id in byId :: byId[id] == classes[LastIndex(classes[..i], ClassId(id)).value]
      {
        assert classes[..i + 1][..i] == classes[..i];
        byId := byId[classes[i].id := classes[i]];
      }
      assert classes[..|classes|] == classes;
      active := set id | id in byId && byId[id].active;
    }

    method ExistingClasses(org: nat, date: Day) returns (existing: set<nat>)
      ensures existing == LiveClasses(pickup.operations, org, date)
    {
      existing := {};
      for i := 0 to |pickup.operations|
        invariant existing == LiveClasses(pickup.operations[..i], org, date)
      {
        var o := pickup.operations[i];
        LiveClassesAppend(pickup.operations[..i], o, org, date);
        assert pickup.operations[..i + 1] == pickup.operations[..i] + [o];
        if o.org == org && o.date == date && o.status != Cancelled {
          existing := existing + {o.schoolClassId};
        }
      }
      assert pickup.operations[..|pickup.operations|] == pickup.operations;
    }

    method BuildRoster(students: seq<M.Student>, p: Plan) returns (roster: seq<StudentRef>)
      ensures roster == RosterOf(students, p)
    {
      roster := [];
      for i := 0 to |students|
        invariant roster == Refs(Select(students[..i], RosterKey(p)))
      {
        assert students[..i + 1][..i] == students[..i];
        if !OnRoster(students[i], p) {
          continue;
        }
        roster := roster + [StudentRef(students[i].id, students[i].name)];
      }
      assert students[..|students|] == students;
    }
  }

  lemma LiveClassesAppend(os: seq<Operation>, o: Operation, org: nat, date: Day)
    ensures LiveClasses(os + [o], org, date) == LiveClasses(os, org, date) + if LiveOn(o, org, date) then {o.schoolClassId} else {}
  {
    var all := os + [o];
    assert all[|os|] == o;
    forall c | c in LiveClasses(os, org, date) ensures c in LiveClasses(all, org, date) {
      var i :| 0 <= i < |os| && LiveOn(os[i], org, date) && os[i].schoolClassId == c;
      assert all[i] == os[i];
    }
  }

  lemma {:induction false} FailedStays(s: P.State, d: Input, m: nat, n: nat)
    requires m <= n <= |d.schedules| && Generate(s, d, m).failure.Some?
    ensures Generate(s, d, n) == Generate(s, d, m)
    decreases n
  {
    if m < n { FailedStays(s, d, m, n - 1); }
  }
}

/** Approving a child application: several store calls over two stores, each of
    which may be the last one that happens before the client tries again. */
module Approval {
  import opened Common
  import opened ParentStore
  import M = MasterData

  datatype World = World(master: M.State, parents: ParentStore.State)

  /** The review request: `classId` or `studentId` 0 means none is named. */
  datatype Request = Request(org: nat, applicationId: nat, status: AppStatus, classId: nat, studentId: nat, note: string, reviewer: nat)

  /** Where the handler is, between two store calls. */
  datatype Stage =
    | Begin
    | Decline(app: Application)
    | FindClass(app: Application, classId: nat)
    | FindStudent(app: Application, schoolClass: M.SchoolClass)
    | Enrol(app: Application, schoolClass: M.SchoolClass)
    | BindParent(app: Application, schoolClass: M.SchoolClass, studentId: nat)
    | Conclude(app: Application, schoolClass: M.SchoolClass, studentId: nat)
    | Over(result: Result<Application>)

  datatype Turn = Turn(world: World, stage: Stage)

  function ChosenClass(req: Request, app: Application): nat {
    if req.classId != 0 then req.classId else if app.form.classId.Some? then app.form.classId.value else 0
  }

  function ActiveClassKey(id: nat): M.SchoolClass -> bool { (c: M.SchoolClass) => c.id == id && c.active }

  function StudentIdKey(id: nat): M.Student -> bool { (x: M.Student) => x.id == id }

  /** An active student of the class whose name is the applied-for one. */
  predicate Fits(x: M.Student, classId: nat, name: string) {
    x.active && x.schoolClassId == classId && NormalizeName(x.name) == NormalizeName(name)
  }

  function FitKey(classId: nat, name: string): M.Student -> bool { (x: M.Student) => Fits(x, classId, name) }

  function BeginStep(w: World, req: Request): Stage {
    match FirstIndex(w.parents.applications, ApplicationKey(req.org, req.applicationId))
    case None => Over(Err(NotFound))
    case Some(i) =>
      var app := w.parents.applications[i];
      if app.status == AppApproved && req.status == AppApproved then Over(Ok(app))
      else if req.status != AppApproved then Decline(app)
      else if ChosenClass(req, app) == 0 then Over(Err(InvalidInput))
      else FindClass(app, ChosenClass(req, app))
  }

  function FindClassStep(w: World, req: Request, app: Application, classId: nat): Stage {
    var classes := Select(w.master.classes, M.ClassesOf(req.org));
    match FirstIndex(classes, ActiveClassKey(classId))
    case None => Over(Err(InvalidInput))
    case Some(i) => FindStudent(app, classes[i])
  }

  function Matches(students: seq<M.Student>, org: nat, classId: nat, name: string): seq<M.Student> {
    Select(Select(students, M.StudentsOf(org)), FitKey(classId, name))
  }

  function FindStudentStep(w: World, req: Request, app: Application, c: M.SchoolClass): Stage {
    var students := Select(w.master.students, M.StudentsOf(req.org));
    if req.studentId != 0 then
      match FirstIndex(students, StudentIdKey(req.studentId))
      case None => Over(Err(InvalidInput))
      case Some(i) =>
        if Fits(students[i], c.id, app.form.studentName) then BindParent(app, c, students[i].id) else Over(Err(InvalidInput))
    else
      var matches := Matches(w.master.students, req.org, c.id, app.form.studentName);
      if |matches| == 0 then Enrol(app, c)
      else if |matches| == 1 then BindParent(app, c, matches[0].id)
      else Over(Err(InvalidInput))
  }

  /** What the handler records of a student it enrols. */
  function EnrolProfile(app: Application): M.Profile {
    M.Profile("unknown", None, "", app.form.guardianPhone, "", "", "家长提交入班申请后审核建立")
  }

  function DefaultString(value: string, fallback: string): string { if Trim(value) == "" then fallback else Trim(value) }

  function Approved(req: Request, c: M.SchoolClass, studentId: nat): Decision {
    Decision(AppApproved, Some(studentId), Some(c.schoolId), Some(c.id), Trim(req.note), req.reviewer)
  }

  function Declined(req: Request, app: Application): Decision {
    Decision(req.status, app.studentId, app.form.schoolId, app.form.classId, Trim(req.note), req.reviewer)
  }

  /** One store call of the handler. */
  function Step(w: World, req: Request, stage: Stage): Turn {
    match stage
    case Begin => Turn(w, BeginStep(w, req))
    case Decline(app) =>
      var r := Decide(w.parents, req.org, req.applicationId, Declined(req, app));
      Turn(w.(parents := r.state), Over(r.result))
    case FindClass(app, classId) => Turn(w, FindClassStep(w, req, app, classId))
    case FindStudent(app, c) => Turn(w, FindStudentStep(w, req, app, c))
    case Enrol(app, c) =>
      Turn(w.(master := M.AddStudent(w.master, req.org, c.schoolId, c.termId, c.id, None, app.form.studentName, EnrolProfile(app))),
           BindParent(app, c, w.master.nextId))
    case BindParent(app, c, studentId) =>
      var r := Bind(w.parents, req.org, app.form.parentId, studentId, DefaultString(app.form.relationship, "家长"), true);
      Turn(w.(parents := r.state), Conclude(app, c, studentId))
    case Conclude(app, c, studentId) =>
      var r := Decide(w.parents, req.org, req.applicationId, Approved(req, c, studentId));
      Turn(w.(parents := r.state), Over(r.result))
    case Over(_) => Turn(w, stage)
  }

  function CallsLeft(stage: Stage): nat {
    match stage
    case Begin => 6
    case FindClass(_, _) => 5
    case FindStudent(_, _) => 4
    case Enrol(_, _) => 3
    case BindParent(_, _, _) => 2
    case Conclude(_, _, _) => 1
    case Decline(_) => 1
    case Over(_) => 0
  }

  /** The handler from `stage` on, undisturbed. */
  function Finish(w: World, req: Request, stage: Stage): Turn
    decreases CallsLeft(stage)
  {
    if stage.Over? then Turn(w, stage)
    else var t := Step(w, req, stage); Finish(t.world, req, t.stage)
  }

  /** The handler cut off after `n` store calls. */
  function Cut(w: World, req: Request, n: nat): Turn {
    if n == 0 then Turn(w, Begin)
    else var t := Cut(w, req, n - 1); Step(t.world, req, t.stage)
  }

  // --------------------------------------------------- the handler, in place

  method ReviewApplication(master: M.MemoryStore, parents: ParentStore.MemoryStore, req: Request) returns (result: Result<Application>)
    modifies master, parents
    ensures Turn(World(master.View(), parents.View()), Over(result))
         == Finish(World(old(master.View()), old(parents.View())), req, Begin)
  {
    ghost var w := World(master.View(), parents.View());
    var i := Scan(parents.applications, ApplicationKey(req.org, req.applicationId));
    if i.None? {
      return Err(NotFound);
    }
    var app := parents.applications[i.value];
    if app.status == AppApproved && req.status == AppApproved {
      return Ok(app);
    }
    if req.status != AppApproved {
      assert Step(w, req, Begin) == Turn(w, Decline(app));
      result := parents.ReviewChildApplication(req.org, req.applicationId, Declined(req, app));
      return;
    }
    if ChosenClass(req, app) == 0 {
      return Err(InvalidInput);
    }
    assert Step(w, req, Begin) == Turn(w, FindClass(app, ChosenClass(req, app)));
    var classes := master.ListSchoolClasses(req.org);
    var c := Scan(classes, ActiveClassKey(ChosenClass(req, app)));
    if c.None? {
      return Err(InvalidInput);
    }
    result := ApproveInto(master, parents, req, app, classes[c.value]);
  }

  /** From the class on: find or enrol the student, bind the parent, approve. */
  method ApproveInto(master: M.MemoryStore, parents: ParentStore.MemoryStore, req: Request, app: Application, c: M.SchoolClass)
    returns (result: Result<Application>)
    modifies master, parents
    ensures Turn(World(master.View(), parents.View()), Over(result))
         == Finish(World(old(master.View()), old(parents.View())), req, FindStudent(app, c))
  {
    var students := master.ListStudents(req.org);
    var studentId: nat;
    if req.studentId != 0 {
      var i := Scan(students, StudentIdKey(req.studentId));
      if i.None? || !Fits(students[i.value], c.id, app.form.studentName) {
        return Err(InvalidInput);
      }
      studentId := students[i.value].id;
    } else {
      var matches := Filter(students, FitKey(c.id, app.form.studentName));
      if |matches| == 0 {
        var student := master.CreateStudent(req.org, c.schoolId, c.termId, c.id, None, app.form.studentName, EnrolProfile(app));
        studentId := student.id;
      } else if |matches| == 1 {
        studentId := matches[0].id;
      } else {
        return Err(InvalidInput);
      }
    }
    assert Finish(World(master.View(), parents.View()), req, BindParent(app, c, studentId))
        == Finish(World(old(master.View()), old(parents.View())), req, FindStudent(app, c));
    result := BindAndApprove(master, parents, req, app, c, studentId);
  }

  method BindAndApprove(ghost master: M.MemoryStore, parents: ParentStore.MemoryStore, req: Request, app: Application, c: M.SchoolClass,
                        studentId: nat) returns (result: Result<Application>)
    modifies parents
    ensures Turn(World(master.View(), parents.View()), Over(result))
         == Finish(World(master.View(), old(parents.View())), req, BindParent(app, c, studentId))
  {
    FinishStep(World(master.View(), parents.View()), req, BindParent(app, c, studentId));
    var _ := parents.CreateBinding(req.org, app.form.parentId, studentId, DefaultString(app.form.relationship, "家长"), true);
    FinishStep(World(master.View(), parents.View()), req, Conclude(app, c, studentId));
    result := parents.ReviewChildApplication(req.org, req.applicationId, Approved(req, c, studentId));
  }

  // ---------------------------------------------------------- convergence

  /** The application the handler has read is still the stored one, open for an approval. */
  ghost predicate Reads(w: World, req: Request, app: Application) {
    var i := FirstIndex(w.parents.applications, ApplicationKey(req.org, req.applicationId));
    i.Some? && w.parents.applications[i.value] == app
  }

  ghost predicate ReadsForApproval(w: World, req: Request, app: Application) {
    Reads(w, req, app) && req.status == AppApproved && app.status != AppApproved && ChosenClass(req, app) != 0
  }

  ghost predicate InClass(w: World, req: Request, app: Application, c: M.SchoolClass) {
    ReadsForApproval(w, req, app) && FindClassStep(w, req, app, ChosenClass(req, app)) == FindStudent(app, c)
  }

  /** Starting again from `w` comes back to `stage`, or ends the same way. */
  ghost predicate Resumable(w: World, req: Request, stage: Stage) {
    match stage
    case Begin => true
    case Decline(app) => Reads(w, req, app) && req.status != AppApproved
    case FindClass(app, classId) => ReadsForApproval(w, req, app) && classId == ChosenClass(req, app)
    case FindStudent(app, c) => InClass(w, req, app, c)
    case Enrol(app, c) => InClass(w, req, app, c) && FindStudentStep(w, req, app, c) == stage
    case BindParent(app, c, studentId) => InClass(w, req, app, c) && FindStudentStep(w, req, app, c) == stage
    case Conclude(app, c, studentId) =>
      InClass(w, req, app, c) && FindStudentStep(w, req, app, c) == BindParent(app, c, studentId)
      && FirstIndex(w.parents.bindings, BindingKey(req.org, app.form.parentId, studentId)).Some?
    case Over(result) =>
      var again := Finish(w, req, Begin);
      again.world == w && (req.status == AppApproved ==> again.stage == stage)
  }

  lemma FinishStep(w: World, req: Request, stage: Stage)
    requires !stage.Over?
    ensures Finish(w, req, stage) == Finish(Step(w, req, stage).world, req, Step(w, req, stage).stage)
  {
  }

  /** A retry in a resumable place ends as going on would have. */
  lemma {:induction false} RetryEndsAlike(w: World, req: Request, stage: Stage)
    requires Resumable(w, req, stage)
    ensures Finish(w, req, Begin).world == Finish(w, req, stage).world
    ensures req.status == AppApproved ==> Finish(w, req, Begin) == Finish(w, req, stage)
  {
    if !stage.Over? && !stage.Begin? {
      FinishStep(w, req, Begin);
      if !stage.Decline? {
        var app := stage.app;
        if !stage.FindClass? {
          FinishStep(w, req, FindClass(app, ChosenClass(req, app)));
          if !stage.FindStudent? {
            FinishStep(w, req, FindStudent(app, stage.schoolClass));
            if stage.Conclude? { FinishStep(w, req, BindParent(app, stage.schoolClass, stage.studentId)); }
          }
        }
      }
    }
  }

  /** The student just enrolled is the one match a retry finds. */
  lemma {:induction false} EnrolledIsTheMatch(s: M.State, org: nat, c: M.SchoolClass, name: string, profile: M.Profile)
    requires Matches(s.students, org, c.id, name) == []
    ensures var t := M.AddStudent(s, org, c.schoolId, c.termId, c.id, None, name, profile);
            Matches(t.students, org, c.id, name) == [M.NewStudent(s, org, c.schoolId, c.termId, c.id, None, name, profile)]
  {
    var x := M.NewStudent(s, org, c.schoolId, c.termId, c.id, None, name, profile);
    SelectOneMore(s.students, x, M.StudentsOf(org));
    SelectOneMore(Select(s.students, M.StudentsOf(org)), x, FitKey(c.id, name));
  }

  lemma EnrolledIsFound(w: World, w': World, req: Request, app: Application, c: M.SchoolClass, profile: M.Profile)
    requires FindStudentStep(w, req, app, c) == Enrol(app, c)
    requires w'.master == M.AddStudent(w.master, req.org, c.schoolId, c.termId, c.id, None, app.form.studentName, profile)
    ensures FindStudentStep(w', req, app, c) == BindParent(app, c, w.master.nextId)
  {
    EnrolledIsTheMatch(w.master, req.org, c, app.form.studentName, profile);
  }

  lemma EnrolResumes(w: World, req: Request, app: Application, c: M.SchoolClass)
    requires Resumable(w, req, Enrol(app, c))
    ensures var t := Step(w, req, Enrol(app, c)); Resumable(t.world, req, t.stage)
  {
    var t := Step(w, req, Enrol(app, c));
    EnrolledIsFound(w, t.world, req, app, c, EnrolProfile(app));
    assert InClass(t.world, req, app, c);
  }

  lemma BindResumes(w: World, req: Request, app: Application, c: M.SchoolClass, studentId: nat)
    requires Resumable(w, req, BindParent(app, c, studentId))
    ensures var t := Step(w, req, BindParent(app, c, studentId)); Resumable(t.world, req, t.stage)
  {
    var t := Step(w, req, BindParent(app, c, studentId)).world.parents;
    if t != w.parents { assert BindingKey(req.org, app.form.parentId, studentId)(t.bindings[|w.parents.bindings|]); }
  }

  /** Once decided, the application is found decided. */
  lemma DecidedIsRead(s: ParentStore.State, org: nat, id: nat, d: Decision)
    requires Decide(s, org, id, d).result.Ok?
    ensures var t := Decide(s, org, id, d); var i := FirstIndex(t.state.applications, ApplicationKey(org, id));
            i == FirstIndex(s.applications, ApplicationKey(org, id)) && i.Some? && t.state.applications[i.value] == t.result.value
  {
    var i := FirstIndex(s.applications, ApplicationKey(org, id)).value;
    var t := Decide(s, org, id, d).state.applications;
    assert forall j | 0 <= j < i :: t[j] == s.applications[j];
    assert ApplicationKey(org, id)(t[i]);
    assert forall j | 0 <= j < i :: !ApplicationKey(org, id)(t[j]);
  }

  lemma ConcludeResumes(w: World, req: Request, app: Application, c: M.SchoolClass, studentId: nat)
    requires Resumable(w, req, Conclude(app, c, studentId))
    ensures var t := Step(w, req, Conclude(app, c, studentId)); Resumable(t.world, req, t.stage)
  {
    var r := Decide(w.parents, req.org, req.applicationId, Approved(req, c, studentId));
    if r.result.Ok? {
      DecidedIsRead(w.parents, req.org, req.applicationId, Approved(req, c, studentId));
    } else {
      RetryEndsAlike(w, req, Conclude(app, c, studentId));
      FinishStep(w, req, Conclude(app, c, studentId));
    }
  }

  lemma DeclineResumes(w: World, req: Request, app: Application)
    requires Resumable(w, req, Decline(app))
    ensures var t := Step(w, req, Decline(app)); Resumable(t.world, req, t.stage)
  {
    var d := Declined(req, app);
    var r := Decide(w.parents, req.org, req.applicationId, d);
    if r.result.Ok? {
      DecidedIsRead(w.parents, req.org, req.applicationId, d);
      assert Declined(req, r.result.value) == d;
      TrimIsTrimmed(req.note);
    }
  }

  lemma StepResumes(w: World, req: Request, stage: Stage)
    requires Resumable(w, req, stage)
    ensures var t := Step(w, req, stage); Resumable(t.world, req, t.stage)
  {
    match stage
    case Begin =>
    case Decline(app) => DeclineResumes(w, req, app);
    case FindClass(app, classId) =>
      RetryEndsAlike(w, req, stage);
    case FindStudent(app, c) =>
      RetryEndsAlike(w, req, stage);
    case Enrol(app, c) => EnrolResumes(w, req, app, c);
    case BindParent(app, c, studentId) => BindResumes(w, req, app, c, studentId);
    case Conclude(app, c, studentId) => ConcludeResumes(w, req, app, c, studentId);
    case Over(_) =>
  }

  ghost predicate OnCourse(t: Turn, req: Request, end: Turn) {
    Resumable(t.world, req, t.stage) && Finish(t.world, req, t.stage) == end
  }

  lemma GoingOn(t: Turn, next: Turn, req: Request, end: Turn)
    requires OnCourse(t, req, end) && next == Step(t.world, req, t.stage)
    ensures OnCourse(next, req, end)
  {
    StepResumes(t.world, req, t.stage);
    if !t.stage.Over? { FinishStep(t.world, req, t.stage); }
  }

  /** What holds at the beginning and is kept by every store call holds at every cut. */
  lemma {:induction false} AtEveryCut(w: World, req: Request, n: nat, p: Turn -> bool)
    requires p(Turn(w, Begin)) && forall t | p(t) :: p(Step(t.world, req, t.stage))
    ensures p(Cut(w, req, n))
  {
    if n > 0 { AtEveryCut(w, req, n - 1, p); }
  }

  lemma {:induction false} CutIsResumable(w: World, req: Request, n: nat, end: Turn)
    requires end == Finish(w, req, Begin)
    ensures OnCourse(Cut(w, req, n), req, end)
  {
    var p := t => OnCourse(t, req, end);
    forall t | p(t) ensures p(Step(t.world, req, t.stage)) { GoingOn(t, Step(t.world, req, t.stage), req, end); }
    AtEveryCut(w, req, n, p);
  }

  /** The world after attempts cut off after `cuts[0]`, `cuts[1]`, ... store calls. */
  function Attempts(w: World, req: Request, cuts: seq<nat>): World {
    if cuts == [] then w else Cut(Attempts(w, req, cuts[..|cuts| - 1]), req, cuts[|cuts| - 1]).world
  }

  /** However often the handler is cut off, and after whichever store calls, a
      last retry ends in the same stores as one uninterrupted run; an approval
      also gives the same answer. */
  lemma {:induction false} RetriesConverge(w: World, req: Request, cuts: seq<nat>)
    ensures Finish(Attempts(w, req, cuts), req, Begin).world == Finish(w, req, Begin).world
    ensures req.status == AppApproved ==> Finish(Attempts(w, req, cuts), req, Begin) == Finish(w, req, Begin)
  {
    if cuts != [] {
      var before, n := Attempts(w, req, cuts[..|cuts| - 1]), cuts[|cuts| - 1];
      RetriesConverge(w, req, cuts[..|cuts| - 1]);
      CutIsResumable(before, req, n, Finish(before, req, Begin));
      var t := Cut(before, req, n);
      RetryEndsAlike(t.world, req, t.stage);
    }
  }
}

/** What an approval does, told from the records: which child the parent is bound
    to, when one is enrolled, and when the approval is refused. */
module ApprovalOutcome {
  import opened Common
  import opened ParentStore
  import opened Approval
  import M = MasterData

  // -------------------------------------------------------------- the child

  /** A student going on in that class under that name. */
  ghost predicate IsChild(x: M.Student, org: nat, classId: nat, name: string) {
    x.org == org && x.active && x.schoolClassId == classId && Letters(x.name) == Letters(name)
  }

  lemma FitsIsChild(x: M.Student, org: nat, classId: nat, name: string)
    ensures IsChild(x, org, classId, name) <==> x.org == org && Fits(x, classId, name)
  {
    StrippedIsSelected(Trim(x.name));
    StrippedIsSelected(Trim(name));
  }

  /** The places of the children that could be meant. */
  ghost function Children(students: seq<M.Student>, org: nat, classId: nat, name: string): set<nat> {
    set k: nat | k < |students| && IsChild(students[k], org, classId, name)
  }

  lemma MatchesAreChildren(students: seq<M.Student>, org: nat, classId: nat, name: string)
    ensures |Matches(students, org, classId, name)| == |Children(students, org, classId, name)|
    ensures forall x :: x in Matches(students, org, classId, name) <==> x in students && IsChild(x, org, classId, name)
  {
    var both := (x: M.Student) => x.org == org && Fits(x, classId, name);
    SelectTwice(students, M.StudentsOf(org), FitKey(classId, name), both);
    SelectCounts(students, both);
    forall x: M.Student ensures both(x) <==> IsChild(x, org, classId, name) { FitsIsChild(x, org, classId, name); }
    assert Places(students, both) == Children(students, org, classId, name);
  }

  // -------------------------------------------------------------- the class

  /** The class the request names, or else the application. */
  ghost predicate ClassNamed(req: Request, app: Application, id: nat) {
    id != 0 && if req.classId != 0 then id == req.classId else app.form.classId == Some(id)
  }

  ghost predicate Runs(c: M.SchoolClass, w: World, req: Request, app: Application) {
    c in w.master.classes && c.org == req.org && c.active && ClassNamed(req, app, c.id)
  }

  /** The chosen class is looked up among the organization's active ones. */
  lemma ClassIsFound(w: World, req: Request, app: Application)
    requires req.status == AppApproved && Open(w, req, app)
    ensures var t := Finish(w, req, Begin);
            if exists c :: Runs(c, w, req, app)
            then exists c :: Runs(c, w, req, app) && t == Finish(w, req, FindStudent(app, c))
            else t.world == w && t.stage == Over(Err(InvalidInput))
  {
    FinishStep(w, req, Begin);
    var classId := ChosenClass(req, app);
    if classId != 0 {
      FinishStep(w, req, FindClass(app, classId));
      ClassStepFinds(w, req, app, classId);
    }
  }

  lemma ClassStepFinds(w: World, req: Request, app: Application, classId: nat)
    requires classId != 0 && classId == ChosenClass(req, app)
    ensures var stage := FindClassStep(w, req, app, classId);
            if exists c :: Runs(c, w, req, app) then stage.FindStudent? && stage.app == app && Runs(stage.schoolClass, w, req, app)
            else stage == Over(Err(InvalidInput))
  {
    var classes := Select(w.master.classes, M.ClassesOf(req.org));
    var f := FirstIndex(classes, ActiveClassKey(classId));
    if f.Some? {
      assert classes[f.value] in classes;
      assert Runs(classes[f.value], w, req, app);
    }
  }

  // ------------------------------------------------------------ the student

  /** The application named is there, the first of its id, and has not been approved. */
  ghost predicate Open(w: World, req: Request, app: Application) {
    var i := FirstIndex(w.parents.applications, ApplicationKey(req.org, req.applicationId));
    i.Some? && w.parents.applications[i.value] == app && app.status != AppApproved
  }

  /** The first student with the named id is the child. */
  ghost predicate NamesChild(w: World, req: Request, c: M.SchoolClass, name: string) {
    exists k | 0 <= k < |w.master.students| ::
      var x := w.master.students[k];
      x.id == req.studentId && IsChild(x, req.org, c.id, name) && forall j | 0 <= j < k :: !SameIdentity(w.master.students[j], x)
  }

  predicate SameIdentity(a: M.Student, b: M.Student) { a.org == b.org && a.id == b.id }

  /** Where the search for the student leads. */
  ghost predicate Leads(w: World, req: Request, app: Application, c: M.SchoolClass, stage: Stage) {
    var children := Children(w.master.students, req.org, c.id, app.form.studentName);
    if req.studentId != 0 then
      if NamesChild(w, req, c, app.form.studentName)
      then stage == BindParent(app, c, req.studentId) && IsThere(w, req, c, app, req.studentId)
      else stage == Over(Err(InvalidInput))
    else if |children| == 0 then stage == Enrol(app, c)
    else if |children| == 1 then stage.BindParent? && stage == BindParent(app, c, stage.studentId) && IsThere(w, req, c, app, stage.studentId)
    else stage == Over(Err(InvalidInput))
  }

  ghost predicate IsThere(w: World, req: Request, c: M.SchoolClass, app: Application, studentId: nat) {
    exists x | x in w.master.students :: x.id == studentId && IsChild(x, req.org, c.id, app.form.studentName)
  }

  function Identity(org: nat, id: nat): M.Student -> bool { (x: M.Student) => x.org == org && x.id == id }

  lemma FirstOneMore(xs: seq<M.Student>, x: M.Student, p: M.Student -> bool)
    ensures FirstIndex(xs + [x], p) == if FirstIndex(xs, p).Some? then FirstIndex(xs, p) else if p(x) then Some(|xs|) else None
  {
    assert (xs + [x])[..|xs|] == xs;
  }

  lemma {:induction false} SelectedFirst(students: seq<M.Student>, org: nat, id: nat)
    ensures var mine := Select(students, M.StudentsOf(org)); var f, g := FirstIndex(mine, StudentIdKey(id)), FirstIndex(students, Identity(org, id));
            (f.Some? <==> g.Some?) && (f.Some? ==> mine[f.value] == students[g.value])
  {
    if students != [] {
      var init, x := students[..|students| - 1], students[|students| - 1];
      assert students == init + [x];
      SelectedFirst(init, org, id);
      SelectOneMore(init, x, M.StudentsOf(org));
      FirstOneMore(init, x, Identity(org, id));
      if x.org == org { FirstOneMore(Select(init, M.StudentsOf(org)), x, StudentIdKey(id)); }
    }
  }

  lemma NamedStudentLeads(w: World, req: Request, app: Application, c: M.SchoolClass)
    requires req.studentId != 0
    ensures Leads(w, req, app, c, FindStudentStep(w, req, app, c))
  {
    var students := w.master.students;
    var g := FirstIndex(students, Identity(req.org, req.studentId));
    SelectedFirst(students, req.org, req.studentId);
    if g.Some? { FitsIsChild(students[g.value], req.org, c.id, app.form.studentName); }
    NamedIsFirst(w, req, app, c, g);
  }

  lemma NamedIsFirst(w: World, req: Request, app: Application, c: M.SchoolClass, g: Option<nat>)
    requires g == FirstIndex(w.master.students, Identity(req.org, req.studentId))
    ensures NamesChild(w, req, c, app.form.studentName) <==> g.Some? && IsChild(w.master.students[g.value], req.org, c.id, app.form.studentName)
    ensures NamesChild(w, req, c, app.form.studentName) ==> IsThere(w, req, c, app, req.studentId)
  {
    var students, key := w.master.students, Identity(req.org, req.studentId);
    if k :| 0 <= k < |students| && students[k].id == req.studentId && IsChild(students[k], req.org, c.id, app.form.studentName)
            && forall j | 0 <= j < k :: !SameIdentity(students[j], students[k]) {
      assert key(students[k]);
      assert forall j | 0 <= j < k :: !key(students[j]);
    }
    if g.Some? { assert key(students[g.value]) && forall j | 0 <= j < g.value :: !key(students[j]); }
  }

  lemma StudentLeads(w: World, req: Request, app: Application, c: M.SchoolClass)
    ensures Leads(w, req, app, c, FindStudentStep(w, req, app, c))
  {
    if req.studentId != 0 {
      NamedStudentLeads(w, req, app, c);
    } else {
      MatchesAreChildren(w.master.students, req.org, c.id, app.form.studentName);
      var matches := Matches(w.master.students, req.org, c.id, app.form.studentName);
      if |matches| == 1 { assert matches[0] in matches; }
    }
  }

  // ---------------------------------------------------- binding, concluding

  /** The application is closed for the student, its class and school, by the reviewer. */
  predicate ApprovedFor(a: Application, app: Application, req: Request, c: M.SchoolClass, studentId: nat) {
    && a.status == AppApproved && a.studentId == Some(studentId) && a.form == app.form.(schoolId := Some(c.schoolId), classId := Some(c.id))
    && a.id == app.id && a.org == app.org && a.reviewer == Some(req.reviewer)
  }

  ghost predicate Bound(s: ParentStore.State, org: nat, parentId: nat, studentId: nat) {
    exists b | b in s.bindings :: b.org == org && b.parentId == parentId && b.studentId == studentId
  }

  /** From the student on: the parent is bound; a pending application is approved, a rejected one stays. */
  ghost predicate Concluded(w: World, t: Turn, req: Request, app: Application, c: M.SchoolClass, studentId: nat) {
    && t.world.master == w.master && Bound(t.world.parents, req.org, app.form.parentId, studentId)
    && |t.world.parents.applications| == |w.parents.applications|
    && var i := FirstIndex(w.parents.applications, ApplicationKey(req.org, req.applicationId));
    && i.Some?
    && (forall k | 0 <= k < |w.parents.applications| && k != i.value :: t.world.parents.applications[k] == w.parents.applications[k])
    && if app.status in {AppPending, AppNeedsInfo}
       then t.stage == Over(Ok(t.world.parents.applications[i.value])) && ApprovedFor(t.world.parents.applications[i.value], app, req, c, studentId)
       else t.stage == Over(Err(InvalidState)) && t.world.parents.applications == w.parents.applications
  }

  lemma BindBinds(s: ParentStore.State, org: nat, parentId: nat, studentId: nat, relationship: string)
    ensures var t := Bind(s, org, parentId, studentId, relationship, true).state;
            Bound(t, org, parentId, studentId) && t.applications == s.applications
  {
    var f := FirstIndex(s.bindings, BindingKey(org, parentId, studentId));
    var t := Bind(s, org, parentId, studentId, relationship, true).state;
    var b := t.bindings[if f.Some? then f.value else |s.bindings|];
    assert b in t.bindings;
  }

  lemma BindingConcludes(w: World, req: Request, app: Application, c: M.SchoolClass, studentId: nat)
    requires Open(w, req, app)
    ensures Concluded(w, Finish(w, req, BindParent(app, c, studentId)), req, app, c, studentId)
  {
    var mid := Step(w, req, BindParent(app, c, studentId)).world;
    BindBinds(w.parents, req.org, app.form.parentId, studentId, DefaultString(app.form.relationship, "家长"));
    FinishStep(w, req, BindParent(app, c, studentId));
    FinishStep(mid, req, Conclude(app, c, studentId));
    DecidingCloses(mid, req, app, c, studentId);
  }

  lemma DecidingCloses(w: World, req: Request, app: Application, c: M.SchoolClass, studentId: nat)
    requires Open(w, req, app) && Bound(w.parents, req.org, app.form.parentId, studentId)
    ensures Concluded(w, Step(w, req, Conclude(app, c, studentId)), req, app, c, studentId)
  {
  }

  // ----------------------------------------------------------- main results

  /** The student enrolled is the child applied for, in the class. */
  predicate EnrolledAs(x: M.Student, req: Request, app: Application, c: M.SchoolClass) {
    x.org == req.org && x.active && x.schoolId == c.schoolId && x.termId == c.termId && x.schoolClassId == c.id && x.name == app.form.studentName
  }

  /** What the handler leaves: the child is found, or enrolled when there is none,
      the parent bound and the application approved for it; or nothing happens. */
  ghost predicate Outcomes(w: World, t: Turn, req: Request, app: Application, c: M.SchoolClass) {
    var children := Children(w.master.students, req.org, c.id, app.form.studentName);
    if req.studentId != 0 then
      if NamesChild(w, req, c, app.form.studentName)
      then Concluded(w, t, req, app, c, req.studentId) && IsThere(t.world, req, c, app, req.studentId)
      else t == Turn(w, Over(Err(InvalidInput)))
    else if |children| == 0 then EnrolsAndConcludes(w, t, req, app, c)
    else if |children| == 1 then exists id :: Concluded(w, t, req, app, c, id) && IsThere(t.world, req, c, app, id)
    else t == Turn(w, Over(Err(InvalidInput)))
  }

  ghost predicate EnrolsAndConcludes(w: World, t: Turn, req: Request, app: Application, c: M.SchoolClass) {
    var students := t.world.master.students;
    && |students| == |w.master.students| + 1 && students[..|w.master.students|] == w.master.students
    && EnrolledAs(students[|w.master.students|], req, app, c) && IsChild(students[|w.master.students|], req.org, c.id, app.form.studentName)
    && Concluded(w.(master := t.world.master), t, req, app, c, students[|w.master.students|].id)
  }

  lemma EnrolmentConcludes(w: World, req: Request, app: Application, c: M.SchoolClass)
    requires Open(w, req, app)
    ensures EnrolsAndConcludes(w, Finish(w, req, Enrol(app, c)), req, app, c)
  {
    var mid := Step(w, req, Enrol(app, c)).world;
    FinishStep(w, req, Enrol(app, c));
    BindingConcludes(mid, req, app, c, w.master.nextId);
  }

  lemma FromTheClass(w: World, req: Request, app: Application, c: M.SchoolClass)
    requires Open(w, req, app)
    ensures Outcomes(w, Finish(w, req, FindStudent(app, c)), req, app, c)
  {
    var stage := FindStudentStep(w, req, app, c);
    FinishStep(w, req, FindStudent(app, c));
    StudentLeads(w, req, app, c);
    if stage.BindParent? {
      BindingConcludes(w, req, app, c, stage.studentId);
    } else if stage.Enrol? {
      EnrolmentConcludes(w, req, app, c);
    }
  }

  /** An approval of an application that has not been approved: without an active
      class of the organization it is refused; with one, the parent is bound to the
      student named, who must be a child of that class and name, or to the only
      such child, or to one enrolled because there is none; two or more are
      refused; the application is then approved for that student. */
  lemma {:induction false} ApprovalFindsTheChild(w: World, req: Request, app: Application)
    requires req.status == AppApproved && Open(w, req, app)
    ensures var t := Finish(w, req, Begin);
            if exists c :: Runs(c, w, req, app) then exists c :: Runs(c, w, req, app) && Outcomes(w, t, req, app, c)
            else t == Turn(w, Over(Err(InvalidInput)))
  {
    ClassIsFound(w, req, app);
    var t := Finish(w, req, Begin);
    if exists c :: Runs(c, w, req, app) {
      var c :| Runs(c, w, req, app) && t == Finish(w, req, FindStudent(app, c));
      FromTheClass(w, req, app, c);
    }
  }

  /** Approving what is approved changes nothing and answers with it. */
  lemma ApprovedAlready(w: World, req: Request, i: nat)
    requires FirstIndex(w.parents.applications, ApplicationKey(req.org, req.applicationId)) == Some(i)
    requires w.parents.applications[i].status == AppApproved && req.status == AppApproved
    ensures Finish(w, req, Begin) == Turn(w, Over(Ok(w.parents.applications[i])))
  {
    FinishStep(w, req, Begin);
  }

  lemma SomeChild(students: seq<M.Student>, org: nat, classId: nat, name: string, k: nat)
    requires k < |students| && IsChild(students[k], org, classId, name)
    ensures |Children(students, org, classId, name)| > 0
  {
    assert k in Children(students, org, classId, name);
  }

  /** Whenever an application that was not approved ends approved, the student it
      names is there: active, in an active class of the organization that was asked
      for, under the applied-for name, and bound to the parent; a student has been
      enrolled exactly when none was named and no such child was there. */
  lemma {:induction false} ApprovedNamesTheChild(w: World, req: Request, i: nat) returns (x: M.Student)
    requires FirstIndex(w.parents.applications, ApplicationKey(req.org, req.applicationId)) == Some(i)
    requires w.parents.applications[i].status != AppApproved
    requires i < |Finish(w, req, Begin).world.parents.applications| && Finish(w, req, Begin).world.parents.applications[i].status == AppApproved
    ensures var app, t := w.parents.applications[i], Finish(w, req, Begin).world; var a := t.parents.applications[i];
            && x in t.master.students && a.studentId == Some(x.id) && x.org == req.org && x.active
            && Letters(x.name) == Letters(app.form.studentName)
            && (exists c | c in w.master.classes :: c.org == req.org && c.active && ClassNamed(req, app, c.id) && x.schoolClassId == c.id)
            && (req.studentId != 0 ==> x.id == req.studentId)
            && Bound(t.parents, req.org, app.form.parentId, x.id)
            && (t.master.students == w.master.students || t.master.students == w.master.students + [x])
            && (t.master.students != w.master.students <==>
                req.studentId == 0 && !exists y | y in w.master.students :: IsChild(y, req.org, x.schoolClassId, app.form.studentName))
  {
    var app, t := w.parents.applications[i], Finish(w, req, Begin);
    if req.status != AppApproved { DeclinedIsNotApproved(w, req, app, i); }
    ApprovalFindsTheChild(w, req, app);
    var c :| Runs(c, w, req, app) && Outcomes(w, t, req, app, c);
    x := ChildOf(w, t, req, app, c, i);
    forall y | y in w.master.students && IsChild(y, req.org, c.id, app.form.studentName)
      ensures |Children(w.master.students, req.org, c.id, app.form.studentName)| > 0
    {
      var k :| 0 <= k < |w.master.students| && w.master.students[k] == y;
      SomeChild(w.master.students, req.org, c.id, app.form.studentName, k);
    }
    if |Children(w.master.students, req.org, c.id, app.form.studentName)| > 0 {
      var k :| k in Children(w.master.students, req.org, c.id, app.form.studentName);
      assert w.master.students[k] in w.master.students;
    }
  }

  lemma DeclinedIsNotApproved(w: World, req: Request, app: Application, i: nat)
    requires FirstIndex(w.parents.applications, ApplicationKey(req.org, req.applicationId)) == Some(i)
    requires app == w.parents.applications[i] && app.status != AppApproved && req.status != AppApproved
    ensures var t := Finish(w, req, Begin).world.parents; i < |t.applications| && t.applications[i].status != AppApproved
  {
    FinishStep(w, req, Begin);
    FinishStep(w, req, Decline(app));
  }

  lemma ChildOf(w: World, t: Turn, req: Request, app: Application, c: M.SchoolClass, i: nat) returns (x: M.Student)
    requires Open(w, req, app) && Outcomes(w, t, req, app, c) && FirstIndex(w.parents.applications, ApplicationKey(req.org, req.applicationId)) == Some(i)
    requires i < |t.world.parents.applications| && t.world.parents.applications[i].status == AppApproved
    ensures x in t.world.master.students && IsChild(x, req.org, c.id, app.form.studentName)
    ensures t.world.parents.applications[i].studentId == Some(x.id) && Bound(t.world.parents, req.org, app.form.parentId, x.id)
    ensures req.studentId != 0 ==> x.id == req.studentId
    ensures var children := Children(w.master.students, req.org, c.id, app.form.studentName);
            if req.studentId == 0 && |children| == 0 then t.world.master.students == w.master.students + [x] else t.world.master == w.master
  {
    var students := t.world.master.students;
    if req.studentId != 0 {
      x :| x in students && x.id == req.studentId && IsChild(x, req.org, c.id, app.form.studentName);
    } else if |Children(w.master.students, req.org, c.id, app.form.studentName)| == 0 {
      x := students[|w.master.students|];
      assert students == students[..|w.master.students|] + [x];
    } else {
      var id :| Concluded(w, t, req, app, c, id) && IsThere(t.world, req, c, app, id);
      x :| x in students && x.id == id && IsChild(x, req.org, c.id, app.form.studentName);
    }
  }
}

/** Any number of reviewers at work at once, with parents filing, amending and
    binding in between: every approved application names a bound student. */
module ApprovalRuns {
  import opened Common
  import opened ParentStore
  import opened Approval
  import M = MasterData

  datatype Reviewer = Reviewer(req: Request, stage: Stage)

  datatype Global = Global(world: World, reviewers: seq<Reviewer>)

  datatype Action =
    | Ask(req: Request)                // a review request arrives
    | Proceed(reviewer: nat)           // its next store call happens
    | FileForm(org: nat, form: Form)
    | AmendForm(org: nat, id: nat, form: Form)
    | BindChild(org: nat, parentId: nat, studentId: nat, relationship: string, primary: bool)
    | MasterChange(master: M.State)    // master data may become anything
    | AccountsChange(accounts: seq<Account>)

  function Next(g: Global, a: Action): Global {
    match a
    case Ask(req) => g.(reviewers := g.reviewers + [Reviewer(req, Begin)])
    case Proceed(r) =>
      if r >= |g.reviewers| then g
      else
        var t := Step(g.world, g.reviewers[r].req, g.reviewers[r].stage);
        Global(t.world, g.reviewers[r := g.reviewers[r].(stage := t.stage)])
    case FileForm(org, form) => Parents(g, File(g.world.parents, org, form).state)
    case AmendForm(org, id, form) => Parents(g, Amend(g.world.parents, org, id, form).state)
    case BindChild(org, parent, student, relationship, primary) =>
      Parents(g, Bind(g.world.parents, org, parent, student, relationship, primary).state)
    case MasterChange(master) => g.(world := g.world.(master := master))
    case AccountsChange(accounts) => Parents(g, g.world.parents.(accounts := accounts))
  }

  function Parents(g: Global, s: ParentStore.State): Global { g.(world := g.world.(parents := s)) }

  function After(g: Global, actions: seq<Action>): Global {
    if actions == [] then g else Next(After(g, actions[..|actions| - 1]), actions[|actions| - 1])
  }

  function Start(master: M.State): Global { Global(World(master, ParentStore.State(1, [], [], [])), []) }

  // ------------------------------------------------------------- invariant

  ghost predicate IsBound(bindings: seq<Binding>, org: nat, parentId: nat, studentId: nat) {
    exists i | 0 <= i < |bindings| :: ActiveBindingKey(org, parentId, studentId)(bindings[i])
  }

  ghost predicate NamesBound(s: ParentStore.State, a: Application) {
    a.status == AppApproved ==> a.studentId.Some? && IsBound(s.bindings, a.org, a.form.parentId, a.studentId.value)
  }

  ghost predicate Tidy(s: ParentStore.State) {
    && s.nextId >= 1
    && (forall i | 0 <= i < |s.bindings| :: s.bindings[i].active)
    && (forall i | 0 <= i < |s.applications| :: s.applications[i].id < s.nextId && NamesBound(s, s.applications[i]))
    && (forall i, j | 0 <= i < j < |s.applications| :: s.applications[i].id != s.applications[j].id)
  }

  /** The application a reviewer holds is one of the store's, for the same parent. */
  ghost predicate Held(s: ParentStore.State, req: Request, app: Application) {
    exists i | 0 <= i < |s.applications| :: SameParent(s.applications[i], req, app)
  }

  predicate SameParent(a: Application, req: Request, app: Application) {
    a.org == req.org && a.id == req.applicationId && a.form.parentId == app.form.parentId
  }

  ghost predicate ReviewerOk(s: ParentStore.State, r: Reviewer) {
    && (r.stage.Begin? || r.stage.Over? || Held(s, r.req, r.stage.app))
    && (r.stage.Conclude? ==> IsBound(s.bindings, r.req.org, r.stage.app.form.parentId, r.stage.studentId))
    && (r.stage.Decline? ==> r.req.status != AppApproved)
  }

  ghost predicate Inv(g: Global) {
    Tidy(g.world.parents) && forall r | 0 <= r < |g.reviewers| :: ReviewerOk(g.world.parents, g.reviewers[r])
  }

  // ----------------------------------------------------------- preservation

  /** Bindings and applications stay, and applications stay the same parent's. */
  ghost predicate Grows(s: ParentStore.State, t: ParentStore.State) {
    && s.bindings <= t.bindings
    && |s.applications| <= |t.applications|
    && (forall i | 0 <= i < |s.applications| :: SameOwner(s.applications[i], t.applications[i]))
  }

  predicate SameOwner(a: Application, b: Application) { a.id == b.id && a.org == b.org && a.form.parentId == b.form.parentId }

  lemma BoundKept(a: seq<Binding>, b: seq<Binding>, org: nat, parentId: nat, studentId: nat)
    requires a <= b && IsBound(a, org, parentId, studentId)
    ensures IsBound(b, org, parentId, studentId)
  {
    var i :| 0 <= i < |a| && ActiveBindingKey(org, parentId, studentId)(a[i]);
    assert b[i] == a[i];
  }

  lemma ReviewerKept(s: ParentStore.State, t: ParentStore.State, r: Reviewer)
    requires Grows(s, t) && ReviewerOk(s, r)
    ensures ReviewerOk(t, r)
  {
    if !r.stage.Begin? && !r.stage.Over? {
      var i :| 0 <= i < |s.applications| && SameParent(s.applications[i], r.req, r.stage.app);
      assert SameOwner(s.applications[i], t.applications[i]) && SameParent(t.applications[i], r.req, r.stage.app);
    }
    if r.stage.Conclude? { BoundKept(s.bindings, t.bindings, r.req.org, r.stage.app.form.parentId, r.stage.studentId); }
  }

  lemma NamesKept(s: ParentStore.State, t: ParentStore.State, a: Application)
    requires s.bindings <= t.bindings && NamesBound(s, a)
    ensures NamesBound(t, a)
  {
    if a.status == AppApproved { BoundKept(s.bindings, t.bindings, a.org, a.form.parentId, a.studentId.value); }
  }

  lemma BindKeeps(s: ParentStore.State, org: nat, parentId: nat, studentId: nat, relationship: string, primary: bool)
    requires Tidy(s)
    ensures var t := Bind(s, org, parentId, studentId, relationship, primary).state;
            Tidy(t) && Grows(s, t) && IsBound(t.bindings, org, parentId, studentId)
  {
    var t := Bind(s, org, parentId, studentId, relationship, primary).state;
    var i := FirstIndex(s.bindings, BindingKey(org, parentId, studentId));
    assert ActiveBindingKey(org, parentId, studentId)(t.bindings[if i.Some? then i.value else |s.bindings|]);
    forall k | 0 <= k < |t.applications| ensures NamesBound(t, t.applications[k]) { NamesKept(s, t, s.applications[k]); }
  }

  lemma FileKeeps(s: ParentStore.State, org: nat, f: Form)
    requires Tidy(s)
    ensures var t := File(s, org, f).state; Tidy(t) && Grows(s, t)
  {
    var t := File(s, org, f).state;
    forall k | 0 <= k < |s.applications| ensures NamesBound(t, t.applications[k]) { NamesKept(s, t, s.applications[k]); }
  }

  /** Replacing an application by one that is sound keeps the store sound. */
  lemma EditKeeps(s: ParentStore.State, i: nat, a: Application)
    requires Tidy(s) && i < |s.applications| && SameOwner(s.applications[i], a) && NamesBound(s, a)
    ensures var t := s.(applications := s.applications[i := a]); Tidy(t) && Grows(s, t)
  {
    var t := s.(applications := s.applications[i := a]);
    forall k | 0 <= k < |t.applications| ensures NamesBound(t, t.applications[k]) {
      if k != i { NamesKept(s, t, s.applications[k]); } else { NamesKept(s, t, a); }
    }
  }

  lemma AmendKeeps(s: ParentStore.State, org: nat, id: nat, f: Form)
    requires Tidy(s)
    ensures var t := Amend(s, org, id, f).state; Tidy(t) && Grows(s, t)
  {
    var r := Amend(s, org, id, f);
    if r.result.Ok? {
      EditKeeps(s, FirstIndex(s.applications, OwnApplicationKey(org, id, f.parentId)).value, r.result.value);
    }
  }

  lemma DecideKeeps(s: ParentStore.State, org: nat, id: nat, d: Decision)
    requires Tidy(s)
    requires d.status == AppApproved ==>
               d.studentId.Some? && forall i | 0 <= i < |s.applications| && ApplicationKey(org, id)(s.applications[i]) ::
                                      IsBound(s.bindings, org, s.applications[i].form.parentId, d.studentId.value)
    ensures var t := Decide(s, org, id, d).state; Tidy(t) && Grows(s, t)
  {
    var r := Decide(s, org, id, d);
    if r.result.Ok? { EditKeeps(s, FirstIndex(s.applications, ApplicationKey(org, id)).value, r.result.value); }
  }

  lemma ConcludeKeeps(g: Global, r: nat)
    requires Inv(g) && r < |g.reviewers| && g.reviewers[r].stage.Conclude?
    ensures var t := Step(g.world, g.reviewers[r].req, g.reviewers[r].stage).world.parents; Tidy(t) && Grows(g.world.parents, t)
  {
    var s, req, st := g.world.parents, g.reviewers[r].req, g.reviewers[r].stage;
    assert ReviewerOk(s, g.reviewers[r]);
    forall i | 0 <= i < |s.applications| && ApplicationKey(req.org, req.applicationId)(s.applications[i])
      ensures IsBound(s.bindings, req.org, s.applications[i].form.parentId, st.studentId)
    {
      var k :| 0 <= k < |s.applications| && SameParent(s.applications[k], req, st.app);
      assert k == i;
    }
    DecideKeeps(s, req.org, req.applicationId, Approved(req, st.schoolClass, st.studentId));
  }

  /** The reviewer that took a step is where it may be. */
  lemma ProceedKeeps(g: Global, r: nat)
    requires Inv(g) && r < |g.reviewers|
    ensures var t := Step(g.world, g.reviewers[r].req, g.reviewers[r].stage);
            Tidy(t.world.parents) && Grows(g.world.parents, t.world.parents)
            && ReviewerOk(t.world.parents, g.reviewers[r].(stage := t.stage))
  {
    var s, req, st := g.world.parents, g.reviewers[r].req, g.reviewers[r].stage;
    assert ReviewerOk(s, g.reviewers[r]);
    match st
    case Begin =>
      var i := FirstIndex(s.applications, ApplicationKey(req.org, req.applicationId));
      if i.Some? { assert SameParent(s.applications[i.value], req, s.applications[i.value]); }
    case Decline(app) => DecideKeeps(s, req.org, req.applicationId, Declined(req, app));
    case BindParent(app, c, studentId) =>
      BindKeeps(s, req.org, app.form.parentId, studentId, DefaultString(app.form.relationship, "家长"), true);
      ReviewerKept(s, Step(g.world, req, st).world.parents, g.reviewers[r]);
    case Conclude(_, _, _) => ConcludeKeeps(g, r);
    case _ =>
  }

  lemma NextKeeps(g: Global, a: Action)
    requires Inv(g)
    ensures Inv(Next(g, a)) && Grows(g.world.parents, Next(g, a).world.parents)
  {
    var s, g' := g.world.parents, Next(g, a);
    match a {
      case Proceed(r) => if r < |g.reviewers| { ProceedKeeps(g, r); }
      case FileForm(org, form) => FileKeeps(s, org, form);
      case AmendForm(org, id, form) => AmendKeeps(s, org, id, form);
      case BindChild(org, parent, student, relationship, primary) => BindKeeps(s, org, parent, student, relationship, primary);
      case AccountsChange(_) =>
        forall k | 0 <= k < |s.applications| ensures NamesBound(g'.world.parents, s.applications[k]) {
          NamesKept(s, g'.world.parents, s.applications[k]);
        }
      case _ =>
    }
    forall r | 0 <= r < |g'.reviewers| ensures ReviewerOk(g'.world.parents, g'.reviewers[r]) {
      if r < |g.reviewers| && g'.reviewers[r] == g.reviewers[r] { ReviewerKept(s, g'.world.parents, g.reviewers[r]); }
    }
  }

  lemma {:induction false} AfterKeeps(g: Global, actions: seq<Action>)
    requires Inv(g)
    ensures Inv(After(g, actions))
  {
    if actions != [] {
      AfterKeeps(g, actions[..|actions| - 1]);
      NextKeeps(After(g, actions[..|actions| - 1]), actions[|actions| - 1]);
    }
  }

  /** In every run, an approved application names a student its parent is
      bound to, so that the parent's account, while active, is among those the
      student's notifications are delivered to. */
  lemma {:induction false} ApprovedNameBoundStudents(master: M.State, actions: seq<Action>, k: nat)
    requires k < |After(Start(master), actions).world.parents.applications|
    requires After(Start(master), actions).world.parents.applications[k].status == AppApproved
    ensures var s := After(Start(master), actions).world.parents; var a := s.applications[k];
            && a.studentId.Some?
            && (exists i | 0 <= i < |s.bindings| :: ActiveBindingKey(a.org, a.form.parentId, a.studentId.value)(s.bindings[i]))
            && (forall p | p in s.accounts && p.id == a.form.parentId && p.org == a.org && p.active ::
                  p in AccountsFor(s, a.org, a.studentId.value))
  {
    AfterKeeps(Start(master), actions);
    var s := After(Start(master), actions).world.parents;
    var a := s.applications[k];
    assert NamesBound(s, a);
    var i :| 0 <= i < |s.bindings| && ActiveBindingKey(a.org, a.form.parentId, a.studentId.value)(s.bindings[i]);
    assert FirstIndex(s.bindings, ActiveBindingKey(a.org, a.form.parentId, a.studentId.value)).Some?;
  }

  lemma ApprovedStaysOnce(g: Global, a: Action, k: nat)
    requires Inv(g) && k < |g.world.parents.applications| && g.world.parents.applications[k].status == AppApproved
    ensures k < |Next(g, a).world.parents.applications| && Next(g, a).world.parents.applications[k] == g.world.parents.applications[k]
  {
  }

  /** An approved application never changes again. */
  lemma {:induction false} ApprovedIsFinal(master: M.State, before: seq<Action>, after: seq<Action>, k: nat)
    requires k < |After(Start(master), before).world.parents.applications|
    requires After(Start(master), before).world.parents.applications[k].status == AppApproved
    ensures var t := After(After(Start(master), before), after).world.parents.applications;
            k < |t| && t[k] == After(Start(master), before).world.parents.applications[k]
  {
    if after != [] {
      var init := after[..|after| - 1];
      ApprovedIsFinal(master, before, init, k);
      AfterKeeps(Start(master), before);
      AfterKeeps(After(Start(master), before), init);
      ApprovedStaysOnce(After(After(Start(master), before), init), after[|after| - 1], k);
    }
  }

  // ------------------------------------------------ when calls are accepted

  /** An application of the parent for that child and class that is not rejected. */
  predicate Rivals(a: Application, org: nat, f: Form) {
    && a.org == org && a.form.parentId == f.parentId && a.form.classId == f.classId
    && (a.status == AppPending || a.status == AppNeedsInfo || a.status == AppApproved)
  }

  /** A form is filed unless the parent has a live application for the class under
      that very name, and then waits as filled in, texts trimmed. */
  lemma FormIsFiledWhen(s: ParentStore.State, org: nat, f: Form)
    ensures var r := File(s, org, f);
            && (r.result.Ok? <==> !exists i | 0 <= i < |s.applications| ::
                  Rivals(s.applications[i], org, f) && s.applications[i].form.studentName == Trim(f.studentName))
            && (r.result.Ok? ==> |r.state.applications| == |s.applications| + 1 && r.state.applications[..|s.applications|] == s.applications
                                 && var a := r.state.applications[|s.applications|];
                                    && a.org == org && a.status == AppPending && a.studentId == None && a.form.parentId == f.parentId
                                    && a.form.studentName == Trim(f.studentName) && a.form.classId == f.classId && a.form.schoolId == f.schoolId)
  {
    if i :| 0 <= i < |s.applications| && Rivals(s.applications[i], org, f) && s.applications[i].form.studentName == Trim(f.studentName) {
      assert TwinKey(org, f)(s.applications[i]);
    }
  }

  lemma RivalIsTwin(a: Application, org: nat, id: nat, f: Form)
    ensures OtherTwinKey(org, id, f)(a) <==> a.id != id && Rivals(a, org, f) && Letters(a.form.studentName) == Letters(f.studentName)
  {
    StrippedIsSelected(Trim(a.form.studentName));
    StrippedIsSelected(Trim(f.studentName));
  }

  /** In every run a form is amended exactly when it is the parent's own, more
      information was asked for, and no other live one is for the same name and class. */
  lemma {:induction false} FormIsAmendedWhen(master: M.State, actions: seq<Action>, org: nat, id: nat, f: Form)
    ensures var s := After(Start(master), actions).world.parents; var r := Amend(s, org, id, f);
            && (r.result.Ok? <==>
                && (exists i | 0 <= i < |s.applications| ::
                      var a := s.applications[i]; a.org == org && a.id == id && a.form.parentId == f.parentId && a.status == AppNeedsInfo)
                && !(exists i | 0 <= i < |s.applications| ::
                       var a := s.applications[i]; a.id != id && Rivals(a, org, f) && Letters(a.form.studentName) == Letters(f.studentName)))
            && (r.result.Ok? ==> |r.state.applications| == |s.applications| && forall i | 0 <= i < |s.applications| ::
                  if s.applications[i].id != id then r.state.applications[i] == s.applications[i]
                  else r.state.applications[i].status == AppPending && r.state.applications[i].form.studentName == Trim(f.studentName))
  {
    AfterKeeps(Start(master), actions);
    AmendedWhen(After(Start(master), actions).world.parents, org, id, f);
  }

  lemma AmendedWhen(s: ParentStore.State, org: nat, id: nat, f: Form)
    requires forall i, j | 0 <= i < j < |s.applications| :: s.applications[i].id != s.applications[j].id
    ensures var r := Amend(s, org, id, f);
            && (r.result.Ok? <==>
                && (exists i | 0 <= i < |s.applications| ::
                      var a := s.applications[i]; a.org == org && a.id == id && a.form.parentId == f.parentId && a.status == AppNeedsInfo)
                && !(exists i | 0 <= i < |s.applications| ::
                       var a := s.applications[i]; a.id != id && Rivals(a, org, f) && Letters(a.form.studentName) == Letters(f.studentName)))
            && (r.result.Ok? ==> |r.state.applications| == |s.applications| && forall i | 0 <= i < |s.applications| ::
                  if s.applications[i].id != id then r.state.applications[i] == s.applications[i]
                  else r.state.applications[i].status == AppPending && r.state.applications[i].form.studentName == Trim(f.studentName))
  {
    NoTwins(s.applications, org, id, f);
    if i :| 0 <= i < |s.applications| && s.applications[i].org == org && s.applications[i].id == id && s.applications[i].form.parentId == f.parentId {
      FirstIsOnly(s.applications, OwnApplicationKey(org, id, f.parentId), i);
    }
  }

  lemma NoTwins(applications: seq<Application>, org: nat, id: nat, f: Form)
    ensures FirstIndex(applications, OtherTwinKey(org, id, f)).Some? <==> exists i | 0 <= i < |applications| ::
              var a := applications[i]; a.id != id && Rivals(a, org, f) && Letters(a.form.studentName) == Letters(f.studentName)
  {
    forall i | 0 <= i < |applications| { RivalIsTwin(applications[i], org, id, f); }
    if i :| 0 <= i < |applications| && applications[i].id != id && Rivals(applications[i], org, f)
            && Letters(applications[i].form.studentName) == Letters(f.studentName) {
      assert OtherTwinKey(org, id, f)(applications[i]);
    }
  }

  /** In every run a decision is taken exactly about an application that is open, and is kept. */
  lemma {:induction false} DecisionIsTakenWhen(master: M.State, actions: seq<Action>, org: nat, id: nat, d: Decision)
    ensures var s := After(Start(master), actions).world.parents; var r := Decide(s, org, id, d);
            && (r.result.Ok? <==> d.status != AppPending && exists i | 0 <= i < |s.applications| ::
                  var a := s.applications[i]; a.org == org && a.id == id && (a.status == AppPending || a.status == AppNeedsInfo))
            && (r.result.Ok? ==> |r.state.applications| == |s.applications| && forall i | 0 <= i < |s.applications| ::
                  if s.applications[i].id != id then r.state.applications[i] == s.applications[i]
                  else r.state.applications[i].status == d.status && r.state.applications[i].studentId == d.studentId)
  {
    AfterKeeps(Start(master), actions);
    var s := After(Start(master), actions).world.parents;
    if i :| 0 <= i < |s.applications| && s.applications[i].org == org && s.applications[i].id == id {
      FirstIsOnly(s.applications, ApplicationKey(org, id), i);
    }
  }

  /** A parent is bound to a child unless it already is or was; the binding is then the last and active. */
  lemma ParentIsBoundWhen(s: ParentStore.State, org: nat, parentId: nat, studentId: nat, relationship: string, primary: bool)
    ensures var r := Bind(s, org, parentId, studentId, relationship, primary);
            && (r.result.Ok? <==> !exists i | 0 <= i < |s.bindings| ::
                  s.bindings[i].org == org && s.bindings[i].parentId == parentId && s.bindings[i].studentId == studentId)
            && (if r.result.Err? then r.state == s
                else r.state.bindings == s.bindings + [Binding(s.nextId, org, parentId, studentId, Trim(relationship), primary, true)])
  {
    if i :| 0 <= i < |s.bindings| && s.bindings[i].org == org && s.bindings[i].parentId == parentId && s.bindings[i].studentId == studentId {
      assert BindingKey(org, parentId, studentId)(s.bindings[i]);
    }
  }

  /** The accounts a child's notifications go to: those in use, of the
      organization, that an active binding ties to the child; in store order. */
  lemma NotifiedAccounts(s: ParentStore.State, org: nat, studentId: nat)
    ensures forall a :: a in AccountsFor(s, org, studentId) <==>
              && a in s.accounts && a.org == org && a.active
              && exists i | 0 <= i < |s.bindings| ::
                   var b := s.bindings[i]; b.org == org && b.parentId == a.id && b.studentId == studentId && b.active
  {
    forall a: Account ensures BoundKey(s.bindings, org, studentId)(a) <==>
                                a.org == org && a.active && exists i | 0 <= i < |s.bindings| ::
                                  var b := s.bindings[i]; b.org == org && b.parentId == a.id && b.studentId == studentId && b.active
    {
      if i :| 0 <= i < |s.bindings| && s.bindings[i].org == org && s.bindings[i].parentId == a.id && s.bindings[i].studentId == studentId && s.bindings[i].active {
        assert ActiveBindingKey(org, a.id, studentId)(s.bindings[i]);
      }
    }
  }
}

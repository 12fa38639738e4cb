/** The parents' store: accounts, bindings to students, and applications for children. */
module ParentStore {
  import opened Common

  datatype Account = Account(id: nat, org: nat, openId: string, active: bool)

  datatype Binding = Binding(id: nat, org: nat, parentId: nat, studentId: nat, relationship: string, primary: bool, active: bool)

  datatype AppStatus = AppPending | AppNeedsInfo | AppApproved | AppRejected

  /** What the parent filled in. */
  datatype Form = Form(
    parentId: nat, studentName: string, schoolNameInput: string, gradeInput: string, classNameInput: string,
    schoolId: Option<nat>, classId: Option<nat>, grade: string, className: string,
    guardianName: string, guardianPhone: string, relationship: string, notes: string)

  datatype Application = Application(
    id: nat, org: nat, form: Form, status: AppStatus, studentId: Option<nat>, reviewNote: string, reviewer: Option<nat>)

  datatype Decision = Decision(status: AppStatus, studentId: Option<nat>, schoolId: Option<nat>, classId: Option<nat>, note: string, reviewer: nat)

  datatype State = State(nextId: nat, accounts: seq<Account>, bindings: seq<Binding>, applications: seq<Application>)

  datatype Outcome<+T> = Outcome(state: State, result: Result<T>)

  /** The names the handlers compare: no spaces, middle dots or full stops. */
  function NormalizeName(name: string): string { Stripped(Trim(name)) }

  function Stripped(s: string): string {
    if s == "" then ""
    else if s[0] in {' ', '\U{3000}', '\U{B7}', '.'} then Stripped(s[1..])
    else [s[0]] + Stripped(s[1..])
  }

  function Counts(): char -> bool { (c: char) => c != ' ' && c != '\U{3000}' && c != '\U{B7}' && c != '.' }

  /** The characters of a name that count, in order. */
  function Letters(name: string): string { Select(Trim(name), Counts()) }

  lemma {:induction false} StrippedIsSelected(s: string)
    ensures Stripped(s) == Select(s, Counts())
  {
    if s != "" {
      assert s == [s[0]] + s[1..];
      StrippedIsSelected(s[1..]);
      SelectPrepend(s[0], s[1..], Counts());
    }
  }

  predicate Live(status: AppStatus) { status in {AppPending, AppNeedsInfo, AppApproved} }

  function Cleaned(f: Form): Form {
    f.(studentName := Trim(f.studentName), schoolNameInput := Trim(f.schoolNameInput), gradeInput := Trim(f.gradeInput),
       classNameInput := Trim(f.classNameInput), grade := Trim(f.grade), className := Trim(f.className),
       guardianName := Trim(f.guardianName), guardianPhone := Trim(f.guardianPhone), relationship := Trim(f.relationship),
       notes := Trim(f.notes))
  }

  function BindingKey(org: nat, parentId: nat, studentId: nat): Binding -> bool {
    (b: Binding) => b.org == org && b.parentId == parentId && b.studentId == studentId
  }

  function ApplicationKey(org: nat, id: nat): Application -> bool {
    (a: Application) => a.org == org && a.id == id
  }

  function OwnApplicationKey(org: nat, id: nat, parentId: nat): Application -> bool {
    (a: Application) => a.org == org && a.id == id && a.form.parentId == parentId
  }

  function TwinKey(org: nat, f: Form): Application -> bool {
    (a: Application) =>
      a.org == org && a.form.parentId == f.parentId && a.form.studentName == Trim(f.studentName) && Live(a.status) && a.form.classId == f.classId
  }

  function OtherTwinKey(org: nat, id: nat, f: Form): Application -> bool {
    (a: Application) =>
      a.org == org && a.id != id && a.form.parentId == f.parentId && NormalizeName(a.form.studentName) == NormalizeName(f.studentName)
      && Live(a.status) && a.form.classId == f.classId
  }

  function Bind(s: State, org: nat, parentId: nat, studentId: nat, relationship: string, primary: bool): Outcome<Binding> {
    if FirstIndex(s.bindings, BindingKey(org, parentId, studentId)).Some? then Outcome(s, Err(Conflict))
    else
      var b := Binding(s.nextId, org, parentId, studentId, Trim(relationship), primary, true);
      Outcome(s.(nextId := s.nextId + 1, bindings := s.bindings + [b]), Ok(b))
  }

  function File(s: State, org: nat, f: Form): Outcome<Application> {
    if FirstIndex(s.applications, TwinKey(org, f)).Some? then Outcome(s, Err(Conflict))
    else
      var a := Application(s.nextId, org, Cleaned(f), AppPending, None, "", None);
      Outcome(s.(nextId := s.nextId + 1, applications := s.applications + [a]), Ok(a))
  }

  function Amend(s: State, org: nat, id: nat, f: Form): Outcome<Application> {
    if FirstIndex(s.applications, OtherTwinKey(org, id, f)).Some? then Outcome(s, Err(Conflict))
    else
      match FirstIndex(s.applications, OwnApplicationKey(org, id, f.parentId))
      case None => Outcome(s, Err(NotFound))
      case Some(i) =>
        if s.applications[i].status != AppNeedsInfo then Outcome(s, Err(InvalidState))
        else
          var a := s.applications[i].(form := Cleaned(f), status := AppPending, reviewNote := "", reviewer := None);
          Outcome(s.(applications := s.applications[i := a]), Ok(a))
  }

  function Decide(s: State, org: nat, id: nat, d: Decision): Outcome<Application> {
    if d.status == AppPending then Outcome(s, Err(InvalidStatus))
    else
      match FirstIndex(s.applications, ApplicationKey(org, id))
      case None => Outcome(s, Err(NotFound))
      case Some(i) =>
        var a := s.applications[i];
        if a.status != AppPending && a.status != AppNeedsInfo then Outcome(s, Err(InvalidState))
        else
          var a' := a.(status := d.status, studentId := d.studentId, form := a.form.(schoolId := d.schoolId, classId := d.classId),
                       reviewNote := Trim(d.note), reviewer := Some(d.reviewer));
          Outcome(s.(applications := s.applications[i := a']), Ok(a'))
  }

  /** The active accounts bound to a student, in account order. */
  function AccountsFor(s: State, org: nat, studentId: nat): seq<Account> { Select(s.accounts, BoundKey(s.bindings, org, studentId)) }

  function BoundKey(bindings: seq<Binding>, org: nat, studentId: nat): Account -> bool {
    (a: Account) => a.org == org && a.active && FirstIndex(bindings, ActiveBindingKey(org, a.id, studentId)).Some?
  }

  function ActiveBindingKey(org: nat, parentId: nat, studentId: nat): Binding -> bool {
    (b: Binding) => b.org == org && b.parentId == parentId && b.studentId == studentId && b.active
  }

  class MemoryStore {
    var nextId: nat
    var accounts: seq<Account>
    var bindings: seq<Binding>
    var applications: seq<Application>

    ghost function View(): State
      reads this
    {
      State(nextId, accounts, bindings, applications)
    }

    method CreateBinding(org: nat, parentId: nat, studentId: nat, relationship: string, primary: bool) returns (result: Result<Binding>)
      modifies this
      ensures Outcome(View(), result) == Bind(old(View()), org, parentId, studentId, relationship, primary)
    {
      var i := Scan(bindings, BindingKey(org, parentId, studentId));
      if i.Some? {
        return Err(Conflict);
      }
      var item := Binding(nextId, org, parentId, studentId, Trim(relationship), primary, true);
      nextId, bindings := nextId + 1, bindings + [item];
      result := Ok(item);
    }

    method CreateChildApplication(org: nat, f: Form) returns (result: Result<Application>)
      modifies this
      ensures Outcome(View(), result) == File(old(View()), org, f)
    {
      var i := Scan(applications, TwinKey(org, f));
      if i.Some? {
        return Err(Conflict);
      }
      var item := Application(nextId, org, Cleaned(f), AppPending, None, "", None);
      nextId, applications := nextId + 1, applications + [item];
      result := Ok(item);
    }

    method UpdateChildApplication(org: nat, id: nat, f: Form) returns (result: Result<Application>)
      modifies this
      ensures Outcome(View(), result) == Amend(old(View()), org, id, f)
    {
      var twin := Scan(applications, OtherTwinKey(org, id, f));
      if twin.Some? {
        return Err(Conflict);
      }
      var i := Scan(applications, OwnApplicationKey(org, id, f.parentId));
      if i.None? {
        return Err(NotFound);
      }
      var item := applications[i.value];
      if item.status != AppNeedsInfo {
        return Err(InvalidState);
      }
      item := item.(form := Cleaned(f), status := AppPending, reviewNote := "", reviewer := None);
      applications := applications[i.value := item];
      result := Ok(item);
    }

    method ReviewChildApplication(org: nat, id: nat, d: Decision) returns (result: Result<Application>)
      modifies this
      ensures Outcome(View(), result) == Decide(old(View()), org, id, d)
    {
      if d.status == AppPending {
        return Err(InvalidStatus);
      }
      var i := Scan(applications, ApplicationKey(org, id));
      if i.None? {
        return Err(NotFound);
      }
      var item := applications[i.value];
      if item.status != AppPending && item.status != AppNeedsInfo {
        return Err(InvalidState);
      }
      item := item.(status := d.status, studentId := d.studentId, form := item.form.(schoolId := d.schoolId, classId := d.classId),
                    reviewNote := Trim(d.note), reviewer := Some(d.reviewer));
      applications := applications[i.value := item];
      result := Ok(item);
    }

    /** First the set of bound account ids, then the accounts in it. */
    method ListAccountsForStudent(org: nat, studentId: nat) returns (out: seq<Account>)
      ensures out == AccountsFor(View(), org, studentId)
    {
      var ids: set<nat> := {};
      for i := 0 to |bindings|
        invariant forall id :: id in ids <==> exists j :: 0 <= j < i && ActiveBindingKey(org, id, studentId)(bindings[j])
      {
        var b := bindings[i];
        if b.org == org && b.studentId == studentId && b.active {
          ids := ids + {b.parentId};
        }
      }
      forall id ensures id in ids <==> FirstIndex(bindings, ActiveBindingKey(org, id, studentId)).Some? {
        var f := FirstIndex(bindings, ActiveBindingKey(org, id, studentId));
        if f.Some? { assert ActiveBindingKey(org, id, studentId)(bindings[f.value]); }
      }
      out := [];
      for i := 0 to |accounts|
        invariant out == Select(accounts[..i], BoundKey(bindings, org, studentId))
      {
        assert accounts[..i + 1][..i] == accounts[..i];
        var a := accounts[i];
        if a.org == org && a.active && a.id in ids {
          out := out + [a];
        }
      }
      assert accounts[..|accounts|] == accounts;
    }
  }
}

/** School classes and students, as far as the generator and the approval of applications use them. */
module MasterData {
  import opened Common

  datatype SchoolClass = SchoolClass(id: nat, org: nat, schoolId: nat, termId: nat, active: bool)

  /** What is recorded of a student besides ids and status. */
  datatype Profile = Profile(
    gender: string, birthDay: Option<int>, studentNo: string, guardianPhone: string, emergencyContact: string,
    emergencyPhone: string, notes: string)

  datatype Student = Student(
    id: nat, org: nat, schoolId: nat, termId: nat, schoolClassId: nat, careClassId: Option<nat>, name: string,
    profile: Profile, active: bool)

  datatype State = State(nextId: nat, classes: seq<SchoolClass>, students: seq<Student>)

  function ClassesOf(org: nat): SchoolClass -> bool { (c: SchoolClass) => c.org == org }

  function StudentsOf(org: nat): Student -> bool { (x: Student) => x.org == org }

  /** A new student gets the next id and is active. */
  function NewStudent(s: State, org: nat, schoolId: nat, termId: nat, classId: nat, careClassId: Option<nat>, name: string, profile: Profile): Student {
    Student(s.nextId, org, schoolId, termId, classId, careClassId, name, profile, true)
  }

  function AddStudent(s: State, org: nat, schoolId: nat, termId: nat, classId: nat, careClassId: Option<nat>, name: string, profile: Profile): State {
    s.(nextId := s.nextId + 1, students := s.students + [NewStudent(s, org, schoolId, termId, classId, careClassId, name, profile)])
  }

  class MemoryStore {
    var nextId: nat
    var classes: seq<SchoolClass>
    var students: seq<Student>

    ghost function View(): State
      reads this
    {
      State(nextId, classes, students)
    }

    method ListSchoolClasses(org: nat) returns (out: seq<SchoolClass>)
      ensures out == Select(classes, ClassesOf(org)) && forall c :: c in out <==> c in classes && c.org == org
    {
      out := Filter(classes, ClassesOf(org));
    }

    method ListStudents(org: nat) returns (out: seq<Student>)
      ensures out == Select(students, StudentsOf(org)) && forall x :: x in out <==> x in students && x.org == org
    {
      out := Filter(students, StudentsOf(org));
    }

    method CreateStudent(org: nat, schoolId: nat, termId: nat, classId: nat, careClassId: Option<nat>, name: string, profile: Profile) returns (item: Student)
      modifies this
      ensures View() == AddStudent(old(View()), org, schoolId, termId, classId, careClassId, name, profile)
      ensures item == NewStudent(old(View()), org, schoolId, termId, classId, careClassId, name, profile)
    {
      item := Student(nextId, org, schoolId, termId, classId, careClassId, name, profile, true);
      nextId, students := nextId + 1, students + [item];
    }
  }
}

/** A parent's students (app/actions/students.ts): add, update and delete,
    the last two scoped to rows whose parent_id is the caller. */
module Students {
  import opened Types
  import opened Store
  import Forms

  /** The fields the actions read from the form data
      (app/actions/students.ts:16-22, 45-50); blank optional fields become
      null. */
  datatype StudentData = StudentData(
    fullName: Option<string>,
    gradeLevel: Option<string>,
    dateOfBirth: Option<string>,
    notes: Option<string>)

  function ReadStudentData(entries: seq<(string, string)>): (d: StudentData)
    ensures d.fullName == Forms.Lookup(entries, "fullName") && d.gradeLevel == Forms.Lookup(entries, "gradeLevel")
    ensures d.dateOfBirth.Some? <==> Forms.Truthy(Forms.Lookup(entries, "dateOfBirth"))
    ensures d.notes.Some? <==> Forms.Truthy(Forms.Lookup(entries, "notes"))
    ensures d.dateOfBirth.Some? ==> d.dateOfBirth == Forms.Lookup(entries, "dateOfBirth")
    ensures d.notes.Some? ==> d.notes == Forms.Lookup(entries, "notes")
  {
    StudentData(Forms.Lookup(entries, "fullName"), Forms.Lookup(entries, "gradeLevel"),
                Forms.OrNull(Forms.Lookup(entries, "dateOfBirth")), Forms.OrNull(Forms.Lookup(entries, "notes")))
  }

  /** The students table refuses a null name or grade. */
  predicate Refused(d: StudentData) {
    d.fullName.None? || d.gradeLevel.None?
  }

  /** The row `.eq("id", id).eq("parent_id", owner)` selects exists. */
  predicate Owns(students: map<Id, Student>, id: Id, owner: Id) {
    id in students && students[id].parentId == owner
  }

  /** Whether the table refuses updateStudent's write: Postgres checks the
      NOT NULL columns only on a row the update reaches, so an update that
      matches no row is never refused. */
  predicate UpdateRefused(students: map<Id, Student>, id: Id, owner: Id, d: StudentData) {
    Refused(d) && Owns(students, id, owner)
  }

  /** The row as written; an update leaves first_name alone. */
  function WithData(s: Student, d: StudentData): (r: Student)
    requires !Refused(d)
    ensures r.parentId == s.parentId && r.firstName == s.firstName
    ensures r.fullName == d.fullName.value && r.gradeLevel == d.gradeLevel.value
    ensures r.dateOfBirth == d.dateOfBirth && r.notes == d.notes
  {
    s.(fullName := d.fullName.value, gradeLevel := d.gradeLevel.value, dateOfBirth := d.dateOfBirth, notes := d.notes)
  }

  /** `.update(data).eq("id", id).eq("parent_id", owner)`: only that row,
      and only if it belongs to the owner. */
  function ScopedUpdate(students: map<Id, Student>, id: Id, owner: Id, d: StudentData): (r: map<Id, Student>)
    requires !UpdateRefused(students, id, owner, d)
    ensures r.Keys == students.Keys
    ensures forall k :: k in students && (k != id || students[k].parentId != owner) ==> r[k] == students[k]
    ensures Owns(students, id, owner) ==> r[id] == WithData(students[id], d)
  {
    if Owns(students, id, owner) then students[id := WithData(students[id], d)] else students
  }

  /** `.delete().eq("id", id).eq("parent_id", owner)`. */
  function ScopedDelete(students: map<Id, Student>, id: Id, owner: Id): (r: map<Id, Student>)
    ensures id in students && students[id].parentId == owner ==> r == students - {id}
    ensures !(id in students && students[id].parentId == owner) ==> r == students
  {
    if id in students && students[id].parentId == owner then students - {id} else students
  }

  /** A parent's update or delete never touches another parent's student,
      and a delete repeated is the same delete. */
  lemma {:induction false} OtherParentsUntouched(students: map<Id, Student>, id: Id, owner: Id, d: StudentData)
    requires !UpdateRefused(students, id, owner, d)
    ensures forall k :: k in students && students[k].parentId != owner ==>
              k in ScopedUpdate(students, id, owner, d) && ScopedUpdate(students, id, owner, d)[k] == students[k]
              && k in ScopedDelete(students, id, owner) && ScopedDelete(students, id, owner)[k] == students[k]
    ensures ScopedDelete(ScopedDelete(students, id, owner), id, owner) == ScopedDelete(students, id, owner)
  {
  }

  /** addStudent (app/actions/students.ts:5-32). */
  method AddStudent(db: Database, user: Option<Id>, form: Forms.FormData, dbFails: bool)
    returns (res: ActionResult, ghost newId: Option<Id>)
    modifies db
    ensures user.None? ==> res == Failure("Not authenticated") && db.Snapshot() == old(db.Snapshot())
    ensures user.Some? && (dbFails || Refused(ReadStudentData(form.entries))) ==>
              res == Failure("Failed to add student") && db.Snapshot() == old(db.Snapshot())
    ensures user.Some? && !dbFails && !Refused(ReadStudentData(form.entries)) ==>
              var d := ReadStudentData(form.entries);
              res == Success(None) && newId.Some? && newId.value !in old(db.students)
              && db.Snapshot() == old(db.Snapshot()).(students := old(db.students)[newId.value :=
                   Student(user.value, d.fullName.value, None, d.gradeLevel.value, d.dateOfBirth, d.notes)])
  {
    newId := None;
    if user.None? {
      return Failure("Not authenticated"), newId;
    }
    var d := ReadStudentData(form.entries);
    if dbFails || Refused(d) {
      return Failure("Failed to add student"), newId;
    }
    FreshIdExists(db.students);
    var created :| created !in db.students;
    db.students := db.students[created := Student(user.value, d.fullName.value, None, d.gradeLevel.value, d.dateOfBirth, d.notes)];
    newId := Some(created);
    res := Success(None);
  }

  /** updateStudent (app/actions/students.ts:34-60). Matching no row is not
      an error, whatever the form holds. */
  method UpdateStudent(db: Database, user: Option<Id>, studentId: Id, form: Forms.FormData, dbFails: bool)
    returns (res: ActionResult)
    modifies db
    ensures user.None? ==> res == Failure("Not authenticated") && db.Snapshot() == old(db.Snapshot())
    ensures user.Some? && (dbFails || UpdateRefused(old(db.students), studentId, user.value, ReadStudentData(form.entries))) ==>
              res == Failure("Failed to update student") && db.Snapshot() == old(db.Snapshot())
    ensures user.Some? && !dbFails && !UpdateRefused(old(db.students), studentId, user.value, ReadStudentData(form.entries)) ==>
              res == Success(None)
              && db.Snapshot() == old(db.Snapshot()).(students :=
                   ScopedUpdate(old(db.students), studentId, user.value, ReadStudentData(form.entries)))
  {
    if user.None? {
      return Failure("Not authenticated");
    }
    var d := ReadStudentData(form.entries);
    if dbFails || UpdateRefused(db.students, studentId, user.value, d) {
      return Failure("Failed to update student");
    }
    db.students := ScopedUpdate(db.students, studentId, user.value, d);
    res := Success(None);
  }

  /** deleteStudent (app/actions/students.ts:62-81). */
  method DeleteStudent(db: Database, user: Option<Id>, studentId: Id, dbFails: bool) returns (res: ActionResult)
    modifies db
    ensures user.None? ==> res == Failure("Not authenticated") && db.Snapshot() == old(db.Snapshot())
    ensures user.Some? && dbFails ==> res == Failure("Failed to delete student") && db.Snapshot() == old(db.Snapshot())
    ensures user.Some? && !dbFails ==>
              res == Success(None)
              && db.Snapshot() == old(db.Snapshot()).(students := ScopedDelete(old(db.students), studentId, user.value))
  {
    if user.None? {
      return Failure("Not authenticated");
    }
    if dbFails {
      return Failure("Failed to delete student");
    }
    db.students := ScopedDelete(db.students, studentId, user.value);
    res := Success(None);
  }
}

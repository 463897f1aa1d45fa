/** Which request takes back which, exactly. */
module Undoing {
  import opened Foundations
  import opened Text
  import opened Books
  import opened Soundness

  /** A rename can always be taken back, whatever it was to: the old name is free again, and comes back to the letter. */
  lemma RenameUndoesRename(db: Db, me: Id, id: Id, name: string)
    requires Sound(db) && me in db.users && RenameSubject(db, me, id, name).Ok?
    ensures var renamed := RenameSubject(db, me, id, name).value;
      me in renamed.users && RenameSubject(renamed, me, id, db.subjects[id].name) == Ok(db)
  {
    hide Closed, Retired, IdsSpent, Trim;
    var old_, renamed := db.subjects[id].name, RenameSubject(db, me, id, name).value;
    assert forall s <- db.subjects :: s != id ==> renamed.subjects[s] == db.subjects[s];
    assert Namesakes(renamed, db.users[me].school, old_) - {id} == {};
    assert renamed.subjects[id := renamed.subjects[id].(name := old_)] == db.subjects;
    hide Namesakes;
  }

  /** A student just created can be removed without a trace, spent id aside. */
  lemma RemoveUndoesCreateStudent(db: Db, me: Id, dto: NewStudent)
    requires Sound(db) && me in db.users && CreateStudent(db, me, dto).Ok?
    ensures var created := CreateStudent(db, me, dto).value;
      me in created.users && RemoveStudent(created, me, db.nextId) == Ok(db.(nextId := db.nextId + 1))
  {
    NobodyNames(db);
    hide Sound, ResolveSubject, Trim;
    var created, id := CreateStudent(db, me, dto).value, db.nextId;
    assert LessonsOfStudent(created, id) == {};
    DropNothing(created);
    DropNewcomer(db, created.students[id]);
    hide DropLessons, DropStudent, LessonsOfStudent;
  }

  lemma DropNothing(db: Db)
    ensures DropLessons(db, {}) == db
  {
    assert DropLessons(db, {}).register == db.register && DropLessons(db, {}).grades == db.grades;
  }

  lemma DropNewcomer(db: Db, row: Student)
    requires db.nextId !in db.students && forall p <- db.members :: p.student != db.nextId
    requires forall k <- db.register :: k.student != db.nextId
    requires forall g <- db.grades :: db.grades[g].student != db.nextId
    ensures var created := db.(students := db.students[db.nextId := row], nextId := db.nextId + 1);
      DropStudent(created, db.nextId) == db.(nextId := db.nextId + 1)
  {
    NobodysPlaces(db.members, db.nextId);
    NobodysSeats(db.register, db.nextId);
    NobodysGrades(db.grades, db.nextId);
    assert db.students[db.nextId := row] - {db.nextId} == db.students;
  }

  lemma NobodysPlaces(members: set<Place>, id: Id)
    requires forall p <- members :: p.student != id
    ensures (set p | p in members && p.student != id) == members
  {
  }

  lemma NobodysGroup(members: set<Place>, id: Id)
    requires forall p <- members :: p.group != id
    ensures (set p | p in members && p.group != id) == members
  {
  }

  lemma NobodysSeats(register: map<Seat, Attendance>, id: Id)
    requires forall k <- register :: k.student != id
    ensures (map k | k in register && k.student != id :: register[k]) == register
  {
  }

  lemma NobodysGrades(grades: map<Id, Grade>, id: Id)
    requires forall g <- grades :: grades[g].student != id
    ensures (map g | g in grades && grades[g].student != id :: grades[g]) == grades
  {
  }

  /** No row refers to an id still to be handed out. */
  lemma NobodyNames(db: Db)
    requires Sound(db)
    ensures db.nextId !in db.students && db.nextId !in db.groups && db.nextId !in db.grades
    ensures forall p <- db.members :: p.student != db.nextId && p.group != db.nextId
    ensures forall k <- db.register :: k.student != db.nextId
    ensures forall g <- db.grades :: db.grades[g].student != db.nextId
    ensures forall l <- db.lessons :: db.lessons[l].student != Some(db.nextId) && db.lessons[l].group != Some(db.nextId)
  {
    forall p <- db.members ensures p.student != db.nextId && p.group != db.nextId { assert PlaceFor(db, p); }
    forall k <- db.register ensures k.student != db.nextId { assert SeatFor(db, k); }
    forall g <- db.grades ensures db.grades[g].student != db.nextId { assert GradeFor(db, db.grades[g]); }
    forall l <- db.lessons
      ensures db.lessons[l].student != Some(db.nextId) && db.lessons[l].group != Some(db.nextId)
    {
      assert LessonFor(db, db.lessons[l]);
    }
  }

  /** A group just created can be removed without a trace, spent id aside. */
  lemma RemoveUndoesCreateGroup(db: Db, me: Id, dto: NewGroup)
    requires Sound(db) && me in db.users && CreateGroup(db, me, dto).Ok?
    ensures var created := CreateGroup(db, me, dto).value;
      me in created.users && RemoveGroup(created, me, db.nextId) == Ok(db.(nextId := db.nextId + 1))
  {
    NobodyNames(db);
    hide Sound, ResolveSubject, Trim, BlankToNull;
    var created, id := CreateGroup(db, me, dto).value, db.nextId;
    assert LessonsOfGroup(created, id) == {};
    DropNothing(created);
    hide DropLessons, LessonsOfGroup;
    assert created.groups - {id} == db.groups;
    NobodysGroup(db.members, id);
  }

  /** Writing the old status again undoes a new mark, balance included, exactly when the homework check is brought back:
      named outright, or never changed. A check made for the first time is taken away by an explicit null alone. */
  lemma OldMarkUndoesNewIff(db: Db, lesson: Id, mark: Mark, check: Option<Option<bool>>)
    requires mark.student in db.students && Seat(lesson, mark.student) in db.register
    ensures var old_ := db.register[Seat(lesson, mark.student)];
      WriteMark(WriteMark(db, lesson, mark), lesson, Mark(mark.student, old_.status, check)) == db
      <==> old_.homeworkDone == check.GetOr(mark.homeworkDone.GetOr(old_.homeworkDone))
  {
    var seat := Seat(lesson, mark.student);
    var old_ := db.register[seat];
    var back := WriteMark(WriteMark(db, lesson, mark), lesson, Mark(mark.student, old_.status, check));
    assert back.register[seat] == Attendance(old_.status, check.GetOr(mark.homeworkDone.GetOr(old_.homeworkDone)));
    assert back.register == db.register[seat := back.register[seat]];
    assert back.students == db.students;
  }

  /** A first mark leaves its row for good, but excusing it gives every balance back. */
  lemma ExcusingGivesBack(db: Db, lesson: Id, mark: Mark)
    requires mark.student in db.students && Seat(lesson, mark.student) !in db.register
    ensures var after := WriteMark(WriteMark(db, lesson, mark), lesson, Mark(mark.student, AbsentExcused, None));
      after.students == db.students && Seat(lesson, mark.student) in after.register
  {
    var after := WriteMark(WriteMark(db, lesson, mark), lesson, Mark(mark.student, AbsentExcused, None));
    assert after.students == db.students;
  }
}

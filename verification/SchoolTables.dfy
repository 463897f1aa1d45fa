/** The tables as the services update them: one statement at a time, in place. */
module SchoolTables {
  import opened Foundations
  import opened Text
  import opened Books
  import Soundness

  /** A service call did what `want` says: the new state and an answer, or a refusal and the old state. */
  ghost predicate Did<T>(before: Db, after: Db, answer: Result<T>, want: Result<Db>) {
    match want
    case Ok(db) => answer.Ok? && after == db
    case Err(e) => answer == Err(e) && after == before
  }

  class Tables {
    var schools: map<Id, School>
    var users: map<Id, User>
    var subjects: map<Id, Subject>
    var students: map<Id, Student>
    var groups: map<Id, Group>
    var members: set<Place>
    var lessons: map<Id, Lesson>
    var register: map<Seat, Attendance>
    var grades: map<Id, Grade>
    var nextId: Id

    function State(): Db
      reads this
    {
      Db(schools, users, subjects, students, groups, members, lessons, register, grades, nextId)
    }

    constructor ()
      ensures State() == EMPTY
    {
      schools, users, subjects, students, groups := map[], map[], map[], map[], map[];
      members, lessons, register, grades, nextId := {}, map[], map[], map[], 0;
    }

    // ----- Students -----

    method CreateStudent(me: Id, dto: NewStudent) returns (r: Result<Id>)
      requires me in users
      modifies this
      ensures Did(old(State()), State(), r, Books.CreateStudent(old(State()), me, dto))
      ensures r.Ok? ==> r.value == old(nextId)
    {
      var subject :- ResolveSubject(State(), me, dto.subject, None);
      var paid := match dto.paidLessonsLeft case Some(n) => n case None => 0;
      students := students[nextId := Student(users[me].school, me, Trim(dto.name), subject, paid)];
      r := Ok(nextId);
      nextId := nextId + 1;
    }

    method UpdateStudent(me: Id, id: Id, dto: StudentPatch) returns (r: Result<()>)
      requires me in users
      modifies this
      ensures Did(old(State()), State(), r, Books.UpdateStudent(old(State()), me, id, dto))
    {
      var student :- FindStudent(State(), me, id);
      if dto.subject.Some? {
        var subject :- ResolveSubject(State(), me, dto.subject.value, student.subject);
        student := student.(subject := subject);
      }
      if dto.name.Some? {
        student := student.(name := Trim(dto.name.value));
      }
      if dto.paidLessonsLeft.Some? {
        student := student.(paidLessonsLeft := dto.paidLessonsLeft.value);
      }
      students := students[id := student];
      return Ok(());
    }

    /** The foreign keys of a deleted lesson: its register rows go, marks given in it stay without it. */
    method DeleteLessons(doomed: set<Id>)
      modifies this`lessons, this`register, this`grades
      ensures State() == DropLessons(old(State()), doomed)
    {
      lessons := lessons - doomed;
      register := map k | k in register && k.lesson !in doomed :: register[k];
      grades := map g | g in grades :: Detached(grades[g], doomed);
    }

    /** The foreign keys of a deleted student: places, register rows and marks go. */
    method DeleteStudent(id: Id)
      modifies this`students, this`members, this`register, this`grades
      ensures State() == DropStudent(old(State()), id)
    {
      members := set p | p in members && p.student != id;
      register := map k | k in register && k.student != id :: register[k];
      grades := map g | g in grades && grades[g].student != id :: grades[g];
      students := students - {id};
    }

    method RemoveStudent(me: Id, id: Id) returns (r: Result<()>)
      requires me in users
      modifies this
      ensures Did(old(State()), State(), r, Books.RemoveStudent(old(State()), me, id))
    {
      var _ :- FindStudent(State(), me, id);
      DeleteLessons(LessonsOfStudent(State(), id));
      DeleteStudent(id);
      return Ok(());
    }

    // ----- Groups -----

    method CreateGroup(me: Id, dto: NewGroup) returns (r: Result<Id>)
      requires me in users
      modifies this
      ensures Did(old(State()), State(), r, Books.CreateGroup(old(State()), me, dto))
      ensures r.Ok? ==> r.value == old(nextId)
    {
      var subject :- ResolveSubject(State(), me, Some(dto.subject), None);
      groups := groups[nextId := Group(users[me].school, me, Trim(dto.name), subject, BlankToNull(dto.level))];
      r := Ok(nextId);
      nextId := nextId + 1;
    }

    method UpdateGroup(me: Id, id: Id, dto: GroupPatch) returns (r: Result<()>)
      requires me in users
      modifies this
      ensures Did(old(State()), State(), r, Books.UpdateGroup(old(State()), me, id, dto))
    {
      var group :- FindGroup(State(), me, id);
      if dto.subject.Some? {
        var subject :- ResolveSubject(State(), me, dto.subject.value, group.subject);
        group := group.(subject := subject);
      }
      if dto.name.Some? {
        group := group.(name := Trim(dto.name.value));
      }
      if dto.level.Some? {
        group := group.(level := BlankToNull(dto.level));
      }
      groups := groups[id := group];
      return Ok(());
    }

    method RemoveGroup(me: Id, id: Id) returns (r: Result<()>)
      requires me in users
      modifies this
      ensures Did(old(State()), State(), r, Books.RemoveGroup(old(State()), me, id))
    {
      var _ :- FindGroup(State(), me, id);
      DeleteLessons(LessonsOfGroup(State(), id));
      members := set p | p in members && p.group != id;
      groups := groups - {id};
      return Ok(());
    }

    method AddMember(me: Id, group: Id, student: Id) returns (r: Result<()>)
      requires me in users
      modifies this
      ensures Did(old(State()), State(), r, Books.AddMember(old(State()), me, group, student))
    {
      var _ :- FindGroup(State(), me, group);
      var _ :- FindStudent(State(), me, student);
      if Place(group, student) !in members {
        members := members + {Place(group, student)};
      }
      return Ok(());
    }

    method RemoveMember(me: Id, group: Id, student: Id) returns (r: Result<()>)
      requires me in users
      modifies this
      ensures Did(old(State()), State(), r, Books.RemoveMember(old(State()), me, group, student))
    {
      var _ :- FindGroup(State(), me, group);
      members := members - {Place(group, student)};
      return Ok(());
    }

    // ----- Lessons -----

    method BookLesson(me: Id, dto: NewLesson) returns (r: Result<Id>)
      requires me in users
      modifies this
      ensures Did(old(State()), State(), r, Books.BookLesson(old(State()), me, dto))
      ensures r.Ok? ==> r.value == old(nextId)
    {
      if dto.student.None? == dto.group.None? {
        return Err(BadRequest);
      }
      var subject :- ResolveSubject(State(), me, dto.subject, None);
      var lesson := Lesson(
        users[me].school, me, subject, None, None, dto.startsAt, dto.minutes, dto.meeting, Scheduled, None, None);
      if dto.group.Some? {
        var _ :- FindGroup(State(), me, dto.group.value);
        lesson := lesson.(group := dto.group);
      } else {
        var _ :- FindStudent(State(), me, dto.student.value);
        lesson := lesson.(student := dto.student);
      }
      lessons := lessons[nextId := lesson];
      r := Ok(nextId);
      nextId := nextId + 1;
    }

    method SetLessonStatus(me: Id, id: Id, status: LessonStatus) returns (r: Result<()>)
      requires me in users
      modifies this
      ensures Did(old(State()), State(), r, Books.SetLessonStatus(old(State()), me, id, status))
    {
      var lesson :- FindLesson(State(), me, id);
      lessons := lessons[id := lesson.(status := status)];
      return Ok(());
    }

    // ----- The register and the marks -----

    /** One turn of the write-up: compare the old mark with the new one, settle the balance, upsert the row. */
    method WriteOneMark(id: Id, mark: Mark)
      requires mark.student in students
      modifies this`students, this`register
      ensures State() == WriteMark(old(State()), id, mark)
      ensures students.Keys == old(students.Keys)
    {
      var seat := Seat(id, mark.student);
      var wasCharged := seat in register && Charged(register[seat].status);
      var isCharged := Charged(mark.status);
      if wasCharged != isCharged {
        var student := students[mark.student];
        var change := if isCharged then -1 else 1;
        students := students[mark.student := student.(paidLessonsLeft := student.paidLessonsLeft + change)];
      }
      if seat in register {
        var row := register[seat].(status := mark.status);
        if mark.homeworkDone.Some? {
          row := row.(homeworkDone := mark.homeworkDone.value);
        }
        register := register[seat := row];
      } else {
        register := register[seat := Attendance(mark.status, mark.homeworkDone.GetOr(None))];
      }
    }

    /** The loop of a write-up. */
    method WriteEveryMark(id: Id, marks: seq<Mark>)
      requires forall i :: 0 <= i < |marks| ==> marks[i].student in students
      modifies this`students, this`register
      ensures State() == WriteMarks(old(State()), id, marks)
    {
      ghost var before := State();
      var i := 0;
      while i < |marks|
        invariant 0 <= i <= |marks|
        invariant State() == WriteMarks(before, id, marks[..i])
        invariant students.Keys == before.students.Keys
      {
        WriteOneMark(id, marks[i]);
        assert marks[..i + 1][..i] == marks[..i];
        i := i + 1;
      }
      assert marks[..|marks|] == marks;
    }

    /** Writes up a lesson, one mark after another, then the lesson's own row. */
    method WriteJournal(me: Id, id: Id, dto: Journal) returns (r: Result<()>)
      requires me in users && Soundness.Closed(State())
      modifies this
      ensures Did(old(State()), State(), r, Books.WriteJournal(old(State()), me, id, dto))
    {
      hide WriteMarks, StatusFromRegister, BlankToNull;
      var lesson :- FindLesson(State(), me, id);
      var marks := dto.attendance;
      var eligible := StudentsOf(State(), lesson);
      if exists i :: 0 <= i < |marks| && marks[i].student !in eligible {
        return Err(BadRequest);
      }
      if !OnePerStudent(marks) {
        return Err(BadRequest);
      }
      AllKnown(State(), id, marks);
      hide Soundness.Closed, StudentsOf, OnePerStudent;
      WriteEveryMark(id, marks);
      if dto.topic.Some? {
        lesson := lesson.(topic := BlankToNull(dto.topic));
      }
      if dto.homework.Some? {
        lesson := lesson.(homework := BlankToNull(dto.homework));
      }
      var status := if dto.status.Some? then dto.status else StatusFromRegister(marks);
      if status.Some? {
        lesson := lesson.(status := status.value);
      }
      lessons := lessons[id := lesson];
      return Ok(());
    }

    method AddGradeForStudent(me: Id, student: Id, dto: WriteGrade, now: Time) returns (r: Result<Id>)
      requires me in users
      modifies this
      ensures Did(old(State()), State(), r, Books.AddGradeForStudent(old(State()), me, student, dto, now))
      ensures r.Ok? ==> r.value == old(nextId)
    {
      var _ :- FindStudent(State(), me, student);
      var _ :- InScale(State(), me, dto);
      grades := grades[nextId := GradeFrom(dto, student, None, me, now)];
      r := Ok(nextId);
      nextId := nextId + 1;
    }

    method AddGradeForLesson(me: Id, id: Id, dto: WriteGrade, now: Time) returns (r: Result<Id>)
      requires me in users
      modifies this
      ensures Did(old(State()), State(), r, Books.AddGradeForLesson(old(State()), me, id, dto, now))
      ensures r.Ok? ==> r.value == old(nextId)
    {
      var lesson :- FindLesson(State(), me, id);
      var student :- ResolveMarked(State(), lesson, dto.student);
      var _ :- InScale(State(), me, dto);
      grades := grades[nextId := GradeFrom(dto, student, Some(id), me, now)];
      r := Ok(nextId);
      nextId := nextId + 1;
    }

    method CorrectGrade(me: Id, id: Id, dto: WriteGrade) returns (r: Result<()>)
      requires me in users
      modifies this
      ensures Did(old(State()), State(), r, Books.CorrectGrade(old(State()), me, id, dto))
    {
      var grade :- FindWritableGrade(State(), me, id);
      var _ :- InScale(State(), me, dto);
      grades := grades[id := GradeFrom(dto, grade.student, grade.lesson, grade.author, grade.createdAt)];
      return Ok(());
    }

    method RemoveGrade(me: Id, id: Id) returns (r: Result<()>)
      requires me in users
      modifies this
      ensures Did(old(State()), State(), r, Books.RemoveGrade(old(State()), me, id))
    {
      var _ :- FindWritableGrade(State(), me, id);
      grades := grades - {id};
      return Ok(());
    }

    // ----- Subjects -----

    method CreateSubject(me: Id, name: string) returns (r: Result<Id>)
      requires me in users
      modifies this
      ensures Did(old(State()), State(), r, Books.CreateSubject(old(State()), me, name))
      ensures r.Ok? ==> r.value == old(nextId)
    {
      var school := users[me].school;
      var _ :- NameTaken(State(), Namesakes(State(), school, Trim(name)));
      subjects := subjects[nextId := Subject(school, Trim(name), None)];
      r := Ok(nextId);
      nextId := nextId + 1;
    }

    method RenameSubject(me: Id, id: Id, name: string) returns (r: Result<()>)
      requires me in users
      modifies this
      ensures Did(old(State()), State(), r, Books.RenameSubject(old(State()), me, id, name))
    {
      var subject :- FindSubject(State(), me, id);
      var _ :- NameTaken(State(), Namesakes(State(), users[me].school, Trim(name)) - {id});
      subjects := subjects[id := subject.(name := Trim(name))];
      return Ok(());
    }

    method HideSubject(me: Id, id: Id, now: Time) returns (r: Result<()>)
      requires me in users
      modifies this
      ensures Did(old(State()), State(), r, Books.HideSubject(old(State()), me, id, now))
    {
      var subject :- FindSubject(State(), me, id);
      if !UsageOf(State(), id, now).CanHide() {
        return Err(Conflict(SubjectInUse));
      }
      if subject.hiddenAt.None? {
        subjects := subjects[id := subject.(hiddenAt := Some(now))];
      }
      return Ok(());
    }

    method RestoreSubject(me: Id, id: Id) returns (r: Result<()>)
      requires me in users
      modifies this
      ensures Did(old(State()), State(), r, Books.RestoreSubject(old(State()), me, id))
    {
      var subject :- FindSubject(State(), me, id);
      subjects := subjects[id := subject.(hiddenAt := None)];
      return Ok(());
    }
  }

  /** Everybody a lesson is for is in the student table. */
  lemma AllKnown(db: Db, id: Id, marks: seq<Mark>)
    requires Soundness.Closed(db) && id in db.lessons
    requires forall i :: 0 <= i < |marks| ==> marks[i].student in StudentsOf(db, db.lessons[id])
    ensures forall i :: 0 <= i < |marks| ==> marks[i].student in db.students
  {
    forall i | 0 <= i < |marks| ensures marks[i].student in db.students {
      Soundness.EligibleSeat(db, id, marks[i].student);
    }
  }
}

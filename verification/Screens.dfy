/** From a request to the screens: what was just entered is what the next look shows. */
module Screens {
  import opened Foundations
  import opened Books
  import opened Soundness
  import Answers
  import Debtors
  import Progress
  import Stored

  // ----- The progress of a student -----

  /** The lessons that name the student or their group now. */
  function Lessons(db: Db, student: Id): set<Id> {
    set l | l in db.lessons && Answers.Attends(db, db.lessons[l], student)
  }

  function Seats(db: Db, student: Id): set<Seat> {
    set k | k in db.register && k.student == student
  }

  function Marks(db: Db, student: Id): set<Id> {
    set g | g in db.grades && db.grades[g].student == student
  }

  lemma LessonsAreTheirs(db: Db, student: Id)
    ensures Lessons(db, student) == Progress.LessonsFor(db, student)
  {
    forall l <- db.lessons ensures student in StudentsOf(db, db.lessons[l]) <==> Answers.Attends(db, db.lessons[l], student) {
      Answers.AttendsIffStudent(db, db.lessons[l], student);
    }
    hide StudentsOf, Answers.Attends;
  }

  /** Who may look, and what they see: the student's lessons by status, their seats by mark, their marks counted. */
  lemma ProgressSays(db: Db, me: Id, student: Id, lessons: seq<Id>, grades: seq<Id>, seats: seq<Seat>)
    requires me in db.users
    requires Lists(lessons, Lessons(db, student)) && Lists(grades, Marks(db, student)) && Lists(seats, Seats(db, student))
    ensures Progress.ProgressForStudent(db, me, student, lessons, grades, seats).Ok? <==> Answers.MyStudent(db, me, student)
    ensures Answers.MyStudent(db, me, student) ==>
      var p := Progress.ProgressForStudent(db, me, student, lessons, grades, seats).value;
      var all, rows := Lessons(db, student), Seats(db, student);
      && p.lessons == Progress.LessonCounts(
           |all|, |Progress.LessonsAt(db, all, Completed)|, |Progress.LessonsAt(db, all, Cancelled)|,
           |Progress.LessonsAt(db, all, Scheduled)|)
      && p.attendance.present == |Progress.MarkedAs(db, rows, Present)|
      && p.attendance.late == |Progress.MarkedAs(db, rows, Late)|
      && p.attendance.absentExcused == |Progress.MarkedAs(db, rows, AbsentExcused)|
      && p.attendance.absentUnexcused == |Progress.MarkedAs(db, rows, AbsentUnexcused)|
      && p.attendance.marked == |rows| && p.grades.count == |Marks(db, student)|
  {
    Progress.LessonsAddUp(db, lessons, Lessons(db, student));
    Progress.AttendanceAddsUp(db, seats, Seats(db, student));
    ListsLength(grades, Marks(db, student));
    hide Lessons, Seats, Marks, Lists, Progress.LessonsAt, Progress.MarkedAs, Progress.SummariseLessons,
      Progress.SummariseAttendance, Progress.AverageOfKind;
  }

  // ----- A mark just given -----

  /** The rows of one kind, in the order the query gave them. */
  lemma {:induction false} OneOfKind(db: Db, ids: seq<Id>, id: Id, kind: GradeKind)
    requires id in ids && forall i, j :: 0 <= i < j < |ids| ==> ids[i] != ids[j]
    requires forall g <- ids :: Progress.OfKind(db, kind)(g) <==> g == id
    ensures Filter(ids, Progress.OfKind(db, kind)) == [id]
  {
    var front, last := ids[..|ids| - 1], ids[|ids| - 1];
    if last == id {
      NoneOfKind(db, front, kind);
    } else {
      assert id in front;
      OneOfKind(db, front, id, kind);
    }
  }

  lemma {:induction false} NoneOfKind(db: Db, ids: seq<Id>, kind: GradeKind)
    requires forall g <- ids :: !Progress.OfKind(db, kind)(g)
    ensures Filter(ids, Progress.OfKind(db, kind)) == []
  {
    if ids != [] { NoneOfKind(db, ids[..|ids| - 1], kind); }
  }

  lemma AverageOfOne(grade: Grade)
    requires grade.value.Some? && grade.weight > 0
    ensures Progress.Average([grade]) == Some(Progress.GradeAverage(Progress.Round2(grade.value.value), 1))
  {
    assert [grade][..0] == [];
    assert Progress.RealSum([grade], Progress.Weight) == grade.weight as real;
    assert Progress.RealSum([grade], Progress.Weighted) == grade.value.value * grade.weight as real;
    assert |Filter([grade], Progress.Counted)| == 1;
    hide Progress.RealSum, Filter, Progress.Weight, Progress.Weighted, Progress.Round2;
    OverItself(grade.value.value, grade.weight as real);
    assert Progress.Mean([grade]) == grade.value.value;
    hide Progress.Mean;
  }

  lemma OverItself(value: real, weight: real)
    requires weight > 0.0
    ensures value * weight / weight == value
  {
  }

  /** The first mark of its kind is the average of that kind, rounded to hundredths. */
  lemma FirstMarkShows(db: Db, me: Id, student: Id, dto: WriteGrade, now: Time, grades: seq<Id>)
    requires me in db.users && IdsSpent(db) && Answers.WithinBounds(AskGradeStudent(student, dto, now))
    requires Serve(db, me, AskGradeStudent(student, dto, now)).Ok? && dto.kind != Descriptive
    requires forall g <- db.grades :: db.grades[g].student == student ==> db.grades[g].kind != dto.kind
    requires Lists(grades, Marks(Serve(db, me, AskGradeStudent(student, dto, now)).value, student))
    ensures var after := Serve(db, me, AskGradeStudent(student, dto, now)).value;
      var shown := Progress.SummariseGrades(after, grades);
      (if dto.kind == Classic then shown.classic else shown.percentage)
      == Some(Progress.GradeAverage(Progress.Round2(dto.value.value), 1))
  {
    var after := Serve(db, me, AskGradeStudent(student, dto, now)).value;
    Stored.NewGradeIsStored(db, me, student, dto, now);
    hide Serve;
    assert db.nextId in Marks(after, student);
    forall g <- grades ensures Progress.OfKind(after, dto.kind)(g) <==> g == db.nextId {
      assert g in Marks(after, student);
    }
    OneOfKind(after, grades, db.nextId, dto.kind);
    AverageOfOne(after.grades[db.nextId]);
    hide Progress.Average, Progress.OfKind;
    assert Progress.GradeRows(after, [db.nextId]) == [after.grades[db.nextId]];
  }

  // ----- A lesson just booked, moved or called off -----

  /** A booking is one more lesson to come for exactly those it is for, if it is not in the past. */
  lemma BookingShows(db: Db, me: Id, dto: NewLesson, student: Id, now: Time)
    requires me in db.users && IdsSpent(db) && Serve(db, me, AskBookLesson(dto)).Ok?
    ensures var after := Serve(db, me, AskBookLesson(dto)).value;
      var isTheirs := dto.student == Some(student) || (dto.group.Some? && Place(dto.group.value, student) in db.members);
      && db.nextId !in Debtors.ToCome(db, student, now)
      && Debtors.ToCome(after, student, now)
         == Debtors.ToCome(db, student, now) + if isTheirs && dto.startsAt >= now then {db.nextId} else {}
  {
    Stored.BookingIsStored(db, me, dto);
    Answers.BookingAnswered(db, me, AskBookLesson(dto));
    hide Serve;
  }

  /** A status move puts the lesson among those to come, or takes it out, and leaves the others there. */
  lemma StatusShows(db: Db, me: Id, id: Id, status: LessonStatus, student: Id, now: Time)
    requires me in db.users && Serve(db, me, AskSetStatus(id, status)).Ok?
    ensures var after := Serve(db, me, AskSetStatus(id, status)).value;
      && Debtors.ToCome(after, student, now) - {id} == Debtors.ToCome(db, student, now) - {id}
      && (id in Debtors.ToCome(after, student, now) <==>
            id in Lessons(db, student) && status == Scheduled && db.lessons[id].startsAt >= now)
  {
    Stored.StatusIsStored(db, me, id, status);
    hide Serve;
  }
}

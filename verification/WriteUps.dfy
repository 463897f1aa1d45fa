/** What a write-up leaves behind, and why neither its order nor its repetition matters. */
module WriteUps {
  import opened Foundations
  import opened Books
  import opened Soundness
  import opened Ledger
  import Scenes
  import Sorting
  import opened Text

  // ----- The register after the loop -----

  ghost predicate Names(marks: seq<Mark>, student: Id) {
    exists i :: 0 <= i < |marks| && marks[i].student == student
  }

  ghost predicate InPayload(lesson: Id, marks: seq<Mark>, seat: Seat) {
    seat.lesson == lesson && Names(marks, seat.student)
  }

  /** The register after a write-up, said outright: each marked seat holds its mark (and keeps its homework check
      when the mark is silent about it), and every other seat is as it was. */
  ghost predicate Marked(before: map<Seat, Attendance>, after: map<Seat, Attendance>, lesson: Id, marks: seq<Mark>) {
    && (forall k :: k in after <==> k in before || InPayload(lesson, marks, k))
    && (forall k <- before :: !InPayload(lesson, marks, k) ==> after[k] == before[k])
    && (forall i :: 0 <= i < |marks| ==> Holds(before, after, Seat(lesson, marks[i].student), marks[i]))
  }

  ghost predicate Holds(before: map<Seat, Attendance>, after: map<Seat, Attendance>, seat: Seat, mark: Mark) {
    seat in after && after[seat] == Written(before, seat, mark)
  }

  lemma NamesOneMore(marks: seq<Mark>, student: Id)
    requires marks != []
    ensures Names(marks, student)
       <==> Names(marks[..|marks| - 1], student) || marks[|marks| - 1].student == student
  {
    var front := marks[..|marks| - 1];
    if i :| 0 <= i < |marks| && marks[i].student == student {
      if i < |front| { assert front[i].student == student; }
    }
    if i :| 0 <= i < |front| && front[i].student == student {
      assert marks[i].student == student;
    }
  }

  lemma {:induction false} WriteMarksMarks(db: Db, lesson: Id, marks: seq<Mark>)
    requires OnePerStudent(marks)
    ensures Marked(db.register, WriteMarks(db, lesson, marks).register, lesson, marks)
  {
    if marks != [] {
      var front, last := marks[..|marks| - 1], marks[|marks| - 1];
      WriteMarksMarks(db, lesson, front);
      OneMarkMore(db.register, WriteMarks(db, lesson, front).register, lesson, marks);
    }
  }

  lemma OneMarkMore(before: map<Seat, Attendance>, middle: map<Seat, Attendance>, lesson: Id, marks: seq<Mark>)
    requires marks != [] && OnePerStudent(marks) && Marked(before, middle, lesson, marks[..|marks| - 1])
    ensures var last := marks[|marks| - 1];
      var seat := Seat(lesson, last.student);
      Marked(before, middle[seat := Written(middle, seat, last)], lesson, marks)
  {
    var front, last := marks[..|marks| - 1], marks[|marks| - 1];
    var seat := Seat(lesson, last.student);
    var after := middle[seat := Written(middle, seat, last)];
    forall k ensures InPayload(lesson, marks, k) <==> InPayload(lesson, front, k) || k == seat {
      NamesOneMore(marks, k.student);
    }
    assert !InPayload(lesson, front, seat);
    hide Names;
    forall i | 0 <= i < |marks| ensures Holds(before, after, Seat(lesson, marks[i].student), marks[i]) {
      if i < |front| {
        assert marks[i] == front[i];
        assert Holds(before, middle, Seat(lesson, front[i].student), front[i]);
      }
    }
  }

  /** `Marked` leaves no choice, and the order of the marks is not part of it. */
  lemma MarkedIsUnique(
    before: map<Seat, Attendance>, a: map<Seat, Attendance>, b: map<Seat, Attendance>,
    lesson: Id, marks: seq<Mark>, others: seq<Mark>)
    requires Marked(before, a, lesson, marks) && Marked(before, b, lesson, others)
    requires forall m :: m in marks <==> m in others
    ensures a == b
  {
    forall k ensures InPayload(lesson, marks, k) <==> InPayload(lesson, others, k) {
      SameMarksSameNames(marks, others, k.student);
    }
    forall k <- a ensures a[k] == b[k] {
      if InPayload(lesson, marks, k) {
        var i :| 0 <= i < |marks| && marks[i].student == k.student;
        assert marks[i] in others;
        var j :| 0 <= j < |others| && others[j] == marks[i];
        assert Holds(before, a, Seat(lesson, marks[i].student), marks[i]);
        assert Holds(before, b, Seat(lesson, others[j].student), others[j]);
      }
    }
  }

  lemma SameMarksSameNames(marks: seq<Mark>, others: seq<Mark>, student: Id)
    requires forall m :: m in marks <==> m in others
    ensures Names(marks, student) <==> Names(others, student)
  {
    if i :| 0 <= i < |marks| && marks[i].student == student {
      assert marks[i] in others;
    }
    if i :| 0 <= i < |others| && others[i].student == student {
      assert others[i] in marks;
    }
  }

  // ----- Order -----

  /** Balances aside, the student table is untouched. */
  lemma {:induction false} WriteMarksOnlyBalances(db: Db, lesson: Id, marks: seq<Mark>, student: Id)
    requires student in db.students
    ensures var after := WriteMarks(db, lesson, marks).students;
      student in after
      && after[student] == db.students[student].(paidLessonsLeft := after[student].paidLessonsLeft)
  {
    if marks != [] {
      WriteMarksOnlyBalances(db, lesson, marks[..|marks| - 1], student);
    }
  }

  ghost predicate MarksKnown(db: Db, marks: seq<Mark>) {
    forall i :: 0 <= i < |marks| ==> marks[i].student in db.students
  }

  lemma SameRowsSameStudents(db: Db, lesson: Id, marks: seq<Mark>, others: seq<Mark>)
    requires MarksKnown(db, marks) && MarksKnown(db, others)
    requires WriteMarks(db, lesson, marks).register == WriteMarks(db, lesson, others).register
    ensures WriteMarks(db, lesson, marks).students == WriteMarks(db, lesson, others).students
  {
    var a, b := WriteMarks(db, lesson, marks), WriteMarks(db, lesson, others);
    MarksKeepStudents(db, lesson, marks);
    MarksKeepStudents(db, lesson, others);
    forall s <- db.students ensures a.students[s] == b.students[s] {
      WriteMarksBalances(db, lesson, marks, s);
      WriteMarksBalances(db, lesson, others, s);
      WriteMarksOnlyBalances(db, lesson, marks, s);
      WriteMarksOnlyBalances(db, lesson, others, s);
      SameRowsSameCharge(a, b, s);
    }
  }

  /** The loop's result does not depend on the order of the marks. */
  lemma WriteMarksAnyOrder(db: Db, lesson: Id, marks: seq<Mark>, others: seq<Mark>)
    requires OnePerStudent(marks) && OnePerStudent(others) && MarksKnown(db, marks) && MarksKnown(db, others)
    requires forall m :: m in marks <==> m in others
    ensures WriteMarks(db, lesson, marks) == WriteMarks(db, lesson, others)
  {
    var a, b := WriteMarks(db, lesson, marks), WriteMarks(db, lesson, others);
    WriteMarksMarks(db, lesson, marks);
    WriteMarksMarks(db, lesson, others);
    MarkedIsUnique(db.register, a.register, b.register, lesson, marks, others);
    SameRowsSameStudents(db, lesson, marks, others);
    WriteMarksFrame(db, lesson, marks);
    WriteMarksFrame(db, lesson, others);
  }

  lemma EligibleAreKnown(db: Db, me: Id, id: Id, dto: Journal)
    requires Closed(db) && me in db.users && WriteJournal(db, me, id, dto).Ok?
    ensures MarksKnown(db, dto.attendance) && OnePerStudent(dto.attendance)
  {
    forall i | 0 <= i < |dto.attendance| ensures dto.attendance[i].student in db.students {
      EligibleSeat(db, id, dto.attendance[i].student);
    }
  }

  /** Two payloads that list the same marks in different orders are the same request. */
  lemma WriteJournalAnyOrder(db: Db, me: Id, id: Id, dto: Journal, marks: seq<Mark>)
    requires Closed(db) && me in db.users && multiset(marks) == multiset(dto.attendance)
    requires WriteJournal(db, me, id, dto).Ok?
    ensures WriteJournal(db, me, id, dto.(attendance := marks)) == WriteJournal(db, me, id, dto)
  {
    var given := dto.attendance;
    EligibleAreKnown(db, me, id, dto);
    SameMultisetSameMembers(given, marks);
    PermutedOnce(given, marks);
    var eligible := StudentsOf(db, db.lessons[id]);
    forall i | 0 <= i < |marks| ensures marks[i].student in eligible && marks[i].student in db.students {
      assert marks[i] in given;
    }
    WriteMarksAnyOrder(db, id, given, marks);
    StatusAnyOrder(given, marks);
    hide Closed, WriteMarks, StatusFromRegister, FindLesson, StudentsOf, BlankToNull;
  }

  lemma SameMultisetSameMembers(a: seq<Mark>, b: seq<Mark>)
    requires multiset(a) == multiset(b)
    ensures forall m :: m in a <==> m in b
    ensures |a| == |b|
  {
    assert forall m :: m in a <==> m in multiset(a);
    assert forall m :: m in b <==> m in multiset(b);
    assert |multiset(a)| == |multiset(b)|;
  }

  lemma StatusAnyOrder(a: seq<Mark>, b: seq<Mark>)
    requires |a| == |b| && forall m :: m in a <==> m in b
    ensures StatusFromRegister(a) == StatusFromRegister(b)
  {
    if i :| 0 <= i < |a| && Charged(a[i].status) {
      assert a[i] in b;
    }
    if i :| 0 <= i < |b| && Charged(b[i].status) {
      assert b[i] in a;
    }
  }

  lemma PermutedOnce(a: seq<Mark>, b: seq<Mark>)
    requires multiset(a) == multiset(b) && OnePerStudent(a)
    ensures OnePerStudent(b)
  {
    forall i, j | 0 <= i < j < |b| ensures b[i].student != b[j].student {
      if b[i].student == b[j].student {
        assert b[i] in multiset(a) && b[j] in multiset(a);
        assert b[i] in a && b[j] in a;
        var p :| 0 <= p < |a| && a[p] == b[i];
        var q :| 0 <= q < |a| && a[q] == b[j];
        assert p == q;
        Sorting.RepeatsCountTwice(b, i, j);
        Sorting.DistinctCountOnce(a, b[i]);
        assert false;
      }
    }
  }

  // ----- Repetition -----

  lemma SameMarksSameRegister(
    before: map<Seat, Attendance>, once: map<Seat, Attendance>, twice: map<Seat, Attendance>, lesson: Id, marks: seq<Mark>)
    requires Marked(before, once, lesson, marks) && Marked(once, twice, lesson, marks)
    ensures twice == once
  {
    forall k <- twice ensures twice[k] == once[k] {
      if InPayload(lesson, marks, k) {
        var i :| 0 <= i < |marks| && marks[i].student == k.student;
        assert Holds(before, once, Seat(lesson, marks[i].student), marks[i]);
        assert Holds(once, twice, Seat(lesson, marks[i].student), marks[i]);
      }
    }
  }

  /** Writing the same marks again changes nothing, balances included. */
  lemma WriteMarksTwice(db: Db, lesson: Id, marks: seq<Mark>)
    requires OnePerStudent(marks) && MarksKnown(db, marks)
    ensures WriteMarks(WriteMarks(db, lesson, marks), lesson, marks) == WriteMarks(db, lesson, marks)
  {
    var once := WriteMarks(db, lesson, marks);
    var twice := WriteMarks(once, lesson, marks);
    WriteMarksMarks(db, lesson, marks);
    WriteMarksMarks(once, lesson, marks);
    SameMarksSameRegister(db.register, once.register, twice.register, lesson, marks);
    MarksKeepStudents(db, lesson, marks);
    MarksKeepStudents(once, lesson, marks);
    forall s <- once.students ensures twice.students[s] == once.students[s] {
      WriteMarksBalances(once, lesson, marks, s);
      WriteMarksOnlyBalances(once, lesson, marks, s);
      SameRowsSameCharge(once, twice, s);
    }
    WriteMarksFrame(once, lesson, marks);
  }

  /** Replaying a write-up is accepted and changes nothing at all. */
  lemma WriteJournalTwice(db: Db, me: Id, id: Id, dto: Journal)
    requires Sound(db) && me in db.users && WriteJournal(db, me, id, dto).Ok?
    ensures var after := WriteJournal(db, me, id, dto).value;
      me in after.users && WriteJournal(after, me, id, dto) == Ok(after)
  {
    var marks := dto.attendance;
    EligibleAreKnown(db, me, id, dto);
    hide Sound, StudentsOf, OnePerStudent, MarksKnown, Grows;
    WriteMarksFrame(db, id, marks);
    WriteMarksTwice(db, id, marks);
    var after := WriteJournal(db, me, id, dto).value;
    var marked := WriteMarks(db, id, marks);
    assert after == marked.(lessons := marked.lessons[id := after.lessons[id]]);
    LessonRowIsForeign(marked, id, after.lessons[id], id, marks);
    assert after.lessons[id] == Described(db.lessons[id], dto);
    hide Sound, WriteMarks, WriteJournal, Described;
    AcceptedAgain(db, after, me, id, dto);
  }

  lemma AcceptedAgain(db: Db, after: Db, me: Id, id: Id, dto: Journal)
    requires me in db.users && WriteJournal(db, me, id, dto).Ok?
    requires after.users == db.users && after.members == db.members
    requires id in after.lessons && after.lessons[id] == Described(db.lessons[id], dto)
    requires WriteMarks(after, id, dto.attendance) == after
    ensures WriteJournal(after, me, id, dto) == Ok(after)
  {
    hide WriteMarks, StatusFromRegister, BlankToNull;
    assert StudentsOf(after, after.lessons[id]) == StudentsOf(db, db.lessons[id]);
    assert Described(after.lessons[id], dto) == after.lessons[id];
    assert after.lessons[id := after.lessons[id]] == after.lessons;
  }

  /** The loop does not look at the lesson's own row. */
  lemma {:induction false} LessonRowIsForeign(db: Db, id: Id, row: Lesson, lesson: Id, marks: seq<Mark>)
    ensures WriteMarks(db.(lessons := db.lessons[id := row]), lesson, marks)
         == WriteMarks(db, lesson, marks).(lessons := db.lessons[id := row])
    ensures WriteMarks(db, lesson, marks).lessons == db.lessons
  {
    if marks != [] {
      LessonRowIsForeign(db, id, row, lesson, marks[..|marks| - 1]);
    }
  }

  // ----- Whole runs of write-ups -----

  predicate OnlyWriteUps(steps: seq<Step>) {
    forall i :: 0 <= i < |steps| ==> steps[i].Ask? && steps[i].request.AskWriteJournal?
  }

  lemma WriteUpBalances(db: Db, step: Step, student: Id)
    requires Closed(db) && step.Ask? && step.request.AskWriteJournal? && student in db.students
    ensures var after := Next(db, step);
      && student in after.students
      && Balance(after, student) + |ChargedRows(after, student)| == Balance(db, student) + |ChargedRows(db, student)|
  {
    if Exec(db, step).Ok? {
      WriteJournalBalances(db, step.me, step.request.id, step.request.journal, student);
    }
  }

  lemma {:induction false} WriteUpsBalance(db: Db, steps: seq<Step>, student: Id)
    requires Sound(db) && OnlyWriteUps(steps) && student in db.students
    ensures var after := RunFrom(db, steps);
      && student in after.students
      && Balance(after, student) + |ChargedRows(after, student)| == Balance(db, student) + |ChargedRows(db, student)|
  {
    if steps != [] {
      var front, last := steps[..|steps| - 1], steps[|steps| - 1];
      WriteUpsBalance(db, front, student);
      RunFromKeeps(db, front);
      WriteUpBalances(RunFrom(db, front), last, student);
      hide Sound, Next, ChargedRows;
    }
  }

  /** Any two sequences of write-ups that end in the same register give every student the same balance. */
  lemma PathIndependence(db: Db, these: seq<Step>, those: seq<Step>, student: Id)
    requires Sound(db) && OnlyWriteUps(these) && OnlyWriteUps(those) && student in db.students
    requires RunFrom(db, these).register == RunFrom(db, those).register
    ensures student in RunFrom(db, these).students && student in RunFrom(db, those).students
    ensures Balance(RunFrom(db, these), student) == Balance(RunFrom(db, those), student)
  {
    WriteUpsBalance(db, these, student);
    WriteUpsBalance(db, those, student);
    SameRowsSameCharge(RunFrom(db, these), RunFrom(db, those), student);
  }

  // ----- The status a register implies -----

  function RowsOf(db: Db, lesson: Id): set<Seat> {
    set k | k in db.register && k.lesson == lesson
  }

  /** What the whole stored register of a lesson says about it. */
  ghost predicate Happened(db: Db, lesson: Id) {
    exists k :: k in RowsOf(db, lesson) && Charged(db.register[k].status)
  }

  /** Somebody outside the payload is already charged for this lesson. */
  ghost predicate ChargedElsewhere(db: Db, lesson: Id, marks: seq<Mark>) {
    exists k :: k in RowsOf(db, lesson) && Charged(db.register[k].status) && !Names(marks, k.student)
  }

  ghost predicate SomebodyCharged(marks: seq<Mark>) {
    exists i :: 0 <= i < |marks| && Charged(marks[i].status)
  }

  /** Somebody is charged for the lesson after a write-up exactly when the payload charges somebody, or somebody
      outside it was charged already. */
  lemma HappenedAfter(db: Db, after: Db, id: Id, marks: seq<Mark>)
    requires Marked(db.register, after.register, id, marks)
    ensures Happened(after, id) <==> SomebodyCharged(marks) || ChargedElsewhere(db, id, marks)
  {
    if i :| 0 <= i < |marks| && Charged(marks[i].status) {
      assert Holds(db.register, after.register, Seat(id, marks[i].student), marks[i]);
      assert Seat(id, marks[i].student) in RowsOf(after, id);
    }
    if k :| k in RowsOf(db, id) && Charged(db.register[k].status) && !Names(marks, k.student) {
      assert k in RowsOf(after, id);
    }
    if k :| k in RowsOf(after, id) && Charged(after.register[k].status) {
      if Names(marks, k.student) {
        var i :| 0 <= i < |marks| && marks[i].student == k.student;
        assert Holds(db.register, after.register, Seat(id, marks[i].student), marks[i]);
      } else {
        assert k in RowsOf(db, id);
      }
    }
  }

  /** The derived status is COMPLETED or CANCELLED by the payload alone. It agrees with the stored register exactly
      when the payload charges somebody or nobody outside it is charged. */
  lemma DerivedStatusAgrees(db: Db, me: Id, id: Id, dto: Journal)
    requires Closed(db) && me in db.users && WriteJournal(db, me, id, dto).Ok?
    requires dto.status.None? && dto.attendance != []
    ensures var after := WriteJournal(db, me, id, dto).value;
      var status := after.lessons[id].status;
      && status == (if SomebodyCharged(dto.attendance) then Completed else Cancelled)
      && ((status == Completed <==> Happened(after, id))
          <==> SomebodyCharged(dto.attendance) || !ChargedElsewhere(db, id, dto.attendance))
  {
    var after := WriteJournal(db, me, id, dto).value;
    EligibleAreKnown(db, me, id, dto);
    WriteMarksMarks(db, id, dto.attendance);
    hide WriteMarks, Closed, Marked, StudentsOf, FindLesson, Happened, ChargedElsewhere, BlankToNull;
    HappenedAfter(db, after, id, dto.attendance);
  }

  /** On a one-to-one lesson the two can never disagree. */
  lemma DerivedStatusAgreesOneToOne(db: Db, me: Id, id: Id, dto: Journal)
    requires Closed(db) && me in db.users && WriteJournal(db, me, id, dto).Ok?
    requires dto.status.None? && dto.attendance != [] && db.lessons[id].student.Some?
    ensures var after := WriteJournal(db, me, id, dto).value;
      after.lessons[id].status == Completed <==> Happened(after, id)
  {
    DerivedStatusAgrees(db, me, id, dto);
    if k :| k in RowsOf(db, id) && Charged(db.register[k].status) && !Names(dto.attendance, k.student) {
      assert SeatFor(db, k);
      assert dto.attendance[0].student in StudentsOf(db, db.lessons[id]);
    }
  }

  /** A partial write-up can therefore call a lesson cancelled that somebody was charged for: in a group of two, the first
      was present, and the second is then marked excused on their own. */
  lemma PartialWriteUpCanDisagree()
    ensures var dto := Journal(None, None, [Mark(4, AbsentExcused, None)], None);
      var after := Run(Scenes.TAUGHT + [Ask(1, AskWriteJournal(6, dto))]);
      6 in after.lessons && after.lessons[6].status == Cancelled && Happened(after, 6)
  {
    var dto := Journal(None, None, [Mark(4, AbsentExcused, None)], None);
    Scenes.PairIsTaught();
    Scenes.RunOneMore(Scenes.TAUGHT, Ask(1, AskWriteJournal(6, dto)));
    RunIsSound(Scenes.TAUGHT);
    SecondIsAccepted(dto);
    var db := Run(Scenes.TAUGHT);
    NextWriteUp(db, 1, 6, dto);
    hide Run, Sound, WriteJournal, Happened, ChargedElsewhere, SomebodyCharged, Next;
    NobodyHere(dto.attendance);
    ExcusedAlone(db, dto);
  }

  lemma NextWriteUp(db: Db, me: Id, id: Id, dto: Journal)
    requires me in db.users && WriteJournal(db, me, id, dto).Ok?
    ensures Next(db, Ask(me, AskWriteJournal(id, dto))) == WriteJournal(db, me, id, dto).value
  {
  }

  lemma NobodyHere(marks: seq<Mark>)
    requires marks == [Mark(4, AbsentExcused, None)]
    ensures !SomebodyCharged(marks)
  {
  }

  lemma SecondIsAccepted(dto: Journal)
    requires dto == Journal(None, None, [Mark(4, AbsentExcused, None)], None)
    ensures WriteJournal(Scenes.ONE_CHARGED, 1, 6, dto).Ok? && ChargedElsewhere(Scenes.ONE_CHARGED, 6, dto.attendance)
  {
    var db := Scenes.ONE_CHARGED;
    assert Place(5, 4) in db.members;
    assert 4 in StudentsOf(db, db.lessons[6]);
    assert Seat(6, 3) in RowsOf(db, 6) && !Names(dto.attendance, 3);
    assert Charged(db.register[Seat(6, 3)].status);
    hide WriteMarks, StudentsOf, Described;
  }

  lemma ExcusedAlone(db: Db, dto: Journal)
    requires Sound(db) && 1 in db.users && WriteJournal(db, 1, 6, dto).Ok? && ChargedElsewhere(db, 6, dto.attendance)
    requires dto.status.None? && dto.attendance != [] && !SomebodyCharged(dto.attendance)
    ensures var after := WriteJournal(db, 1, 6, dto).value;
      6 in after.lessons && after.lessons[6].status == Cancelled && Happened(after, 6)
  {
    DerivedStatusAgrees(db, 1, 6, dto);
    EligibleAreKnown(db, 1, 6, dto);
    WriteMarksMarks(db, 6, dto.attendance);
    HappenedAfter(db, WriteJournal(db, 1, 6, dto).value, 6, dto.attendance);
    hide WriteMarks, Marked, Happened, ChargedElsewhere;
  }
}

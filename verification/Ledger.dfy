/** The lesson balance as a ledger: what was credited by hand, less what the register charged. */
module Ledger {
  import opened Foundations
  import opened Books
  import opened Text
  import opened Soundness

  /** The register rows a student is charged for. */
  function ChargedRows(db: Db, student: Id): set<Seat> {
    set k | k in db.register && k.student == student && Charged(db.register[k].status)
  }

  function Balance(db: Db, student: Id): int
    requires student in db.students
  {
    db.students[student].paidLessonsLeft
  }

  /** What a request credits a student by hand: the opening balance, or a set counted as new minus old. */
  function HandCredit(db: Db, step: Step, student: Id): int {
    if Exec(db, step).Err? || !step.Ask? then 0
    else
      match step.request
      case AskCreateStudent(dto) => if student == db.nextId then dto.paidLessonsLeft.GetOr(0) else 0
      case AskUpdateStudent(id, dto) =>
        if student == id && dto.paidLessonsLeft.Some? && student in db.students
        then dto.paidLessonsLeft.value - Balance(db, student) else 0
      case _ => 0
  }

  /** The charged rows of a student that go away with a removed group's lessons. */
  function RowsLost(db: Db, group: Id, student: Id): set<Seat> {
    set k | k in ChargedRows(db, student) && k.lesson in LessonsOfGroup(db, group)
  }

  function CascadeLoss(db: Db, step: Step, student: Id): nat {
    if Exec(db, step).Ok? && step.Ask? && step.request.AskRemoveGroup?
    then |RowsLost(db, step.request.id, student)| else 0
  }

  function Credited(steps: seq<Step>, student: Id): int {
    if steps == [] then 0
    else
      var front := steps[..|steps| - 1];
      Credited(front, student) + HandCredit(Run(front), steps[|steps| - 1], student)
  }

  function Lost(steps: seq<Step>, student: Id): int {
    if steps == [] then 0
    else
      var front := steps[..|steps| - 1];
      Lost(front, student) + CascadeLoss(Run(front), steps[|steps| - 1], student)
  }

  // ----- The write-up loop -----

  /** One mark moves its own student's balance by exactly what the register changed, and nobody else's. */
  lemma WriteMarkBalances(db: Db, lesson: Id, mark: Mark, student: Id)
    requires mark.student in db.students && student in db.students
    ensures var after := WriteMark(db, lesson, mark);
      && student in after.students
      && Balance(after, student) + |ChargedRows(after, student)| == Balance(db, student) + |ChargedRows(db, student)|
  {
    MarkRows(db, lesson, mark, student);
    hide ChargedRows, Charged, Written;
  }

  /** One mark adds its own seat to its student's charged rows, takes it away, or leaves them as they are. */
  lemma MarkRows(db: Db, lesson: Id, mark: Mark, student: Id)
    ensures |ChargedRows(WriteMark(db, lesson, mark), student)| - |ChargedRows(db, student)|
         == if student != mark.student || WasCharged(db, Seat(lesson, mark.student)) == Charged(mark.status) then 0
            else if Charged(mark.status) then 1 else -1
  {
    var seat := Seat(lesson, mark.student);
    var before_, after_ := ChargedRows(db, student), ChargedRows(WriteMark(db, lesson, mark), student);
    MarkRowsOf(db, lesson, mark, student);
    hide ChargedRows, WriteMark, WasCharged, Charged;
    OneApart(before_, after_, seat);
  }

  lemma MarkRowsOf(db: Db, lesson: Id, mark: Mark, student: Id)
    ensures var seat := Seat(lesson, mark.student);
      var before_, after_ := ChargedRows(db, student), ChargedRows(WriteMark(db, lesson, mark), student);
      && after_ - {seat} == before_ - {seat}
      && (seat in before_ <==> student == mark.student && WasCharged(db, seat))
      && (seat in after_ <==> student == mark.student && Charged(mark.status))
  {
    hide Settle, Charged;
  }

  lemma OneApart<T>(a: set<T>, b: set<T>, x: T)
    requires a - {x} == b - {x}
    ensures |b| - |a| == (if x in b then 1 else 0) - (if x in a then 1 else 0)
  {
    var rest := a - {x};
    assert a == if x in a then rest + {x} else rest;
    assert b == if x in b then rest + {x} else rest;
  }

  lemma {:induction false} WriteMarksBalances(db: Db, lesson: Id, marks: seq<Mark>, student: Id)
    requires student in db.students && forall i :: 0 <= i < |marks| ==> marks[i].student in db.students
    ensures var after := WriteMarks(db, lesson, marks);
      && student in after.students
      && Balance(after, student) + |ChargedRows(after, student)| == Balance(db, student) + |ChargedRows(db, student)|
  {
    if marks != [] {
      var front := marks[..|marks| - 1];
      WriteMarksBalances(db, lesson, front, student);
      WriteMarksFrame(db, lesson, front);
      WriteMarkBalances(WriteMarks(db, lesson, front), lesson, marks[|marks| - 1], student);
    }
  }

  /** A write-up moves each balance by charged-before minus charged-after. */
  lemma WriteJournalBalances(db: Db, me: Id, id: Id, dto: Journal, student: Id)
    requires Closed(db) && me in db.users && WriteJournal(db, me, id, dto).Ok? && student in db.students
    ensures var after := WriteJournal(db, me, id, dto).value;
      && student in after.students
      && Balance(after, student) - Balance(db, student) == |ChargedRows(db, student)| - |ChargedRows(after, student)|
  {
    forall i | 0 <= i < |dto.attendance| ensures dto.attendance[i].student in db.students {
      EligibleSeat(db, id, dto.attendance[i].student);
    }
    WriteMarksBalances(db, id, dto.attendance, student);
    assert ChargedRows(WriteMarks(db, id, dto.attendance), student)
        == ChargedRows(WriteJournal(db, me, id, dto).value, student);
  }

  // ----- The cascades -----

  /** Removing one student leaves every other student's charged rows where they are. */
  lemma RemoveStudentSparesRows(db: Db, me: Id, id: Id, student: Id)
    requires Closed(db) && me in db.users && RemoveStudent(db, me, id).Ok? && student != id
    ensures ChargedRows(RemoveStudent(db, me, id).value, student) == ChargedRows(db, student)
  {
    forall k <- db.register | k.student == student ensures k.lesson !in LessonsOfStudent(db, id) {
      assert SeatFor(db, k);
    }
  }

  lemma DroppedRows(db: Db, id: Id, student: Id)
    ensures var kept, lost := ChargedRows(DropLessons(db, LessonsOfGroup(db, id)), student), RowsLost(db, id, student);
      kept == ChargedRows(db, student) - lost && |kept| == |ChargedRows(db, student)| - |lost|
  {
    var kept, lost := ChargedRows(DropLessons(db, LessonsOfGroup(db, id)), student), RowsLost(db, id, student);
    assert ChargedRows(db, student) == kept + lost;
  }

  lemma RemoveGroupRows(db: Db, me: Id, id: Id, student: Id)
    requires me in db.users && RemoveGroup(db, me, id).Ok?
    ensures var after := RemoveGroup(db, me, id).value;
      && ChargedRows(after, student) == ChargedRows(db, student) - RowsLost(db, id, student)
      && |ChargedRows(after, student)| == |ChargedRows(db, student)| - |RowsLost(db, id, student)|
  {
    DroppedRows(db, id, student);
    SameRowsSameCharge(DropLessons(db, LessonsOfGroup(db, id)), RemoveGroup(db, me, id).value, student);
    hide ChargedRows, RowsLost;
  }

  // ----- What each request can touch -----

  /** A request that opens no student, closes none, and moves no balance and no register row. */
  ghost predicate LeavesLedger(db: Db, after: Db) {
    && after.register == db.register
    && after.students.Keys == db.students.Keys
    && (forall s <- db.students :: after.students[s].paidLessonsLeft == db.students[s].paidLessonsLeft)
    && db.nextId <= after.nextId
  }

  /** The requests that can touch a balance or a register row. */
  predicate TouchesLedger(request: Request) {
    || request.AskCreateStudent? || request.AskUpdateStudent? || request.AskRemoveStudent?
    || request.AskRemoveGroup? || request.AskWriteJournal?
  }

  lemma GroupsLeaveLedger(db: Db, me: Id, request: Request)
    requires me in db.users && Serve(db, me, request).Ok?
    requires request.AskCreateGroup? || request.AskUpdateGroup?
    ensures LeavesLedger(db, Serve(db, me, request).value)
  {
    hide FindGroup, ResolveSubject, Trim, BlankToNull;
  }

  lemma MembersLeaveLedger(db: Db, me: Id, request: Request)
    requires me in db.users && Serve(db, me, request).Ok?
    requires request.AskAddMember? || request.AskRemoveMember?
    ensures LeavesLedger(db, Serve(db, me, request).value)
  {
    hide FindGroup, FindStudent;
  }

  lemma LessonsLeaveLedger(db: Db, me: Id, request: Request)
    requires me in db.users && Serve(db, me, request).Ok?
    requires request.AskBookLesson? || request.AskSetStatus?
    ensures LeavesLedger(db, Serve(db, me, request).value)
  {
    hide FindGroup, FindStudent, FindLesson, ResolveSubject;
  }

  lemma GradesLeaveLedger(db: Db, me: Id, request: Request)
    requires me in db.users && Serve(db, me, request).Ok?
    requires request.AskGradeStudent? || request.AskGradeInLesson? || request.AskCorrectGrade? || request.AskRemoveGrade?
    ensures LeavesLedger(db, Serve(db, me, request).value)
  {
    hide FindStudent, FindLesson, FindWritableGrade, InScale, ResolveMarked, BlankToNull;
  }

  lemma SubjectsLeaveLedger(db: Db, me: Id, request: Request)
    requires me in db.users && Serve(db, me, request).Ok?
    requires request.AskCreateSubject? || request.AskRenameSubject? || request.AskHideSubject? || request.AskRestoreSubject?
    ensures LeavesLedger(db, Serve(db, me, request).value)
  {
    hide Namesakes, NameTaken, UsageOf, Trim;
  }

  /** Membership, booking, moving a lesson, marking work and the subject list never touch the ledger. */
  lemma OtherRequestsLeaveLedger(db: Db, me: Id, request: Request)
    requires me in db.users && Serve(db, me, request).Ok? && !TouchesLedger(request)
    ensures LeavesLedger(db, Serve(db, me, request).value)
  {
    hide LeavesLedger, Serve;
    if request.AskCreateGroup? || request.AskUpdateGroup? {
      GroupsLeaveLedger(db, me, request);
    } else if request.AskAddMember? || request.AskRemoveMember? {
      MembersLeaveLedger(db, me, request);
    } else if request.AskBookLesson? || request.AskSetStatus? {
      LessonsLeaveLedger(db, me, request);
    } else if request.AskGradeStudent? || request.AskGradeInLesson? || request.AskCorrectGrade? || request.AskRemoveGrade? {
      GradesLeaveLedger(db, me, request);
    } else {
      SubjectsLeaveLedger(db, me, request);
    }
  }

  /** What the five remaining requests do to the student table. */
  lemma LedgerRequestsKeepIds(db: Db, me: Id, request: Request)
    requires me in db.users && Serve(db, me, request).Ok? && TouchesLedger(request)
    ensures var after := Serve(db, me, request).value;
      && db.nextId <= after.nextId
      && after.students.Keys <= db.students.Keys + (if request.AskCreateStudent? then {db.nextId} else {})
  {
    match request
    case AskCreateStudent(dto) => assert Serve(db, me, request) == CreateStudent(db, me, dto);
    case AskUpdateStudent(id, dto) => assert Serve(db, me, request) == UpdateStudent(db, me, id, dto);
    case AskRemoveStudent(id) => assert Serve(db, me, request) == RemoveStudent(db, me, id);
    case AskRemoveGroup(id) => assert Serve(db, me, request) == RemoveGroup(db, me, id);
    case AskWriteJournal(id, dto) =>
      WriteMarksFrame(db, id, dto.attendance);
      MarksKeepStudents(db, id, dto.attendance);
  }

  lemma {:induction false} MarksKeepStudents(db: Db, lesson: Id, marks: seq<Mark>)
    ensures WriteMarks(db, lesson, marks).students.Keys == db.students.Keys
  {
    if marks != [] {
      MarksKeepStudents(db, lesson, marks[..|marks| - 1]);
    }
  }

  lemma SetBalance(db: Db, me: Id, id: Id, dto: StudentPatch, student: Id)
    requires me in db.users && UpdateStudent(db, me, id, dto).Ok? && student in db.students
    ensures var after := UpdateStudent(db, me, id, dto).value;
      && after.register == db.register && student in after.students
      && Balance(after, student)
         == if student == id && dto.paidLessonsLeft.Some? then dto.paidLessonsLeft.value else Balance(db, student)
  {
  }

  lemma OpenBalance(db: Db, me: Id, dto: NewStudent, student: Id)
    requires me in db.users && CreateStudent(db, me, dto).Ok? && db.nextId !in db.students
    requires student in CreateStudent(db, me, dto).value.students
    ensures var after := CreateStudent(db, me, dto).value;
      && after.register == db.register
      && Balance(after, student)
         == if student == db.nextId then dto.paidLessonsLeft.GetOr(0) else Balance(db, student)
  {
  }

  lemma CascadesSpareBalances(db: Db, me: Id, id: Id, student: Id)
    requires me in db.users && student in db.students
    ensures RemoveStudent(db, me, id).Ok? && student != id ==>
              && student in RemoveStudent(db, me, id).value.students
              && Balance(RemoveStudent(db, me, id).value, student) == Balance(db, student)
    ensures RemoveStudent(db, me, id).Ok? ==> id !in RemoveStudent(db, me, id).value.students
    ensures RemoveGroup(db, me, id).Ok? ==> RemoveGroup(db, me, id).value.students == db.students
  {
  }

  // ----- One request -----

  lemma SameRowsSameCharge(db: Db, after: Db, student: Id)
    requires after.register == db.register
    ensures ChargedRows(after, student) == ChargedRows(db, student)
  {
  }

  lemma FreshStudent(db: Db)
    requires Sound(db)
    ensures db.nextId !in db.students
  {
  }

  /** The books balance across any one request, for a student present before and after it. */
  lemma StepBalances(db: Db, step: Step, student: Id)
    requires Sound(db) && student in db.students && student in Next(db, step).students
    ensures var after := Next(db, step);
      Balance(after, student) + |ChargedRows(after, student)| + CascadeLoss(db, step, student)
      == Balance(db, student) + |ChargedRows(db, student)| + HandCredit(db, step, student)
  {
    hide Retired, NamesApart, NamesTrimmed, IdsSpent;
    var after := Next(db, step);
    if Exec(db, step).Ok? && step.Ask? {
      var me, request := step.me, step.request;
      assert after == Serve(db, me, request).value;
      if !TouchesLedger(request) {
        OtherRequestsLeaveLedger(db, me, request);
        SameRowsSameCharge(db, after, student);
        hide Serve;
      } else {
        FreshStudent(db);
        hide Closed, UpdateStudent, CreateStudent, RemoveStudent, RemoveGroup, WriteJournal, ChargedRows, RowsLost;
        match request
        case AskCreateStudent(dto) =>
          OpenBalance(db, me, dto, student);
          SameRowsSameCharge(db, after, student);
        case AskUpdateStudent(id, dto) =>
          SetBalance(db, me, id, dto, student);
          SameRowsSameCharge(db, after, student);
        case AskRemoveStudent(id) =>
          CascadesSpareBalances(db, me, id, student);
          RemoveStudentSparesRows(db, me, id, student);
        case AskRemoveGroup(id) =>
          CascadesSpareBalances(db, me, id, student);
          RemoveGroupRows(db, me, id, student);
        case AskWriteJournal(id, dto) =>
          WriteJournalBalances(db, me, id, dto, student);
      }
    } else {
      SameRowsSameCharge(db, after, student);
    }
  }

  /** Nothing but a write-up and a hand-set balance moves a balance. */
  lemma OnlyTwoRequestsMoveABalance(db: Db, step: Step, student: Id)
    requires Sound(db) && student in db.students && student in Next(db, step).students
    requires !(step.Ask? && (step.request.AskWriteJournal? || step.request.AskUpdateStudent?))
    ensures Balance(Next(db, step), student) == Balance(db, student)
  {
    hide Retired, NamesApart, NamesTrimmed, Closed;
    if Exec(db, step).Ok? && step.Ask? {
      var me, request := step.me, step.request;
      assert Next(db, step) == Serve(db, me, request).value;
      if !TouchesLedger(request) {
        OtherRequestsLeaveLedger(db, me, request);
      } else {
        hide CreateStudent, RemoveStudent, RemoveGroup;
        match request
        case AskCreateStudent(dto) => OpenBalance(db, me, dto, student);
        case AskRemoveStudent(id) => CascadesSpareBalances(db, me, id, student);
        case AskRemoveGroup(id) => CascadesSpareBalances(db, me, id, student);
      }
    }
  }

  lemma NobodyElseAppears(db: Db, step: Step, student: Id)
    requires student !in db.students && student in Next(db, step).students
    ensures step.Ask? && step.request.AskCreateStudent? && student == db.nextId
  {
    if Exec(db, step).Ok? && step.Ask? {
      assert Next(db, step) == Serve(db, step.me, step.request).value;
      if TouchesLedger(step.request) {
        LedgerRequestsKeepIds(db, step.me, step.request);
      } else {
        OtherRequestsLeaveLedger(db, step.me, step.request);
      }
    }
  }

  /** A student who has just come into being starts with what was typed in, and with no register row. */
  lemma StepOpens(db: Db, step: Step, student: Id)
    requires Sound(db) && student !in db.students && student in Next(db, step).students
    ensures student == db.nextId && |ChargedRows(Next(db, step), student)| == 0
    ensures Balance(Next(db, step), student) == HandCredit(db, step, student)
    ensures CascadeLoss(db, step, student) == 0
  {
    NobodyElseAppears(db, step, student);
    OpenBalance(db, step.me, step.request.newStudent, student);
    forall k <- db.register ensures k.student != student { assert SeatFor(db, k); }
    assert ChargedRows(Next(db, step), student) == {};
  }

  // ----- Every run -----

  lemma NextIdGrows(db: Db, step: Step)
    ensures db.nextId <= Next(db, step).nextId
  {
    if Exec(db, step).Ok? && step.Ask? {
      assert Next(db, step) == Serve(db, step.me, step.request).value;
      if TouchesLedger(step.request) {
        LedgerRequestsKeepIds(db, step.me, step.request);
      } else {
        OtherRequestsLeaveLedger(db, step.me, step.request);
      }
    }
  }

  /** Nothing is credited to, or lost by, an id that has not been handed out yet. */
  lemma {:induction false} NothingBeforehand(steps: seq<Step>, student: Id)
    requires student >= Run(steps).nextId
    ensures Credited(steps, student) == 0 && Lost(steps, student) == 0
  {
    if steps != [] {
      var front, last := steps[..|steps| - 1], steps[|steps| - 1];
      var db := Run(front);
      RunIsSound(front);
      NextIdGrows(db, last);
      NothingBeforehand(front, student);
      assert student !in db.students;
      forall k <- db.register ensures k.student != student { assert SeatFor(db, k); }
      assert ChargedRows(db, student) == {};
    }
  }

  /** Conservation, over every run: a balance is everything credited by hand, less the charged rows still in the
      register, less the charged rows that went away with a removed group. */
  lemma {:induction false} LedgerConservation(steps: seq<Step>, student: Id)
    requires student in Run(steps).students
    ensures Balance(Run(steps), student)
         == Credited(steps, student) - |ChargedRows(Run(steps), student)| - Lost(steps, student)
  {
    if steps != [] {
      var front, last := steps[..|steps| - 1], steps[|steps| - 1];
      RunIsSound(front);
      if student in Run(front).students {
        LedgerConservation(front, student);
        StepBalances(Run(front), last, student);
      } else {
        StepOpens(Run(front), last, student);
        NothingBeforehand(front, student);
      }
    }
  }
}

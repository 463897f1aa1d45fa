/** What each accepted request leaves in the tables, column by column, said of the payload and the rows before. */
module Stored {
  import opened Foundations
  import opened Text
  import opened Books
  import opened Soundness
  import Cascades
  import Ledger
  import WriteUps

  /** The name without the blanks around it. */
  ghost predicate NameIs(given: string, stored: string) {
    Trimmed(given, stored, WHITESPACE)
  }

  /** Nothing where nothing but blanks was given, and the text without the blanks around it otherwise. */
  ghost predicate TextIs(given: Option<string>, stored: Option<string>) {
    && (stored.None? <==> given.None? || forall c <- given.value :: c in WHITESPACE)
    && (stored.Some? ==> NameIs(given.value, stored.value))
  }

  lemma TrimIsName(s: string)
    ensures NameIs(s, Trim(s))
  {
    TrimByIs(s, WHITESPACE);
  }

  lemma BlankIsText(given: Option<string>)
    ensures TextIs(given, BlankToNull(given))
  {
  }

  // ----- Accounts -----

  /** A school opens with its grading scale and one account, its admin; anybody else joins a school that is there, in the role and
      under the name given. */
  lemma AccountsAreStored(db: Db, scale: int, school: Id, role: Role, name: string)
    ensures Next(db, Register(scale, name)) == db.(
      schools := db.schools[db.nextId := School(scale)],
      users := db.users[db.nextId + 1 := User(db.nextId, Admin, name)],
      nextId := db.nextId + 2)
    ensures Next(db, Join(school, role, name))
         == if school in db.schools
            then db.(users := db.users[db.nextId := User(school, role, name)], nextId := db.nextId + 1) else db
  {
  }

  // ----- Students -----

  /** One more student: the caller's, in the caller's school, as the payload has it, with no lessons left where it says nothing. */
  ghost predicate StudentAdded(db: Db, after: Db, school: Id, me: Id, dto: NewStudent) {
    && db.nextId in after.students
    && var row := after.students[db.nextId];
    && after == db.(students := db.students[db.nextId := row], nextId := db.nextId + 1)
    && row.school == school && row.tutor == me
    && NameIs(dto.name, row.name) && row.subject == dto.subject
    && row.paidLessonsLeft == if dto.paidLessonsLeft.Some? then dto.paidLessonsLeft.value else 0
  }

  lemma NewStudentIsStored(db: Db, me: Id, dto: NewStudent)
    requires me in db.users && Serve(db, me, AskCreateStudent(dto)).Ok?
    ensures StudentAdded(db, Serve(db, me, AskCreateStudent(dto)).value, db.users[me].school, me, dto)
  {
    TrimIsName(dto.name);
    hide Trim, NameIs;
  }

  /** One student with the columns the patch names; a subject it sends as null is cleared. */
  ghost predicate StudentEdited(db: Db, after: Db, id: Id, patch: StudentPatch) {
    && id in db.students && id in after.students
    && var old_, row := db.students[id], after.students[id];
    && after == db.(students := db.students[id := row])
    && row.school == old_.school && row.tutor == old_.tutor
    && (if patch.name.Some? then NameIs(patch.name.value, row.name) else row.name == old_.name)
    && row.subject == (if patch.subject.Some? then patch.subject.value else old_.subject)
    && row.paidLessonsLeft == if patch.paidLessonsLeft.Some? then patch.paidLessonsLeft.value else old_.paidLessonsLeft
  }

  lemma EditedStudentIsStored(db: Db, me: Id, id: Id, patch: StudentPatch)
    requires me in db.users && Serve(db, me, AskUpdateStudent(id, patch)).Ok?
    ensures StudentEdited(db, Serve(db, me, AskUpdateStudent(id, patch)).value, id, patch)
  {
    if patch.name.Some? { TrimIsName(patch.name.value); }
    hide Trim, NameIs;
  }

  /** The student goes with their one-to-one lessons, places, register rows and marks, and nothing else goes or changes. */
  lemma RemovedStudentIsGone(db: Db, me: Id, id: Id)
    requires Sound(db) && me in db.users && Serve(db, me, AskRemoveStudent(id)).Ok?
    ensures Serve(db, me, AskRemoveStudent(id)).value == db.(
      students := db.students - {id},
      members := (set p | p in db.members && p.student != id),
      lessons := map l | l in db.lessons && db.lessons[l].student != Some(id) :: db.lessons[l],
      register := map k | k in db.register && k.student != id :: db.register[k],
      grades := map g | g in db.grades && db.grades[g].student != id :: db.grades[g])
  {
    assert Serve(db, me, AskRemoveStudent(id)) == RemoveStudent(db, me, id);
    RemovalKeepsTheRest(db, me, id);
    OwnLessonsGo(db, id);
    hide Serve, RemoveStudent, LessonsOfStudent, Closed, Retired, NamesApart, NamesTrimmed, IdsSpent;
    Cascades.RemoveStudentTakesOnlyTheirs(db, me, id);
  }

  lemma OwnLessonsGo(db: Db, id: Id)
    ensures db.lessons - LessonsOfStudent(db, id) == map l | l in db.lessons && db.lessons[l].student != Some(id) :: db.lessons[l]
  {
  }

  lemma RemovalKeepsTheRest(db: Db, me: Id, id: Id)
    requires me in db.users && RemoveStudent(db, me, id).Ok?
    ensures var after := RemoveStudent(db, me, id).value; after.schools == db.schools && after.nextId == db.nextId
  {
    hide FindStudent;
  }

  // ----- Groups -----

  /** One more group: the caller's, in the caller's school, as the payload has it. */
  ghost predicate GroupAdded(db: Db, after: Db, school: Id, me: Id, dto: NewGroup) {
    && db.nextId in after.groups
    && var row := after.groups[db.nextId];
    && after == db.(groups := db.groups[db.nextId := row], nextId := db.nextId + 1)
    && row.school == school && row.tutor == me
    && NameIs(dto.name, row.name) && row.subject == Some(dto.subject) && TextIs(dto.level, row.level)
  }

  lemma NewGroupIsStored(db: Db, me: Id, dto: NewGroup)
    requires me in db.users && Serve(db, me, AskCreateGroup(dto)).Ok?
    ensures GroupAdded(db, Serve(db, me, AskCreateGroup(dto)).value, db.users[me].school, me, dto)
  {
    TrimIsName(dto.name);
    BlankIsText(dto.level);
    hide Trim, NameIs, TextIs;
  }

  /** One group with the columns the patch names. */
  ghost predicate GroupEdited(db: Db, after: Db, id: Id, patch: GroupPatch) {
    && id in db.groups && id in after.groups
    && var old_, row := db.groups[id], after.groups[id];
    && after == db.(groups := db.groups[id := row])
    && row.school == old_.school && row.tutor == old_.tutor
    && (if patch.name.Some? then NameIs(patch.name.value, row.name) else row.name == old_.name)
    && row.subject == (if patch.subject.Some? then patch.subject.value else old_.subject)
    && (if patch.level.Some? then TextIs(patch.level, row.level) else row.level == old_.level)
  }

  lemma EditedGroupIsStored(db: Db, me: Id, id: Id, patch: GroupPatch)
    requires me in db.users && Serve(db, me, AskUpdateGroup(id, patch)).Ok?
    ensures GroupEdited(db, Serve(db, me, AskUpdateGroup(id, patch)).value, id, patch)
  {
    if patch.name.Some? { TrimIsName(patch.name.value); }
    BlankIsText(patch.level);
    hide Trim, NameIs, TextIs;
  }

  /** The group goes with its places, its lessons and their register rows; marks given in them stay, without a lesson. */
  lemma RemovedGroupIsGone(db: Db, me: Id, id: Id)
    requires me in db.users && Serve(db, me, AskRemoveGroup(id)).Ok?
    ensures var after := Serve(db, me, AskRemoveGroup(id)).value;
      && after == db.(
           groups := db.groups - {id},
           members := (set p | p in db.members && p.group != id),
           lessons := map l | l in db.lessons && db.lessons[l].group != Some(id) :: db.lessons[l],
           register := map k | k in db.register && !OfGroup(db, k.lesson, id) :: db.register[k],
           grades := after.grades)
      && after.grades.Keys == db.grades.Keys
      && forall g <- db.grades ::
           var lesson := db.grades[g].lesson;
           after.grades[g]
           == if lesson.Some? && OfGroup(db, lesson.value, id) then db.grades[g].(lesson := None) else db.grades[g]
  {
    var after := Serve(db, me, AskRemoveGroup(id)).value;
    hide FindGroup;
    assert after.members == set p | p in db.members && p.group != id;
    assert after.lessons == map l | l in db.lessons && db.lessons[l].group != Some(id) :: db.lessons[l];
    assert after.register == map k | k in db.register && !OfGroup(db, k.lesson, id) :: db.register[k];
  }

  predicate OfGroup(db: Db, lesson: Id, group: Id) {
    lesson in db.lessons && db.lessons[lesson].group == Some(group)
  }

  lemma PlacesAreStored(db: Db, me: Id, group: Id, student: Id)
    requires me in db.users
    ensures var r := Serve(db, me, AskAddMember(group, student));
      r.Ok? ==> r.value == db.(members := r.value.members)
                && forall p :: p in r.value.members <==> p in db.members || p == Place(group, student)
    ensures var r := Serve(db, me, AskRemoveMember(group, student));
      r.Ok? ==> r.value == db.(members := r.value.members)
                && forall p :: p in r.value.members <==> p in db.members && p != Place(group, student)
  {
    hide FindGroup, FindStudent;
  }

  // ----- Lessons -----

  /** One more lesson: the caller's, scheduled, for whom and when and in what the payload says, with nothing written about it. */
  ghost predicate LessonAdded(db: Db, after: Db, school: Id, me: Id, dto: NewLesson) {
    && db.nextId in after.lessons
    && var row := after.lessons[db.nextId];
    && after == db.(lessons := db.lessons[db.nextId := row], nextId := db.nextId + 1)
    && row.school == school && row.tutor == me
    && row.student == dto.student && row.group == dto.group && row.subject == dto.subject
    && row.startsAt == dto.startsAt && row.minutes == dto.minutes && row.meeting == dto.meeting
    && row.status == Scheduled && row.topic.None? && row.homework.None?
  }

  lemma BookingIsStored(db: Db, me: Id, dto: NewLesson)
    requires me in db.users && Serve(db, me, AskBookLesson(dto)).Ok?
    ensures LessonAdded(db, Serve(db, me, AskBookLesson(dto)).value, db.users[me].school, me, dto)
  {
    hide FindStudent, FindGroup;
  }

  lemma StatusIsStored(db: Db, me: Id, id: Id, status: LessonStatus)
    requires me in db.users && Serve(db, me, AskSetStatus(id, status)).Ok?
    ensures id in db.lessons
    ensures Serve(db, me, AskSetStatus(id, status)).value
         == db.(lessons := db.lessons[id := db.lessons[id].(status := status)])
  {
  }

  // ----- Write-ups -----

  /** Somebody in the payload is charged for the lesson. */
  predicate SomebodyCharged(marks: seq<Mark>) {
    exists i :: 0 <= i < |marks| && marks[i].status in {Present, Late, AbsentUnexcused}
  }

  /** Topic and homework are the payload's where it mentions them; the status is the one stated, whatever the marks say, else
      the one the marks imply, else the old one. Nothing else about any lesson moves. */
  lemma WriteUpIsStored(db: Db, me: Id, id: Id, dto: Journal)
    requires me in db.users && Serve(db, me, AskWriteJournal(id, dto)).Ok?
    ensures var after := Serve(db, me, AskWriteJournal(id, dto)).value;
      && id in db.lessons && id in after.lessons
      && var old_, row := db.lessons[id], after.lessons[id];
      && after == db.(students := after.students, register := after.register, lessons := db.lessons[id := row])
      && row == old_.(topic := row.topic, homework := row.homework, status := row.status)
      && (if dto.topic.Some? then TextIs(dto.topic, row.topic) else row.topic == old_.topic)
      && (if dto.homework.Some? then TextIs(dto.homework, row.homework) else row.homework == old_.homework)
      && row.status
         == (if dto.status.Some? then dto.status.value
             else if dto.attendance == [] then old_.status
             else if SomebodyCharged(dto.attendance) then Completed
             else Cancelled)
  {
    BlankIsText(dto.topic);
    BlankIsText(dto.homework);
    WriteMarksFrame(db, id, dto.attendance);
    StatusIsImplied(dto.attendance);
    hide TextIs, WriteMarks, StudentsOf, FindLesson, OnePerStudent, StatusFromRegister, SomebodyCharged;
    assert FindLesson(db, me, id) == Ok(db.lessons[id]) by { FoundLesson(db, me, id); }
  }

  lemma FoundLesson(db: Db, me: Id, id: Id)
    requires me in db.users && FindLesson(db, me, id).Ok?
    ensures id in db.lessons && FindLesson(db, me, id) == Ok(db.lessons[id])
  {
  }

  lemma StatusIsImplied(marks: seq<Mark>)
    ensures StatusFromRegister(marks)
         == if marks == [] then None else if SomebodyCharged(marks) then Some(Completed) else Some(Cancelled)
  {
    assert forall i :: 0 <= i < |marks| ==> (Charged(marks[i].status) <==> marks[i].status in {Present, Late, AbsentUnexcused});
  }

  /** What a seat costs its student: a lesson, unless they were excused or never marked. */
  function Cost(register: map<Seat, Attendance>, seat: Seat): int {
    if seat in register && register[seat].status in {Present, Late, AbsentUnexcused} then 1 else 0
  }

  /** Each mark is in the register as it was given, a homework check it does not mention staying as it was; no other row of the
      register moves. */
  lemma MarksAreStored(db: Db, me: Id, id: Id, dto: Journal)
    requires me in db.users && Serve(db, me, AskWriteJournal(id, dto)).Ok?
    ensures var after := Serve(db, me, AskWriteJournal(id, dto)).value.register;
      && (forall i :: 0 <= i < |dto.attendance| ==>
            var mark, seat := dto.attendance[i], Seat(id, dto.attendance[i].student);
            && seat in after && after[seat].status == mark.status
            && after[seat].homeworkDone
               == if mark.homeworkDone.Some? then mark.homeworkDone.value
                  else if seat in db.register then db.register[seat].homeworkDone else None)
      && (forall k: Seat :: k.lesson != id || !WriteUps.Names(dto.attendance, k.student) ==>
            (k in after <==> k in db.register) && (k in after ==> after[k] == db.register[k]))
  {
    var marks := dto.attendance;
    WriteUps.WriteMarksMarks(db, id, marks);
    var after := Serve(db, me, AskWriteJournal(id, dto)).value.register;
    assert after == WriteMarks(db, id, marks).register by { hide WriteMarks, StudentsOf, Described; }
    hide Serve, WriteMarks;
    forall i | 0 <= i < |marks|
      ensures WriteUps.Holds(db.register, after, Seat(id, marks[i].student), marks[i])
    {
    }
    hide WriteUps.Names;
  }

  /** A balance falls by what its student's seat at the lesson costs now, and rises by what it cost before; nothing else about any
      student moves. */
  lemma WriteUpIsCharged(db: Db, me: Id, id: Id, dto: Journal, student: Id)
    requires Closed(db) && me in db.users && Serve(db, me, AskWriteJournal(id, dto)).Ok? && student in db.students
    ensures var after := Serve(db, me, AskWriteJournal(id, dto)).value;
      && student in after.students
      && after.students[student] == db.students[student].(
           paidLessonsLeft := db.students[student].paidLessonsLeft
                              + Cost(db.register, Seat(id, student)) - Cost(after.register, Seat(id, student)))
  {
    var marks := dto.attendance;
    var after, marked := Serve(db, me, AskWriteJournal(id, dto)).value, WriteMarks(db, id, marks);
    assert after.students == marked.students && after.register == marked.register by {
      hide WriteMarks, StudentsOf, Described;
    }
    WriteUps.EligibleAreKnown(db, me, id, dto);
    MarksAreStored(db, me, id, dto);
    WriteUps.WriteMarksOnlyBalances(db, id, marks, student);
    Ledger.WriteMarksBalances(db, id, marks, student);
    hide Serve, WriteMarks, Closed;
    SeatsBut(db.register, after.register, id, student);
    RowsCost(db, id, student);
    RowsCost(marked, id, student);
  }

  /** The rows a student is charged for, but the one at the lesson. */
  function Elsewhere(register: map<Seat, Attendance>, lesson: Id, student: Id): set<Seat> {
    set k | k in register && k.student == student && k.lesson != lesson && register[k].status in {Present, Late, AbsentUnexcused}
  }

  lemma SeatsBut(before: map<Seat, Attendance>, after: map<Seat, Attendance>, lesson: Id, student: Id)
    requires forall k: Seat :: k.lesson != lesson ==> (k in after <==> k in before) && (k in after ==> after[k] == before[k])
    ensures Elsewhere(before, lesson, student) == Elsewhere(after, lesson, student)
  {
  }

  lemma RowsCost(db: Db, lesson: Id, student: Id)
    ensures |Ledger.ChargedRows(db, student)|
         == |Elsewhere(db.register, lesson, student)| + Cost(db.register, Seat(lesson, student))
  {
    var seat, rest := Seat(lesson, student), Elsewhere(db.register, lesson, student);
    assert Ledger.ChargedRows(db, student) == if Cost(db.register, seat) == 1 then rest + {seat} else rest;
    assert seat !in rest;
  }

  // ----- Marks -----

  /** The columns of a payload: its kind, its value unless it is in words, its weight or 1, its texts. */
  ghost predicate ColumnsOf(dto: WriteGrade, row: Grade) {
    && row.kind == dto.kind
    && row.value == (if dto.kind.Descriptive? then None else dto.value)
    && row.weight == (if dto.weight.Some? then dto.weight.value else 1)
    && TextIs(dto.category, row.category) && TextIs(dto.comment, row.comment)
  }

  lemma ColumnsAreStored(dto: WriteGrade, student: Id, lesson: Option<Id>, author: Id, createdAt: Time)
    ensures var row := GradeFrom(dto, student, lesson, author, createdAt);
      && ColumnsOf(dto, row)
      && row.student == student && row.lesson == lesson && row.author == author && row.createdAt == createdAt
  {
    BlankIsText(dto.category);
    BlankIsText(dto.comment);
    hide TextIs;
  }

  /** A new mark is the caller's, made now. */
  ghost predicate NewMark(db: Db, after: Db, me: Id, dto: WriteGrade, student: Id, lesson: Option<Id>, now: Time) {
    && db.nextId in after.grades
    && var row := after.grades[db.nextId];
    && after == db.(grades := db.grades[db.nextId := row], nextId := db.nextId + 1)
    && ColumnsOf(dto, row)
    && row.student == student && row.lesson == lesson && row.author == me && row.createdAt == now
  }

  lemma NewGradeIsStored(db: Db, me: Id, student: Id, dto: WriteGrade, now: Time)
    requires me in db.users && Serve(db, me, AskGradeStudent(student, dto, now)).Ok?
    ensures NewMark(db, Serve(db, me, AskGradeStudent(student, dto, now)).value, me, dto, student, None, now)
  {
    ColumnsAreStored(dto, student, None, me, now);
    hide FindStudent, InScale, GradeFrom, ColumnsOf;
  }

  /** It is about the lesson's own student, or the one named. */
  lemma LessonGradeIsStored(db: Db, me: Id, id: Id, dto: WriteGrade, now: Time)
    requires me in db.users && Serve(db, me, AskGradeInLesson(id, dto, now)).Ok?
    ensures id in db.lessons && (db.lessons[id].student.Some? || dto.student.Some?)
    ensures var student := if db.lessons[id].student.Some? then db.lessons[id].student.value else dto.student.value;
      && NewMark(db, Serve(db, me, AskGradeInLesson(id, dto, now)).value, me, dto, student, Some(id), now)
      && (dto.student.Some? ==> dto.student.value == student)
  {
    var lesson := db.lessons[id];
    var student := if lesson.student.Some? then lesson.student.value else dto.student.value;
    ColumnsAreStored(dto, student, Some(id), me, now);
    hide InScale, GradeFrom, StudentsOf, ColumnsOf;
  }

  /** A correction replaces the columns of the payload and no other. */
  lemma CorrectionIsStored(db: Db, me: Id, id: Id, dto: WriteGrade)
    requires me in db.users && Serve(db, me, AskCorrectGrade(id, dto)).Ok?
    ensures var after := Serve(db, me, AskCorrectGrade(id, dto)).value;
      && id in db.grades && id in after.grades
      && var old_, row := db.grades[id], after.grades[id];
      && after == db.(grades := db.grades[id := row])
      && ColumnsOf(dto, row)
      && row.student == old_.student && row.lesson == old_.lesson && row.author == old_.author
      && row.createdAt == old_.createdAt
  {
    var old_ := db.grades[id];
    ColumnsAreStored(dto, old_.student, old_.lesson, old_.author, old_.createdAt);
    hide FindStudent, InScale, GradeFrom, ColumnsOf;
  }

  lemma RemovedGradeIsGone(db: Db, me: Id, id: Id)
    requires me in db.users && Serve(db, me, AskRemoveGrade(id)).Ok?
    ensures id in db.grades && Serve(db, me, AskRemoveGrade(id)).value == db.(grades := db.grades - {id})
  {
    hide FindStudent;
  }

  // ----- Subjects -----

  /** One more subject of the school, on offer. */
  ghost predicate SubjectAdded(db: Db, after: Db, school: Id, name: string) {
    && db.nextId in after.subjects
    && var row := after.subjects[db.nextId];
    && after == db.(subjects := db.subjects[db.nextId := row], nextId := db.nextId + 1)
    && row.school == school && NameIs(name, row.name) && row.hiddenAt.None?
  }

  lemma NewSubjectIsStored(db: Db, me: Id, name: string)
    requires me in db.users && Serve(db, me, AskCreateSubject(name)).Ok?
    ensures SubjectAdded(db, Serve(db, me, AskCreateSubject(name)).value, db.users[me].school, name)
  {
    TrimIsName(name);
    hide Trim, NameIs, Namesakes, NameTaken;
  }

  /** One subject under another name. */
  ghost predicate SubjectRenamed(db: Db, after: Db, id: Id, name: string) {
    && id in db.subjects && id in after.subjects
    && var row := after.subjects[id];
    && after == db.(subjects := db.subjects[id := db.subjects[id].(name := row.name)])
    && NameIs(name, row.name)
  }

  lemma NewNameIsStored(db: Db, me: Id, id: Id, name: string)
    requires me in db.users && Serve(db, me, AskRenameSubject(id, name)).Ok?
    ensures SubjectRenamed(db, Serve(db, me, AskRenameSubject(id, name)).value, id, name)
  {
    TrimIsName(name);
    hide Trim, NameIs, Namesakes, NameTaken;
  }

  /** Hiding stamps a subject on offer with the moment, and leaves one hidden before with its own date; restoring clears it. */
  lemma OfferIsStored(db: Db, me: Id, id: Id, now: Time)
    requires me in db.users && id in db.subjects
    ensures var r, row := Serve(db, me, AskHideSubject(id, now)), db.subjects[id];
      r.Ok? ==> r.value == if row.hiddenAt.Some? then db
                           else db.(subjects := db.subjects[id := row.(hiddenAt := Some(now))])
    ensures var r, row := Serve(db, me, AskRestoreSubject(id)), db.subjects[id];
      r.Ok? ==> r.value == db.(subjects := db.subjects[id := row.(hiddenAt := None)])
  {
    hide UsageOf;
  }
}

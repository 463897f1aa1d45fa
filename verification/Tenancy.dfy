/** Who can touch what: no request reaches over from one school to another, nor a tutor's to what is a colleague's. */
module Tenancy {
  import opened Foundations
  import opened Text
  import opened Books
  import opened Soundness

  // ----- A school's rows -----

  predicate OwnStudent(db: Db, school: Id, id: Id) {
    id in db.students && db.students[id].school == school
  }

  predicate OwnGroup(db: Db, school: Id, id: Id) {
    id in db.groups && db.groups[id].school == school
  }

  predicate OwnSubject(db: Db, school: Id, id: Id) {
    id in db.subjects && db.subjects[id].school == school
  }

  predicate OwnLesson(db: Db, school: Id, id: Id) {
    id in db.lessons && db.lessons[id].school == school
  }

  predicate OwnPlace(db: Db, school: Id, place: Place) {
    place in db.members && OwnGroup(db, school, place.group)
  }

  predicate OwnSeat(db: Db, school: Id, seat: Seat) {
    seat in db.register && OwnLesson(db, school, seat.lesson)
  }

  predicate OwnGrade(db: Db, school: Id, id: Id) {
    id in db.grades && OwnStudent(db, school, db.grades[id].student)
  }

  ghost predicate SameStudents(db: Db, after: Db, school: Id) {
    forall id :: (OwnStudent(db, school, id) <==> OwnStudent(after, school, id))
                 && (OwnStudent(db, school, id) ==> after.students[id] == db.students[id])
  }

  ghost predicate SameGroups(db: Db, after: Db, school: Id) {
    forall id :: (OwnGroup(db, school, id) <==> OwnGroup(after, school, id))
                 && (OwnGroup(db, school, id) ==> after.groups[id] == db.groups[id])
  }

  ghost predicate SameSubjects(db: Db, after: Db, school: Id) {
    forall id :: (OwnSubject(db, school, id) <==> OwnSubject(after, school, id))
                 && (OwnSubject(db, school, id) ==> after.subjects[id] == db.subjects[id])
  }

  ghost predicate SameLessons(db: Db, after: Db, school: Id) {
    forall id :: (OwnLesson(db, school, id) <==> OwnLesson(after, school, id))
                 && (OwnLesson(db, school, id) ==> after.lessons[id] == db.lessons[id])
  }

  ghost predicate SamePlaces(db: Db, after: Db, school: Id) {
    forall p :: OwnPlace(db, school, p) <==> OwnPlace(after, school, p)
  }

  ghost predicate SameSeats(db: Db, after: Db, school: Id) {
    forall k :: (OwnSeat(db, school, k) <==> OwnSeat(after, school, k))
                && (OwnSeat(db, school, k) ==> after.register[k] == db.register[k])
  }

  ghost predicate SameGrades(db: Db, after: Db, school: Id) {
    forall id :: (OwnGrade(db, school, id) <==> OwnGrade(after, school, id))
                 && (OwnGrade(db, school, id) ==> after.grades[id] == db.grades[id])
  }

  /** The school has the same students, groups, subjects, lessons, places, register and marks as before. */
  ghost predicate Untouched(db: Db, after: Db, school: Id) {
    && SameStudents(db, after, school) && SameGroups(db, after, school) && SameSubjects(db, after, school)
    && SameLessons(db, after, school) && SamePlaces(db, after, school) && SameSeats(db, after, school)
    && SameGrades(db, after, school)
  }

  lemma UntouchedTwice(a: Db, b: Db, c: Db, school: Id)
    requires Untouched(a, b, school) && Untouched(b, c, school)
    ensures Untouched(a, c, school)
  {
    hide OwnStudent, OwnGroup, OwnSubject, OwnLesson, OwnPlace, OwnSeat, OwnGrade;
  }

  // ----- A row of another school's put in, or over one of its own -----

  lemma StudentPut(db: Db, after: Db, id: Id, row: Student, school: Id)
    requires after == db.(students := db.students[id := row], nextId := after.nextId)
    requires !OwnStudent(db, school, id) && row.school != school
    ensures Untouched(db, after, school)
  {
  }

  lemma GroupPut(db: Db, after: Db, id: Id, row: Group, school: Id)
    requires after == db.(groups := db.groups[id := row], nextId := after.nextId)
    requires !OwnGroup(db, school, id) && row.school != school
    ensures Untouched(db, after, school)
  {
  }

  lemma SubjectPut(db: Db, after: Db, id: Id, row: Subject, school: Id)
    requires after == db.(subjects := db.subjects[id := row], nextId := after.nextId)
    requires !OwnSubject(db, school, id) && row.school != school
    ensures Untouched(db, after, school)
  {
  }

  lemma LessonPut(db: Db, after: Db, id: Id, row: Lesson, school: Id)
    requires after == db.(lessons := db.lessons[id := row], nextId := after.nextId)
    requires !OwnLesson(db, school, id) && row.school != school
    ensures Untouched(db, after, school)
  {
  }

  lemma GradePut(db: Db, after: Db, id: Id, row: Grade, school: Id)
    requires after == db.(grades := db.grades[id := row], nextId := after.nextId)
    requires !OwnStudent(db, school, row.student) && !OwnGrade(db, school, id)
    ensures Untouched(db, after, school)
  {
  }

  /** The caller is of another school. */
  ghost predicate Outsider(db: Db, me: Id, school: Id) {
    Sound(db) && me in db.users && db.users[me].school != school
  }

  // ----- Each request -----

  lemma CreateStudentElsewhere(db: Db, me: Id, dto: NewStudent, school: Id)
    requires Outsider(db, me, school) && CreateStudent(db, me, dto).Ok?
    ensures Untouched(db, CreateStudent(db, me, dto).value, school)
  {
    FreshId(db, me);
    hide Sound, Untouched, ResolveSubject, Trim;
    var after := CreateStudent(db, me, dto).value;
    StudentPut(db, after, db.nextId, after.students[db.nextId], school);
  }

  lemma UpdateStudentElsewhere(db: Db, me: Id, id: Id, patch: StudentPatch, school: Id)
    requires Outsider(db, me, school) && UpdateStudent(db, me, id, patch).Ok?
    ensures Untouched(db, UpdateStudent(db, me, id, patch).value, school)
  {
    hide Sound, Untouched, ResolveSubject, Trim;
    var after := UpdateStudent(db, me, id, patch).value;
    StudentPut(db, after, id, after.students[id], school);
  }

  lemma CreateGroupElsewhere(db: Db, me: Id, dto: NewGroup, school: Id)
    requires Outsider(db, me, school) && CreateGroup(db, me, dto).Ok?
    ensures Untouched(db, CreateGroup(db, me, dto).value, school)
  {
    FreshId(db, me);
    hide Sound, Untouched, ResolveSubject, Trim, BlankToNull;
    var after := CreateGroup(db, me, dto).value;
    GroupPut(db, after, db.nextId, after.groups[db.nextId], school);
  }

  lemma UpdateGroupElsewhere(db: Db, me: Id, id: Id, patch: GroupPatch, school: Id)
    requires Outsider(db, me, school) && UpdateGroup(db, me, id, patch).Ok?
    ensures Untouched(db, UpdateGroup(db, me, id, patch).value, school)
  {
    hide Sound, Untouched, ResolveSubject, Trim, BlankToNull;
    var after := UpdateGroup(db, me, id, patch).value;
    GroupPut(db, after, id, after.groups[id], school);
  }

  lemma BookLessonElsewhere(db: Db, me: Id, dto: NewLesson, school: Id)
    requires Outsider(db, me, school) && BookLesson(db, me, dto).Ok?
    ensures Untouched(db, BookLesson(db, me, dto).value, school)
  {
    FreshId(db, me);
    hide Sound, Untouched, ResolveSubject, FindGroup, FindStudent;
    var after := BookLesson(db, me, dto).value;
    LessonPut(db, after, db.nextId, after.lessons[db.nextId], school);
  }

  lemma SetLessonStatusElsewhere(db: Db, me: Id, id: Id, status: LessonStatus, school: Id)
    requires Outsider(db, me, school) && SetLessonStatus(db, me, id, status).Ok?
    ensures Untouched(db, SetLessonStatus(db, me, id, status).value, school)
  {
    hide Sound, Untouched;
    var after := SetLessonStatus(db, me, id, status).value;
    LessonPut(db, after, id, after.lessons[id], school);
  }

  lemma CreateSubjectElsewhere(db: Db, me: Id, name: string, school: Id)
    requires Outsider(db, me, school) && CreateSubject(db, me, name).Ok?
    ensures Untouched(db, CreateSubject(db, me, name).value, school)
  {
    FreshId(db, me);
    hide Sound, Untouched, NameTaken, Namesakes, Trim;
    var after := CreateSubject(db, me, name).value;
    SubjectPut(db, after, db.nextId, after.subjects[db.nextId], school);
  }

  lemma RenameSubjectElsewhere(db: Db, me: Id, id: Id, name: string, school: Id)
    requires Outsider(db, me, school) && RenameSubject(db, me, id, name).Ok?
    ensures Untouched(db, RenameSubject(db, me, id, name).value, school)
  {
    hide Sound, Untouched, NameTaken, Namesakes, Trim;
    var after := RenameSubject(db, me, id, name).value;
    SubjectPut(db, after, id, after.subjects[id], school);
  }

  lemma RetireElsewhere(db: Db, me: Id, id: Id, now: Time, school: Id)
    requires Outsider(db, me, school)
    ensures HideSubject(db, me, id, now).Ok? ==> Untouched(db, HideSubject(db, me, id, now).value, school)
    ensures RestoreSubject(db, me, id).Ok? ==> Untouched(db, RestoreSubject(db, me, id).value, school)
  {
    hide Sound, Untouched, UsageOf;
    if FindSubject(db, me, id).Ok? {
      var row := db.subjects[id];
      SubjectPut(db, db.(subjects := db.subjects[id := row.(hiddenAt := Some(now))]), id, row.(hiddenAt := Some(now)), school);
      SubjectPut(db, db.(subjects := db.subjects[id := row.(hiddenAt := None)]), id, row.(hiddenAt := None), school);
      NothingTouched(db, school);
    }
  }

  lemma MembershipElsewhere(db: Db, me: Id, id: Id, student: Id, school: Id)
    requires Outsider(db, me, school)
    ensures AddMember(db, me, id, student).Ok? ==> Untouched(db, AddMember(db, me, id, student).value, school)
    ensures RemoveMember(db, me, id, student).Ok? ==> Untouched(db, RemoveMember(db, me, id, student).value, school)
  {
    hide Sound, FindStudent;
  }

  lemma GradeStudentElsewhere(db: Db, me: Id, id: Id, dto: WriteGrade, now: Time, school: Id)
    requires Outsider(db, me, school) && AddGradeForStudent(db, me, id, dto, now).Ok?
    ensures Untouched(db, AddGradeForStudent(db, me, id, dto, now).value, school)
  {
    FreshId(db, me);
    hide Sound, Untouched, InScale, BlankToNull;
    GradePut(db, AddGradeForStudent(db, me, id, dto, now).value, db.nextId, GradeFrom(dto, id, None, me, now), school);
  }

  lemma CorrectGradeElsewhere(db: Db, me: Id, id: Id, dto: WriteGrade, school: Id)
    requires Outsider(db, me, school) && CorrectGrade(db, me, id, dto).Ok?
    ensures Untouched(db, CorrectGrade(db, me, id, dto).value, school)
  {
    hide Sound, Untouched, InScale, BlankToNull;
    var g := db.grades[id];
    GradePut(db, CorrectGrade(db, me, id, dto).value, id, GradeFrom(dto, g.student, g.lesson, g.author, g.createdAt), school);
  }

  lemma RemoveGradeElsewhere(db: Db, me: Id, id: Id, school: Id)
    requires Outsider(db, me, school) && RemoveGrade(db, me, id).Ok?
    ensures Untouched(db, RemoveGrade(db, me, id).value, school)
  {
    hide Sound;
  }

  /** Everybody a lesson is for is of the lesson's school. */
  lemma RoomIsOwn(db: Db, id: Id, student: Id, school: Id)
    requires Closed(db) && id in db.lessons && student in StudentsOf(db, db.lessons[id]) && db.lessons[id].school != school
    ensures student in db.students && db.students[student].school != school
  {
    EligibleSeat(db, id, student);
  }

  lemma GradeInLessonElsewhere(db: Db, me: Id, id: Id, dto: WriteGrade, now: Time, school: Id)
    requires Outsider(db, me, school) && AddGradeForLesson(db, me, id, dto, now).Ok?
    ensures Untouched(db, AddGradeForLesson(db, me, id, dto, now).value, school)
  {
    var student := ResolveMarked(db, db.lessons[id], dto.student).value;
    RoomIsOwn(db, id, student, school);
    FreshId(db, me);
    hide Sound, Untouched, InScale, BlankToNull, ResolveMarked, StudentsOf;
    GradePut(db, AddGradeForLesson(db, me, id, dto, now).value, db.nextId, GradeFrom(dto, student, Some(id), me, now), school);
  }

  // ----- Removals -----

  /** Lessons of another school go. */
  lemma DropElsewhere(db: Db, doomed: set<Id>, school: Id)
    requires Closed(db) && forall l <- doomed :: l in db.lessons && db.lessons[l].school != school
    ensures Untouched(db, DropLessons(db, doomed), school)
  {
    var after := DropLessons(db, doomed);
    forall g <- db.grades | OwnGrade(db, school, g) ensures Detached(db.grades[g], doomed) == db.grades[g] {
      assert GradeFor(db, db.grades[g]);
    }
    hide Closed, Detached;
    assert SameStudents(db, after, school) && SameGroups(db, after, school) && SameSubjects(db, after, school);
    assert SameLessons(db, after, school) && SamePlaces(db, after, school);
    DropSparesSeats(db, doomed, school);
    DropSparesGrades(db, doomed, school);
    hide SameStudents, SameGroups, SameSubjects, SameLessons, SamePlaces, SameSeats, SameGrades, DropLessons;
  }

  lemma DropSparesSeats(db: Db, doomed: set<Id>, school: Id)
    requires forall l <- doomed :: !OwnLesson(db, school, l)
    ensures SameSeats(db, DropLessons(db, doomed), school)
  {
  }

  lemma DropSparesGrades(db: Db, doomed: set<Id>, school: Id)
    requires forall g <- db.grades :: OwnGrade(db, school, g) ==> Detached(db.grades[g], doomed) == db.grades[g]
    ensures SameGrades(db, DropLessons(db, doomed), school)
  {
    assert forall g <- db.grades :: Detached(db.grades[g], doomed).student == db.grades[g].student;
    hide Detached;
  }

  lemma RemoveStudentElsewhere(db: Db, me: Id, id: Id, school: Id)
    requires Outsider(db, me, school) && RemoveStudent(db, me, id).Ok?
    ensures Untouched(db, RemoveStudent(db, me, id).value, school)
  {
    forall l <- LessonsOfStudent(db, id) ensures db.lessons[l].school != school { assert LessonFor(db, db.lessons[l]); }
    DropElsewhere(db, LessonsOfStudent(db, id), school);
    var rest := DropLessons(db, LessonsOfStudent(db, id));
    DropLessonsKeeps(db, LessonsOfStudent(db, id));
    DropStudentElsewhere(rest, id, school);
    UntouchedTwice(db, rest, DropStudent(rest, id), school);
  }

  lemma DropStudentElsewhere(db: Db, id: Id, school: Id)
    requires Closed(db) && id in db.students && db.students[id].school != school
    ensures Untouched(db, DropStudent(db, id), school)
  {
    forall p | OwnPlace(db, school, p) ensures p.student != id { assert PlaceFor(db, p); }
    forall k | OwnSeat(db, school, k) ensures k.student != id { assert SeatFor(db, k); }
    hide Closed;
    DropSparesOwners(db, id, school);
    DropSparesRows(db, id, school);
    hide DropStudent, SameStudents, SameGroups, SameSubjects, SameLessons, SamePlaces, SameSeats, SameGrades;
  }

  lemma DropSparesOwners(db: Db, id: Id, school: Id)
    requires !OwnStudent(db, school, id)
    ensures var after := DropStudent(db, id);
      && SameStudents(db, after, school) && SameGroups(db, after, school) && SameSubjects(db, after, school)
      && SameLessons(db, after, school) && SameGrades(db, after, school)
  {
  }

  lemma DropSparesRows(db: Db, id: Id, school: Id)
    requires forall p | OwnPlace(db, school, p) :: p.student != id
    requires forall k | OwnSeat(db, school, k) :: k.student != id
    ensures var after := DropStudent(db, id); SamePlaces(db, after, school) && SameSeats(db, after, school)
  {
  }

  lemma RemoveGroupElsewhere(db: Db, me: Id, id: Id, school: Id)
    requires Outsider(db, me, school) && RemoveGroup(db, me, id).Ok?
    ensures Untouched(db, RemoveGroup(db, me, id).value, school)
  {
    forall l <- LessonsOfGroup(db, id) ensures db.lessons[l].school != school { assert LessonFor(db, db.lessons[l]); }
    DropElsewhere(db, LessonsOfGroup(db, id), school);
    var rest := DropLessons(db, LessonsOfGroup(db, id));
    ForgetGroupElsewhere(rest, RemoveGroup(db, me, id).value, id, school);
    UntouchedTwice(db, rest, RemoveGroup(db, me, id).value, school);
  }

  lemma ForgetGroupElsewhere(db: Db, after: Db, id: Id, school: Id)
    requires !OwnGroup(db, school, id)
    requires after == db.(groups := db.groups - {id}, members := (set p | p in db.members && p.group != id))
    ensures Untouched(db, after, school)
  {
  }

  // ----- Write-ups -----

  lemma WriteMarkElsewhere(db: Db, lesson: Id, mark: Mark, school: Id)
    requires !OwnLesson(db, school, lesson) && !OwnStudent(db, school, mark.student)
    ensures Untouched(db, WriteMark(db, lesson, mark), school)
  {
    hide WasCharged, Charged, Written;
  }

  lemma {:induction false} WriteMarksElsewhere(db: Db, lesson: Id, marks: seq<Mark>, school: Id)
    requires !OwnLesson(db, school, lesson)
    requires forall i :: 0 <= i < |marks| ==> !OwnStudent(db, school, marks[i].student)
    ensures Untouched(db, WriteMarks(db, lesson, marks), school)
  {
    if marks != [] {
      var front, last := marks[..|marks| - 1], marks[|marks| - 1];
      WriteMarksElsewhere(db, lesson, front, school);
      var middle := WriteMarks(db, lesson, front);
      WriteMarkElsewhere(middle, lesson, last, school);
      UntouchedTwice(db, middle, WriteMark(middle, lesson, last), school);
      hide Untouched;
    }
  }

  lemma WriteJournalElsewhere(db: Db, me: Id, id: Id, dto: Journal, school: Id)
    requires Outsider(db, me, school) && WriteJournal(db, me, id, dto).Ok?
    ensures Untouched(db, WriteJournal(db, me, id, dto).value, school)
  {
    var marks := dto.attendance;
    forall i | 0 <= i < |marks| ensures !OwnStudent(db, school, marks[i].student) {
      RoomIsOwn(db, id, marks[i].student, school);
    }
    hide Sound, StudentsOf, Untouched, WriteMarks, Described, OwnStudent, OnePerStudent, Grows;
    WriteMarksElsewhere(db, id, marks, school);
    RowIsOwn(db, me, id, dto);
    var marked, after := WriteMarks(db, id, marks), WriteJournal(db, me, id, dto).value;
    hide WriteJournal;
    LessonPut(marked, after, id, after.lessons[id], school);
    UntouchedTwice(db, marked, after, school);
  }

  /** After the loop a write-up rewrites the lesson's own row, which stays in the caller's school. */
  lemma RowIsOwn(db: Db, me: Id, id: Id, dto: Journal)
    requires me in db.users && WriteJournal(db, me, id, dto).Ok?
    ensures id in db.lessons && db.lessons[id].school == db.users[me].school
    ensures var marked, after := WriteMarks(db, id, dto.attendance), WriteJournal(db, me, id, dto).value;
      && marked.lessons == db.lessons && id in after.lessons && after.lessons[id].school == db.users[me].school
      && after == marked.(lessons := marked.lessons[id := after.lessons[id]])
  {
    WriteMarksFrame(db, id, dto.attendance);
    hide WriteMarks, StudentsOf, OnePerStudent, Grows, StatusFromRegister, BlankToNull;
  }

  // ----- Any request, and any run of them -----

  lemma ServeElsewhere(db: Db, me: Id, request: Request, school: Id)
    requires Outsider(db, me, school) && Serve(db, me, request).Ok?
    ensures Untouched(db, Serve(db, me, request).value, school)
  {
    hide Outsider, Untouched, CreateStudent, UpdateStudent, RemoveStudent, CreateGroup, UpdateGroup, RemoveGroup, AddMember, RemoveMember,
      BookLesson, SetLessonStatus, WriteJournal, AddGradeForStudent, AddGradeForLesson, CorrectGrade, RemoveGrade,
      CreateSubject, RenameSubject, HideSubject, RestoreSubject;
    match request
    case AskCreateStudent(dto) => CreateStudentElsewhere(db, me, dto, school);
    case AskUpdateStudent(id, patch) => UpdateStudentElsewhere(db, me, id, patch, school);
    case AskRemoveStudent(id) => RemoveStudentElsewhere(db, me, id, school);
    case AskCreateGroup(dto) => CreateGroupElsewhere(db, me, dto, school);
    case AskUpdateGroup(id, patch) => UpdateGroupElsewhere(db, me, id, patch, school);
    case AskRemoveGroup(id) => RemoveGroupElsewhere(db, me, id, school);
    case AskAddMember(id, student) => MembershipElsewhere(db, me, id, student, school);
    case AskRemoveMember(id, student) => MembershipElsewhere(db, me, id, student, school);
    case AskBookLesson(dto) => BookLessonElsewhere(db, me, dto, school);
    case AskSetStatus(id, status) => SetLessonStatusElsewhere(db, me, id, status, school);
    case AskWriteJournal(id, dto) => WriteJournalElsewhere(db, me, id, dto, school);
    case AskGradeStudent(id, dto, now) => GradeStudentElsewhere(db, me, id, dto, now, school);
    case AskGradeInLesson(id, dto, now) => GradeInLessonElsewhere(db, me, id, dto, now, school);
    case AskCorrectGrade(id, dto) => CorrectGradeElsewhere(db, me, id, dto, school);
    case AskRemoveGrade(id) => RemoveGradeElsewhere(db, me, id, school);
    case AskCreateSubject(name) => CreateSubjectElsewhere(db, me, name, school);
    case AskRenameSubject(id, name) => RenameSubjectElsewhere(db, me, id, name, school);
    case AskHideSubject(id, now) => RetireElsewhere(db, me, id, now, school);
    case AskRestoreSubject(id) => RetireElsewhere(db, me, id, 0, school);
  }

  /** The step is not a request of one of the school's own people. */
  predicate FromOutside(db: Db, step: Step, school: Id) {
    step.Ask? && step.me in db.users ==> db.users[step.me].school != school
  }

  lemma NextElsewhere(db: Db, step: Step, school: Id)
    requires Sound(db) && FromOutside(db, step, school)
    ensures Untouched(db, Next(db, step), school)
  {
    hide Sound, Serve, Untouched;
    NothingTouched(db, school);
    if Exec(db, step).Ok? {
      if step.Ask? {
        ServeElsewhere(db, step.me, step.request, school);
      } else {
        AccountsTouchNothing(db, step, school);
      }
    }
  }

  lemma AccountsTouchNothing(db: Db, step: Step, school: Id)
    requires !step.Ask?
    ensures Untouched(db, Next(db, step), school)
  {
  }

  /** However many requests other schools make, a school's students, groups, subjects, lessons, register and marks stay
      exactly as they were. */
  lemma {:induction false} OtherSchoolsCannotTouch(db: Db, steps: seq<Step>, school: Id)
    requires Sound(db) && forall n :: 0 <= n < |steps| ==> FromOutside(RunFrom(db, steps[..n]), steps[n], school)
    ensures Untouched(db, RunFrom(db, steps), school)
  {
    if steps == [] {
      NothingTouched(db, school);
    } else {
      var front, last := steps[..|steps| - 1], steps[|steps| - 1];
      forall n | 0 <= n < |front| ensures FromOutside(RunFrom(db, front[..n]), front[n], school) {
        assert front[..n] == steps[..n];
      }
      OtherSchoolsCannotTouch(db, front, school);
      RunFromKeeps(db, front);
      NextElsewhere(RunFrom(db, front), last, school);
      UntouchedTwice(db, RunFrom(db, front), RunFrom(db, steps), school);
      hide Sound, Untouched, Next;
    }
  }

  lemma NothingTouched(db: Db, school: Id)
    ensures Untouched(db, db, school)
  {
  }

  // ----- A tutor among colleagues -----

  predicate PupilOf(db: Db, tutor: Id, student: Id) {
    student in db.students && db.students[student].tutor == tutor
  }

  predicate GroupOfTutor(db: Db, tutor: Id, group: Id) {
    group in db.groups && db.groups[group].tutor == tutor
  }

  /** A tutor's lesson with a student or a group of their own. */
  predicate LessonOfTutor(db: Db, tutor: Id, lesson: Id) {
    && lesson in db.lessons && db.lessons[lesson].tutor == tutor
    && (db.lessons[lesson].student.Some? ==> PupilOf(db, tutor, db.lessons[lesson].student.value))
    && (db.lessons[lesson].group.Some? ==> GroupOfTutor(db, tutor, db.lessons[lesson].group.value))
  }

  /** A mark a tutor gave to a student of their own. */
  predicate GradeOfTutor(db: Db, tutor: Id, grade: Id) {
    grade in db.grades && db.grades[grade].author == tutor && PupilOf(db, tutor, db.grades[grade].student)
  }

  ghost predicate StudentsKept(db: Db, after: Db, t: Id) {
    forall s :: PupilOf(db, t, s) ==>
      s in after.students && after.students[s] == db.students[s].(paidLessonsLeft := after.students[s].paidLessonsLeft)
  }

  ghost predicate GroupsKept(db: Db, after: Db, t: Id) {
    forall g :: GroupOfTutor(db, t, g) ==> g in after.groups && after.groups[g] == db.groups[g]
  }

  ghost predicate LessonsKept(db: Db, after: Db, t: Id) {
    forall l :: LessonOfTutor(db, t, l) ==> l in after.lessons && after.lessons[l] == db.lessons[l]
  }

  ghost predicate PlacesKept(db: Db, after: Db, t: Id) {
    forall p: Place :: GroupOfTutor(db, t, p.group) && PupilOf(db, t, p.student) ==> (p in db.members <==> p in after.members)
  }

  ghost predicate SeatsKept(db: Db, after: Db, t: Id) {
    forall k: Seat :: LessonOfTutor(db, t, k.lesson) && PupilOf(db, t, k.student) ==>
      && (k in db.register <==> k in after.register)
      && (k in db.register ==> after.register[k] == db.register[k])
  }

  ghost predicate GradesKept(db: Db, after: Db, t: Id) {
    forall g :: GradeOfTutor(db, t, g) ==>
      && g in after.grades && after.grades[g] == db.grades[g].(lesson := after.grades[g].lesson)
      && (db.grades[g].lesson.Some? && LessonOfTutor(db, t, db.grades[g].lesson.value) ==> after.grades[g] == db.grades[g])
  }

  /** A tutor's students are as they were up to the balance; and their groups, their lessons with students and groups of
      their own, the places and register rows of their students in those, and the marks they gave to their students are
      exactly as they were, a mark's lesson aside where that was not one of these. */
  ghost predicate ColleagueKept(db: Db, after: Db, t: Id) {
    && StudentsKept(db, after, t) && GroupsKept(db, after, t) && LessonsKept(db, after, t)
    && PlacesKept(db, after, t) && SeatsKept(db, after, t) && GradesKept(db, after, t)
  }

  lemma KeptTwice(a: Db, b: Db, c: Db, t: Id)
    requires ColleagueKept(a, b, t) && ColleagueKept(b, c, t)
    ensures ColleagueKept(a, c, t)
  {
    forall s | PupilOf(a, t, s) ensures PupilOf(b, t, s) { }
    forall g | GroupOfTutor(a, t, g) ensures GroupOfTutor(b, t, g) { }
    forall l | LessonOfTutor(a, t, l) ensures LessonOfTutor(b, t, l) { }
    forall g | GradeOfTutor(a, t, g) ensures GradeOfTutor(b, t, g) { }
    hide PupilOf, GroupOfTutor, LessonOfTutor, GradeOfTutor;
  }

  lemma NothingLost(db: Db, t: Id)
    ensures ColleagueKept(db, db, t)
  {
  }

  /** The caller is another tutor, and no admin. */
  ghost predicate Colleague(db: Db, me: Id, t: Id) {
    Sound(db) && me in db.users && db.users[me].role == Tutor && me != t
  }

  lemma PutStudentKept(db: Db, after: Db, id: Id, row: Student, t: Id)
    requires after == db.(students := db.students[id := row], nextId := after.nextId)
    requires !PupilOf(db, t, id)
    ensures ColleagueKept(db, after, t)
  {
  }

  lemma PutGroupKept(db: Db, after: Db, id: Id, row: Group, t: Id)
    requires after == db.(groups := db.groups[id := row], nextId := after.nextId) && !GroupOfTutor(db, t, id)
    ensures ColleagueKept(db, after, t)
  {
  }

  lemma PutLessonKept(db: Db, after: Db, id: Id, row: Lesson, t: Id)
    requires after == db.(lessons := db.lessons[id := row], nextId := after.nextId) && !LessonOfTutor(db, t, id)
    ensures ColleagueKept(db, after, t)
  {
  }

  lemma PutGradeKept(db: Db, after: Db, id: Id, row: Grade, t: Id)
    requires after == db.(grades := db.grades[id := row], nextId := after.nextId) && !GradeOfTutor(db, t, id)
    ensures ColleagueKept(db, after, t)
  {
  }

  lemma OtherTablesKept(db: Db, after: Db, t: Id)
    requires after.students == db.students && after.groups == db.groups && after.lessons == db.lessons
    requires after.members == db.members && after.register == db.register && after.grades == db.grades
    ensures ColleagueKept(db, after, t)
  {
  }

  lemma CreateStudentKeepsColleagues(db: Db, me: Id, dto: NewStudent, t: Id)
    requires Colleague(db, me, t) && CreateStudent(db, me, dto).Ok?
    ensures ColleagueKept(db, CreateStudent(db, me, dto).value, t)
  {
    FreshId(db, me);
    hide Sound, ColleagueKept, ResolveSubject, Trim;
    var after := CreateStudent(db, me, dto).value;
    PutStudentKept(db, after, db.nextId, after.students[db.nextId], t);
  }

  lemma UpdateStudentKeepsColleagues(db: Db, me: Id, id: Id, patch: StudentPatch, t: Id)
    requires Colleague(db, me, t) && UpdateStudent(db, me, id, patch).Ok?
    ensures ColleagueKept(db, UpdateStudent(db, me, id, patch).value, t)
  {
    hide Sound, ColleagueKept, ResolveSubject, Trim;
    var after := UpdateStudent(db, me, id, patch).value;
    PutStudentKept(db, after, id, after.students[id], t);
  }

  lemma CreateGroupKeepsColleagues(db: Db, me: Id, dto: NewGroup, t: Id)
    requires Colleague(db, me, t) && CreateGroup(db, me, dto).Ok?
    ensures ColleagueKept(db, CreateGroup(db, me, dto).value, t)
  {
    FreshId(db, me);
    hide Sound, ColleagueKept, ResolveSubject, Trim, BlankToNull;
    var after := CreateGroup(db, me, dto).value;
    PutGroupKept(db, after, db.nextId, after.groups[db.nextId], t);
  }

  lemma UpdateGroupKeepsColleagues(db: Db, me: Id, id: Id, patch: GroupPatch, t: Id)
    requires Colleague(db, me, t) && UpdateGroup(db, me, id, patch).Ok?
    ensures ColleagueKept(db, UpdateGroup(db, me, id, patch).value, t)
  {
    hide Sound, ColleagueKept, ResolveSubject, Trim, BlankToNull;
    var after := UpdateGroup(db, me, id, patch).value;
    PutGroupKept(db, after, id, after.groups[id], t);
  }

  lemma BookLessonKeepsColleagues(db: Db, me: Id, dto: NewLesson, t: Id)
    requires Colleague(db, me, t) && BookLesson(db, me, dto).Ok?
    ensures ColleagueKept(db, BookLesson(db, me, dto).value, t)
  {
    FreshId(db, me);
    hide Sound, ColleagueKept, ResolveSubject, FindGroup, FindStudent;
    var after := BookLesson(db, me, dto).value;
    PutLessonKept(db, after, db.nextId, after.lessons[db.nextId], t);
  }

  lemma SetLessonStatusKeepsColleagues(db: Db, me: Id, id: Id, status: LessonStatus, t: Id)
    requires Colleague(db, me, t) && SetLessonStatus(db, me, id, status).Ok?
    ensures ColleagueKept(db, SetLessonStatus(db, me, id, status).value, t)
  {
    hide Sound, ColleagueKept;
    var after := SetLessonStatus(db, me, id, status).value;
    PutLessonKept(db, after, id, after.lessons[id], t);
  }

  lemma GradeStudentKeepsColleagues(db: Db, me: Id, id: Id, dto: WriteGrade, now: Time, t: Id)
    requires Colleague(db, me, t) && AddGradeForStudent(db, me, id, dto, now).Ok?
    ensures ColleagueKept(db, AddGradeForStudent(db, me, id, dto, now).value, t)
  {
    FreshId(db, me);
    hide Sound, ColleagueKept, InScale, BlankToNull, FindStudent;
    var after := AddGradeForStudent(db, me, id, dto, now).value;
    PutGradeKept(db, after, db.nextId, after.grades[db.nextId], t);
  }

  lemma GradeInLessonKeepsColleagues(db: Db, me: Id, id: Id, dto: WriteGrade, now: Time, t: Id)
    requires Colleague(db, me, t) && AddGradeForLesson(db, me, id, dto, now).Ok?
    ensures ColleagueKept(db, AddGradeForLesson(db, me, id, dto, now).value, t)
  {
    FreshId(db, me);
    hide Sound, ColleagueKept, InScale, BlankToNull, ResolveMarked, FindLesson;
    var after := AddGradeForLesson(db, me, id, dto, now).value;
    PutGradeKept(db, after, db.nextId, after.grades[db.nextId], t);
  }

  lemma CorrectGradeKeepsColleagues(db: Db, me: Id, id: Id, dto: WriteGrade, t: Id)
    requires Colleague(db, me, t) && CorrectGrade(db, me, id, dto).Ok?
    ensures ColleagueKept(db, CorrectGrade(db, me, id, dto).value, t)
  {
    hide Sound, ColleagueKept, InScale, BlankToNull;
    var after := CorrectGrade(db, me, id, dto).value;
    PutGradeKept(db, after, id, after.grades[id], t);
  }

  lemma RemoveGradeKeepsColleagues(db: Db, me: Id, id: Id, t: Id)
    requires Colleague(db, me, t) && RemoveGrade(db, me, id).Ok?
    ensures ColleagueKept(db, RemoveGrade(db, me, id).value, t)
  {
    hide Sound;
  }

  lemma MembershipKeepsColleagues(db: Db, me: Id, id: Id, student: Id, t: Id)
    requires Colleague(db, me, t)
    ensures AddMember(db, me, id, student).Ok? ==> ColleagueKept(db, AddMember(db, me, id, student).value, t)
    ensures RemoveMember(db, me, id, student).Ok? ==> ColleagueKept(db, RemoveMember(db, me, id, student).value, t)
  {
    hide Sound, FindStudent;
  }

  /** Lessons that are not the tutor's own with their own go. */
  lemma DropKeepsColleagues(db: Db, doomed: set<Id>, t: Id)
    requires forall l <- doomed :: !LessonOfTutor(db, t, l)
    ensures ColleagueKept(db, DropLessons(db, doomed), t)
  {
  }

  lemma RemoveStudentKeepsColleagues(db: Db, me: Id, id: Id, t: Id)
    requires Colleague(db, me, t) && RemoveStudent(db, me, id).Ok?
    ensures ColleagueKept(db, RemoveStudent(db, me, id).value, t)
  {
    hide Sound;
    var rest := DropLessons(db, LessonsOfStudent(db, id));
    DropKeepsColleagues(db, LessonsOfStudent(db, id), t);
    DropStudentKeepsColleagues(rest, id, t);
    KeptTwice(db, rest, DropStudent(rest, id), t);
    hide ColleagueKept;
  }

  lemma DropStudentKeepsColleagues(db: Db, id: Id, t: Id)
    requires !PupilOf(db, t, id)
    ensures ColleagueKept(db, DropStudent(db, id), t)
  {
  }

  lemma RemoveGroupKeepsColleagues(db: Db, me: Id, id: Id, t: Id)
    requires Colleague(db, me, t) && RemoveGroup(db, me, id).Ok?
    ensures ColleagueKept(db, RemoveGroup(db, me, id).value, t)
  {
    hide Sound;
    var rest := DropLessons(db, LessonsOfGroup(db, id));
    DropKeepsColleagues(db, LessonsOfGroup(db, id), t);
    ForgetGroupKeepsColleagues(rest, RemoveGroup(db, me, id).value, id, t);
    KeptTwice(db, rest, RemoveGroup(db, me, id).value, t);
    hide ColleagueKept;
  }

  lemma ForgetGroupKeepsColleagues(db: Db, after: Db, id: Id, t: Id)
    requires !GroupOfTutor(db, t, id)
    requires after == db.(groups := db.groups - {id}, members := (set p | p in db.members && p.group != id))
    ensures ColleagueKept(db, after, t)
  {
  }

  lemma WriteMarkKeepsColleagues(db: Db, lesson: Id, mark: Mark, t: Id)
    requires !LessonOfTutor(db, t, lesson)
    ensures ColleagueKept(db, WriteMark(db, lesson, mark), t)
  {
    hide WasCharged, Charged, Written;
  }

  lemma {:induction false} WriteMarksKeepColleagues(db: Db, lesson: Id, marks: seq<Mark>, t: Id)
    requires lesson in db.lessons && db.lessons[lesson].tutor != t
    ensures ColleagueKept(db, WriteMarks(db, lesson, marks), t)
  {
    if marks == [] {
      NothingLost(db, t);
    } else {
      var front, last := marks[..|marks| - 1], marks[|marks| - 1];
      WriteMarksKeepColleagues(db, lesson, front, t);
      WriteMarksFrame(db, lesson, front);
      var middle := WriteMarks(db, lesson, front);
      WriteMarkKeepsColleagues(middle, lesson, last, t);
      KeptTwice(db, middle, WriteMark(middle, lesson, last), t);
      hide ColleagueKept, Grows;
    }
  }

  lemma WriteJournalKeepsColleagues(db: Db, me: Id, id: Id, dto: Journal, t: Id)
    requires Colleague(db, me, t) && WriteJournal(db, me, id, dto).Ok?
    ensures ColleagueKept(db, WriteJournal(db, me, id, dto).value, t)
  {
    WriteMarksKeepColleagues(db, id, dto.attendance, t);
    WriteMarksFrame(db, id, dto.attendance);
    hide Sound, ColleagueKept, WriteMarks, StudentsOf, Described, OnePerStudent, Grows;
    var marked, after := WriteMarks(db, id, dto.attendance), WriteJournal(db, me, id, dto).value;
    PutLessonKept(marked, after, id, after.lessons[id], t);
    KeptTwice(db, marked, after, t);
  }

  lemma SubjectNamesKeepColleagues(db: Db, me: Id, id: Id, name: string, t: Id)
    requires me in db.users
    ensures CreateSubject(db, me, name).Ok? ==> ColleagueKept(db, CreateSubject(db, me, name).value, t)
    ensures RenameSubject(db, me, id, name).Ok? ==> ColleagueKept(db, RenameSubject(db, me, id, name).value, t)
  {
    hide NameTaken, Namesakes, Trim, ColleagueKept;
    if CreateSubject(db, me, name).Ok? { OtherTablesKept(db, CreateSubject(db, me, name).value, t); }
    if RenameSubject(db, me, id, name).Ok? { OtherTablesKept(db, RenameSubject(db, me, id, name).value, t); }
  }

  lemma RetiringKeepsColleagues(db: Db, me: Id, id: Id, now: Time, t: Id)
    requires me in db.users
    ensures HideSubject(db, me, id, now).Ok? ==> ColleagueKept(db, HideSubject(db, me, id, now).value, t)
    ensures RestoreSubject(db, me, id).Ok? ==> ColleagueKept(db, RestoreSubject(db, me, id).value, t)
  {
    hide UsageOf, ColleagueKept;
    if HideSubject(db, me, id, now).Ok? { OtherTablesKept(db, HideSubject(db, me, id, now).value, t); }
    if RestoreSubject(db, me, id).Ok? { OtherTablesKept(db, RestoreSubject(db, me, id).value, t); }
  }

  lemma PeopleRequestsKeepColleagues(db: Db, me: Id, request: Request, t: Id)
    requires Colleague(db, me, t) && me in db.users && Serve(db, me, request).Ok?
    requires request.AskCreateStudent? || request.AskUpdateStudent? || request.AskRemoveStudent? || request.AskCreateGroup?
             || request.AskUpdateGroup? || request.AskRemoveGroup? || request.AskAddMember? || request.AskRemoveMember?
    ensures ColleagueKept(db, Serve(db, me, request).value, t)
  {
    hide Colleague, ColleagueKept, CreateStudent, UpdateStudent, RemoveStudent, CreateGroup, UpdateGroup, RemoveGroup,
      AddMember, RemoveMember;
    match request
    case AskCreateStudent(dto) => CreateStudentKeepsColleagues(db, me, dto, t);
    case AskUpdateStudent(id, patch) => UpdateStudentKeepsColleagues(db, me, id, patch, t);
    case AskRemoveStudent(id) => RemoveStudentKeepsColleagues(db, me, id, t);
    case AskCreateGroup(dto) => CreateGroupKeepsColleagues(db, me, dto, t);
    case AskUpdateGroup(id, patch) => UpdateGroupKeepsColleagues(db, me, id, patch, t);
    case AskRemoveGroup(id) => RemoveGroupKeepsColleagues(db, me, id, t);
    case AskAddMember(id, student) => MembershipKeepsColleagues(db, me, id, student, t);
    case AskRemoveMember(id, student) => MembershipKeepsColleagues(db, me, id, student, t);
  }

  lemma LessonRequestsKeepColleagues(db: Db, me: Id, request: Request, t: Id)
    requires Colleague(db, me, t) && me in db.users && Serve(db, me, request).Ok?
    requires request.AskBookLesson? || request.AskSetStatus? || request.AskWriteJournal? || request.AskGradeStudent?
             || request.AskGradeInLesson? || request.AskCorrectGrade? || request.AskRemoveGrade?
    ensures ColleagueKept(db, Serve(db, me, request).value, t)
  {
    hide Colleague, ColleagueKept, BookLesson, SetLessonStatus, WriteJournal, AddGradeForStudent, AddGradeForLesson,
      CorrectGrade, RemoveGrade;
    match request
    case AskBookLesson(dto) => BookLessonKeepsColleagues(db, me, dto, t);
    case AskSetStatus(id, status) => SetLessonStatusKeepsColleagues(db, me, id, status, t);
    case AskWriteJournal(id, dto) => WriteJournalKeepsColleagues(db, me, id, dto, t);
    case AskGradeStudent(id, dto, now) => GradeStudentKeepsColleagues(db, me, id, dto, now, t);
    case AskGradeInLesson(id, dto, now) => GradeInLessonKeepsColleagues(db, me, id, dto, now, t);
    case AskCorrectGrade(id, dto) => CorrectGradeKeepsColleagues(db, me, id, dto, t);
    case AskRemoveGrade(id) => RemoveGradeKeepsColleagues(db, me, id, t);
  }

  lemma SubjectRequestsKeepColleagues(db: Db, me: Id, request: Request, t: Id)
    requires me in db.users && Serve(db, me, request).Ok?
    requires request.AskCreateSubject? || request.AskRenameSubject? || request.AskHideSubject? || request.AskRestoreSubject?
    ensures ColleagueKept(db, Serve(db, me, request).value, t)
  {
    hide ColleagueKept, CreateSubject, RenameSubject, HideSubject, RestoreSubject;
    match request
    case AskCreateSubject(name) => SubjectNamesKeepColleagues(db, me, 0, name, t);
    case AskRenameSubject(id, name) => SubjectNamesKeepColleagues(db, me, id, name, t);
    case AskHideSubject(id, now) => RetiringKeepsColleagues(db, me, id, now, t);
    case AskRestoreSubject(id) => RetiringKeepsColleagues(db, me, id, 0, t);
  }

  lemma ServeKeepsColleagues(db: Db, me: Id, request: Request, t: Id)
    requires Colleague(db, me, t) && Serve(db, me, request).Ok?
    ensures ColleagueKept(db, Serve(db, me, request).value, t)
  {
    assert me in db.users;
    hide Colleague, ColleagueKept, Serve;
    if request.AskCreateSubject? || request.AskRenameSubject? || request.AskHideSubject? || request.AskRestoreSubject? {
      SubjectRequestsKeepColleagues(db, me, request, t);
    } else if request.AskBookLesson? || request.AskSetStatus? || request.AskWriteJournal? || request.AskGradeStudent?
           || request.AskGradeInLesson? || request.AskCorrectGrade? || request.AskRemoveGrade? {
      LessonRequestsKeepColleagues(db, me, request, t);
    } else {
      PeopleRequestsKeepColleagues(db, me, request, t);
    }
  }

  /** The step is no request of the tutor's own, nor of an admin. */
  predicate FromColleagues(db: Db, step: Step, t: Id) {
    step.Ask? && step.me in db.users ==> db.users[step.me].role == Tutor && step.me != t
  }

  lemma NextKeepsColleagues(db: Db, step: Step, t: Id)
    requires Sound(db) && FromColleagues(db, step, t)
    ensures ColleagueKept(db, Next(db, step), t)
  {
    hide Sound, Serve, ColleagueKept;
    if Exec(db, step).Ok? && step.Ask? {
      ServeKeepsColleagues(db, step.me, step.request, t);
    } else {
      OtherTablesKept(db, Next(db, step), t);
    }
  }

  /** However many requests other tutors make, and whatever they ask for, a tutor's own stays theirs. Only an admin, or they
      themselves, can touch it; a balance moves also when a colleague writes up a lesson the student was at. */
  lemma {:induction false} TutorsKeepToTheirOwn(db: Db, steps: seq<Step>, t: Id)
    requires Sound(db) && forall n :: 0 <= n < |steps| ==> FromColleagues(RunFrom(db, steps[..n]), steps[n], t)
    ensures ColleagueKept(db, RunFrom(db, steps), t)
  {
    if steps == [] {
      NothingLost(db, t);
    } else {
      var front, last := steps[..|steps| - 1], steps[|steps| - 1];
      forall n | 0 <= n < |front| ensures FromColleagues(RunFrom(db, front[..n]), front[n], t) {
        assert front[..n] == steps[..n];
      }
      TutorsKeepToTheirOwn(db, front, t);
      RunFromKeeps(db, front);
      NextKeepsColleagues(RunFrom(db, front), last, t);
      KeptTwice(db, RunFrom(db, front), RunFrom(db, steps), t);
      hide Sound, ColleagueKept, Next;
    }
  }
}

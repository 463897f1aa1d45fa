/** What every run of requests keeps true of the tables. */
module Soundness {
  import opened Foundations
  import opened Text
  import opened Books

  // ----- What each row owes the others -----

  ghost predicate TutorOf(db: Db, school: Id, tutor: Id) {
    tutor in db.users && db.users[tutor].school == school
  }

  ghost predicate StudentOf(db: Db, school: Id, student: Id) {
    student in db.students && db.students[student].school == school
  }

  ghost predicate GroupOf(db: Db, school: Id, group: Id) {
    group in db.groups && db.groups[group].school == school
  }

  ghost predicate SubjectOf(db: Db, school: Id, subject: Option<Id>) {
    subject.Some? ==> subject.value in db.subjects && db.subjects[subject.value].school == school
  }

  ghost predicate StudentFor(db: Db, student: Student) {
    && student.school in db.schools
    && TutorOf(db, student.school, student.tutor)
    && SubjectOf(db, student.school, student.subject)
  }

  ghost predicate GroupFor(db: Db, group: Group) {
    TutorOf(db, group.school, group.tutor) && SubjectOf(db, group.school, group.subject)
  }

  ghost predicate PlaceFor(db: Db, place: Place) {
    place.group in db.groups && StudentOf(db, db.groups[place.group].school, place.student)
  }

  /** A lesson is for exactly one student or one group, and everything it names is of its own school. */
  ghost predicate LessonFor(db: Db, lesson: Lesson) {
    && TutorOf(db, lesson.school, lesson.tutor)
    && SubjectOf(db, lesson.school, lesson.subject)
    && (lesson.student.Some? <==> lesson.group.None?)
    && (lesson.student.Some? ==> StudentOf(db, lesson.school, lesson.student.value))
    && (lesson.group.Some? ==> GroupOf(db, lesson.school, lesson.group.value))
  }

  /** A row about a student at a lesson: on a one-to-one lesson that is the lesson's own student. */
  ghost predicate SeatFor(db: Db, seat: Seat) {
    && seat.lesson in db.lessons
    && StudentOf(db, db.lessons[seat.lesson].school, seat.student)
    && (db.lessons[seat.lesson].student.Some? ==> db.lessons[seat.lesson].student.value == seat.student)
  }

  ghost predicate OnScale(grade: Grade, scaleMax: int) {
    && 1 <= grade.weight <= 20
    && match grade.kind
       case Descriptive => grade.value.None?
       case Percentage => grade.value.Some? && 0.0 <= grade.value.value <= 100.0
       case Classic => grade.value.Some? && 0.0 <= grade.value.value <= scaleMax as real
  }

  ghost predicate GradeFor(db: Db, grade: Grade) {
    && grade.student in db.students
    && db.students[grade.student].school in db.schools
    && TutorOf(db, db.students[grade.student].school, grade.author)
    && (grade.lesson.Some? ==> SeatFor(db, Seat(grade.lesson.value, grade.student)))
    && OnScale(grade, db.schools[db.students[grade.student].school].gradeScaleMax)
  }

  // ----- The invariant -----

  /** Every id in use was drawn from the counter, so the next one drawn is new. */
  ghost predicate IdsSpent(db: Db) {
    && (forall k <- db.schools :: k < db.nextId)
    && (forall k <- db.users :: k < db.nextId)
    && (forall k <- db.subjects :: k < db.nextId)
    && (forall k <- db.students :: k < db.nextId)
    && (forall k <- db.groups :: k < db.nextId)
    && (forall k <- db.lessons :: k < db.nextId)
    && (forall k <- db.grades :: k < db.nextId)
  }

  /** No reference dangles or crosses from one school to another. */
  ghost predicate Closed(db: Db) {
    && (forall u <- db.users :: db.users[u].school in db.schools)
    && (forall s <- db.subjects :: db.subjects[s].school in db.schools)
    && (forall s <- db.students :: StudentFor(db, db.students[s]))
    && (forall g <- db.groups :: GroupFor(db, db.groups[g]))
    && (forall p <- db.members :: PlaceFor(db, p))
    && (forall l <- db.lessons :: LessonFor(db, db.lessons[l]))
    && (forall k <- db.register :: SeatFor(db, k))
    && (forall g <- db.grades :: GradeFor(db, db.grades[g]))
  }

  ghost predicate OnOffer(db: Db, subject: Option<Id>) {
    subject.Some? && subject.value in db.subjects ==> db.subjects[subject.value].hiddenAt.None?
  }

  /** Nobody currently studies a retired subject. */
  ghost predicate Retired(db: Db) {
    && (forall s <- db.students :: OnOffer(db, db.students[s].subject))
    && (forall g <- db.groups :: OnOffer(db, db.groups[g].subject))
  }

  /** No two subjects of a school read the same, case aside. */
  ghost predicate NamesApart(subjects: map<Id, Subject>) {
    forall s, t | s in subjects && t in subjects && s != t ::
      subjects[s].school == subjects[t].school ==> Lower(subjects[s].name) != Lower(subjects[t].name)
  }

  /** Subject names are stored without blanks around them. */
  ghost predicate NamesTrimmed(subjects: map<Id, Subject>) {
    forall s <- subjects :: Trim(subjects[s].name) == subjects[s].name
  }

  ghost predicate Sound(db: Db) {
    IdsSpent(db) && Closed(db) && Retired(db) && NamesApart(db.subjects) && NamesTrimmed(db.subjects)
  }

  // ----- Growth: no row that others may name goes away or changes school -----

  ghost predicate Grows(db: Db, after: Db) {
    && (forall k <- db.schools :: k in after.schools && after.schools[k] == db.schools[k])
    && (forall k <- db.users :: k in after.users && after.users[k] == db.users[k])
    && (forall k <- db.subjects :: k in after.subjects && after.subjects[k].school == db.subjects[k].school)
    && (forall k <- db.students :: k in after.students && after.students[k].school == db.students[k].school)
    && (forall k <- db.groups :: k in after.groups && after.groups[k].school == db.groups[k].school)
    && (forall k <- db.lessons :: k in after.lessons && after.lessons[k].school == db.lessons[k].school
                                  && after.lessons[k].student == db.lessons[k].student)
  }

  lemma StudentStays(db: Db, after: Db, row: Student)
    requires Grows(db, after) && StudentFor(db, row)
    ensures StudentFor(after, row)
  {
  }

  lemma GroupStays(db: Db, after: Db, row: Group)
    requires Grows(db, after) && GroupFor(db, row)
    ensures GroupFor(after, row)
  {
  }

  lemma PlaceStays(db: Db, after: Db, row: Place)
    requires Grows(db, after) && PlaceFor(db, row)
    ensures PlaceFor(after, row)
  {
  }

  lemma LessonStays(db: Db, after: Db, row: Lesson)
    requires Grows(db, after) && LessonFor(db, row)
    ensures LessonFor(after, row)
  {
  }

  lemma SeatStays(db: Db, after: Db, row: Seat)
    requires Grows(db, after) && SeatFor(db, row)
    ensures SeatFor(after, row)
  {
  }

  lemma GradeStays(db: Db, after: Db, row: Grade)
    requires Grows(db, after) && GradeFor(db, row)
    ensures GradeFor(after, row)
  {
    if row.lesson.Some? {
      SeatStays(db, after, Seat(row.lesson.value, row.student));
    }
  }

  /** After a change that only grows the tables, it is enough to look at the rows that are new or rewritten. */
  lemma GrowthKeepsClosed(db: Db, after: Db)
    requires Closed(db) && Grows(db, after)
    requires forall u <- after.users :: u in db.users || after.users[u].school in after.schools
    requires forall s <- after.subjects :: s in db.subjects || after.subjects[s].school in after.schools
    requires forall s <- after.students :: (s in db.students && after.students[s] == db.students[s]) || StudentFor(after, after.students[s])
    requires forall g <- after.groups :: (g in db.groups && after.groups[g] == db.groups[g]) || GroupFor(after, after.groups[g])
    requires forall p <- after.members :: p in db.members || PlaceFor(after, p)
    requires forall l <- after.lessons :: (l in db.lessons && after.lessons[l] == db.lessons[l]) || LessonFor(after, after.lessons[l])
    requires forall k <- after.register :: k in db.register || SeatFor(after, k)
    requires forall g <- after.grades :: (g in db.grades && after.grades[g] == db.grades[g]) || GradeFor(after, after.grades[g])
    ensures Closed(after)
  {
    forall s <- after.students ensures StudentFor(after, after.students[s]) {
      if s in db.students && after.students[s] == db.students[s] { StudentStays(db, after, db.students[s]); }
    }
    forall g <- after.groups ensures GroupFor(after, after.groups[g]) {
      if g in db.groups && after.groups[g] == db.groups[g] { GroupStays(db, after, db.groups[g]); }
    }
    forall p <- after.members ensures PlaceFor(after, p) {
      if p in db.members { PlaceStays(db, after, p); }
    }
    forall l <- after.lessons ensures LessonFor(after, after.lessons[l]) {
      if l in db.lessons && after.lessons[l] == db.lessons[l] { LessonStays(db, after, db.lessons[l]); }
    }
    forall k <- after.register ensures SeatFor(after, k) {
      if k in db.register { SeatStays(db, after, k); }
    }
    forall g <- after.grades ensures GradeFor(after, after.grades[g]) {
      if g in db.grades && after.grades[g] == db.grades[g] { GradeStays(db, after, db.grades[g]); }
    }
  }

  // ----- One table changing at a time -----

  lemma PutStudentClosed(db: Db, after: Db, id: Id, row: Student)
    requires after == db.(students := db.students[id := row], nextId := after.nextId)
    requires Closed(db) && StudentFor(db, row) && (id in db.students ==> row.school == db.students[id].school)
    ensures Closed(after)
  {
    StudentStays(db, after, row);
    GrowthKeepsClosed(db, after);
  }

  lemma PutStudent(db: Db, after: Db, id: Id, row: Student)
    requires after == db.(students := db.students[id := row], nextId := after.nextId)
    requires Sound(db) && StudentFor(db, row) && OnOffer(db, row.subject)
    requires id in db.students ==> row.school == db.students[id].school
    requires id < after.nextId && db.nextId <= after.nextId
    ensures Sound(after)
  {
    hide NamesApart, NamesTrimmed;
    PutStudentClosed(db, after, id, row);
    hide Closed;
  }

  lemma PutGroupClosed(db: Db, after: Db, id: Id, row: Group)
    requires after == db.(groups := db.groups[id := row], nextId := after.nextId)
    requires Closed(db) && GroupFor(db, row) && (id in db.groups ==> row.school == db.groups[id].school)
    ensures Closed(after)
  {
    GroupStays(db, after, row);
    GrowthKeepsClosed(db, after);
  }

  lemma PutGroup(db: Db, after: Db, id: Id, row: Group)
    requires after == db.(groups := db.groups[id := row], nextId := after.nextId)
    requires Sound(db) && GroupFor(db, row) && OnOffer(db, row.subject)
    requires id in db.groups ==> row.school == db.groups[id].school
    requires id < after.nextId && db.nextId <= after.nextId
    ensures Sound(after)
  {
    hide NamesApart, NamesTrimmed;
    PutGroupClosed(db, after, id, row);
    hide Closed;
  }

  lemma PutLessonClosed(db: Db, after: Db, id: Id, row: Lesson)
    requires after == db.(lessons := db.lessons[id := row], nextId := after.nextId)
    requires Closed(db) && LessonFor(db, row)
    requires id in db.lessons ==> row.school == db.lessons[id].school && row.student == db.lessons[id].student
    ensures Closed(after)
  {
    LessonStays(db, after, row);
    GrowthKeepsClosed(db, after);
  }

  lemma PutLesson(db: Db, after: Db, id: Id, row: Lesson)
    requires after == db.(lessons := db.lessons[id := row], nextId := after.nextId)
    requires Sound(db) && LessonFor(db, row)
    requires id in db.lessons ==> row.school == db.lessons[id].school && row.student == db.lessons[id].student
    requires id < after.nextId && db.nextId <= after.nextId
    ensures Sound(after)
  {
    hide NamesApart, NamesTrimmed;
    PutLessonClosed(db, after, id, row);
    hide Closed;
  }

  lemma PutGradeClosed(db: Db, after: Db, id: Id, row: Grade)
    requires after == db.(grades := db.grades[id := row], nextId := after.nextId)
    requires Closed(db) && GradeFor(db, row)
    ensures Closed(after)
  {
    GradeStays(db, after, row);
    GrowthKeepsClosed(db, after);
  }

  lemma PutGrade(db: Db, after: Db, id: Id, row: Grade)
    requires after == db.(grades := db.grades[id := row], nextId := after.nextId)
    requires Sound(db) && GradeFor(db, row) && id < after.nextId && db.nextId <= after.nextId
    ensures Sound(after)
  {
    PutGradeClosed(db, after, id, row);
    hide Closed;
  }

  lemma PutSubjectClosed(db: Db, after: Db, id: Id, row: Subject)
    requires after == db.(subjects := db.subjects[id := row], nextId := after.nextId)
    requires Closed(db) && row.school in db.schools && (id in db.subjects ==> row.school == db.subjects[id].school)
    ensures Closed(after)
  {
    GrowthKeepsClosed(db, after);
  }

  lemma PutSubject(db: Db, after: Db, id: Id, row: Subject)
    requires after == db.(subjects := db.subjects[id := row], nextId := after.nextId)
    requires Sound(db) && row.school in db.schools && (id in db.subjects ==> row.school == db.subjects[id].school)
    requires Namesakes(db, row.school, row.name) <= {id} && Trim(row.name) == row.name
    requires row.hiddenAt.None? || UnusedNow(db, id)
    requires id < after.nextId && db.nextId <= after.nextId
    ensures Sound(after)
  {
    PutSubjectClosed(db, after, id, row);
    PutSubjectApart(db, after, id, row);
    PutSubjectRetired(db, after, id, row);
    PutSubjectTrimmed(db, after, id, row);
    hide Closed, NamesApart, Namesakes, NamesTrimmed, Retired, Trim, UnusedNow;
  }

  lemma PutSubjectRetired(db: Db, after: Db, id: Id, row: Subject)
    requires after == db.(subjects := db.subjects[id := row], nextId := after.nextId)
    requires Retired(db) && (row.hiddenAt.None? || UnusedNow(db, id))
    ensures Retired(after)
  {
    forall s <- db.students ensures OnOffer(after, db.students[s].subject) { assert OnOffer(db, db.students[s].subject); }
    forall g <- db.groups ensures OnOffer(after, db.groups[g].subject) { assert OnOffer(db, db.groups[g].subject); }
  }

  lemma PutSubjectTrimmed(db: Db, after: Db, id: Id, row: Subject)
    requires after.subjects == db.subjects[id := row] && NamesTrimmed(db.subjects) && Trim(row.name) == row.name
    ensures NamesTrimmed(after.subjects)
  {
    hide Trim;
  }

  lemma PutSubjectApart(db: Db, after: Db, id: Id, row: Subject)
    requires after.subjects == db.subjects[id := row]
    requires NamesApart(db.subjects) && Namesakes(db, row.school, row.name) <= {id}
    ensures NamesApart(after.subjects)
  {
    hide Lower;
    forall s <- db.subjects | s != id && db.subjects[s].school == row.school
      ensures Lower(db.subjects[s].name) != Lower(row.name)
    {
      assert s !in Namesakes(db, row.school, row.name);
    }
  }

  /** No student and no group points at the subject. */
  ghost predicate UnusedNow(db: Db, id: Id) {
    && (forall s <- db.students :: db.students[s].subject != Some(id))
    && (forall g <- db.groups :: db.groups[g].subject != Some(id))
  }

  // ----- Each request keeps it -----

  lemma SchoolGrowsClosed(db: Db, after: Db)
    requires Closed(db)
    requires forall k <- db.schools :: k in after.schools && after.schools[k] == db.schools[k]
    requires forall k <- db.users :: k in after.users && after.users[k] == db.users[k]
    requires forall k <- after.users :: after.users[k].school in after.schools
    requires after == db.(schools := after.schools, users := after.users, nextId := after.nextId)
    ensures Closed(after)
  {
    GrowthKeepsClosed(db, after);
  }

  lemma RegisterSchoolKeeps(db: Db, scale: int, admin: string)
    requires Sound(db)
    ensures Sound(RegisterSchool(db, scale, admin))
  {
    hide NamesApart, NamesTrimmed;
    SchoolGrowsClosed(db, RegisterSchool(db, scale, admin));
    hide Closed;
  }

  lemma AddUserKeeps(db: Db, school: Id, role: Role, name: string)
    requires Sound(db) && AddUser(db, school, role, name).Ok?
    ensures Sound(AddUser(db, school, role, name).value)
  {
    SchoolGrowsClosed(db, AddUser(db, school, role, name).value);
    hide Closed;
  }

  /** The next id is free in every table, and an account's school exists. */
  lemma FreshId(db: Db, me: Id)
    requires IdsSpent(db) && Closed(db) && me in db.users
    ensures db.nextId !in db.students && db.nextId !in db.groups && db.nextId !in db.lessons
    ensures db.nextId !in db.grades && db.nextId !in db.subjects
    ensures db.users[me].school in db.schools
  {
  }

  lemma ResolvedSubject(db: Db, me: Id, wanted: Option<Id>, current: Option<Id>)
    requires me in db.users && ResolveSubject(db, me, wanted, current).Ok?
    requires OnOffer(db, current)
    ensures ResolveSubject(db, me, wanted, current).value == wanted
    ensures SubjectOf(db, db.users[me].school, wanted) && OnOffer(db, wanted)
  {
  }

  lemma CreateStudentKeeps(db: Db, me: Id, dto: NewStudent)
    requires Sound(db) && me in db.users && CreateStudent(db, me, dto).Ok?
    ensures Sound(CreateStudent(db, me, dto).value)
  {
    FreshId(db, me);
    ResolvedSubject(db, me, dto.subject, None);
    PutStudent(db, CreateStudent(db, me, dto).value, db.nextId,
      Student(db.users[me].school, me, Trim(dto.name), dto.subject, dto.paidLessonsLeft.GetOr(0)));
  }

  lemma UpdateStudentKeeps(db: Db, me: Id, id: Id, dto: StudentPatch)
    requires Sound(db) && me in db.users && UpdateStudent(db, me, id, dto).Ok?
    ensures Sound(UpdateStudent(db, me, id, dto).value)
  {
    if dto.subject.Some? { ResolvedSubject(db, me, dto.subject.value, db.students[id].subject); }
    assert StudentFor(db, db.students[id]);
    var after := UpdateStudent(db, me, id, dto).value;
    PutStudent(db, after, id, after.students[id]);
  }

  lemma CreateGroupKeeps(db: Db, me: Id, dto: NewGroup)
    requires Sound(db) && me in db.users && CreateGroup(db, me, dto).Ok?
    ensures Sound(CreateGroup(db, me, dto).value)
  {
    FreshId(db, me);
    ResolvedSubject(db, me, Some(dto.subject), None);
    PutGroup(db, CreateGroup(db, me, dto).value, db.nextId,
      Group(db.users[me].school, me, Trim(dto.name), Some(dto.subject), BlankToNull(dto.level)));
  }

  lemma UpdateGroupKeeps(db: Db, me: Id, id: Id, dto: GroupPatch)
    requires Sound(db) && me in db.users && UpdateGroup(db, me, id, dto).Ok?
    ensures Sound(UpdateGroup(db, me, id, dto).value)
  {
    if dto.subject.Some? { ResolvedSubject(db, me, dto.subject.value, db.groups[id].subject); }
    assert GroupFor(db, db.groups[id]);
    var after := UpdateGroup(db, me, id, dto).value;
    PutGroup(db, after, id, after.groups[id]);
  }

  lemma AddMemberKeeps(db: Db, me: Id, group: Id, student: Id)
    requires Sound(db) && me in db.users && AddMember(db, me, group, student).Ok?
    ensures Sound(AddMember(db, me, group, student).value)
  {
    hide NamesApart, NamesTrimmed;
    assert PlaceFor(db, Place(group, student));
    PlacesKeepClosed(db, db.members + {Place(group, student)});
    hide Closed;
  }

  lemma RemoveMemberKeeps(db: Db, me: Id, group: Id, student: Id)
    requires Sound(db) && me in db.users && RemoveMember(db, me, group, student).Ok?
    ensures Sound(RemoveMember(db, me, group, student).value)
  {
    PlacesKeepClosed(db, db.members - {Place(group, student)});
    hide Closed;
  }

  lemma PlacesKeepClosed(db: Db, places: set<Place>)
    requires Closed(db) && forall p <- places :: PlaceFor(db, p)
    ensures Closed(db.(members := places))
  {
    var after := db.(members := places);
    forall p <- places ensures PlaceFor(after, p) { PlaceStays(db, after, p); }
    GrowthKeepsClosed(db, after);
  }

  lemma BookLessonKeeps(db: Db, me: Id, dto: NewLesson)
    requires Sound(db) && me in db.users && BookLesson(db, me, dto).Ok?
    ensures Sound(BookLesson(db, me, dto).value)
  {
    FreshId(db, me);
    ResolvedSubject(db, me, dto.subject, None);
    PutLesson(db, BookLesson(db, me, dto).value, db.nextId,
      Lesson(db.users[me].school, me, dto.subject, dto.student, dto.group, dto.startsAt, dto.minutes, dto.meeting, Scheduled, None, None));
  }

  lemma SetLessonStatusKeeps(db: Db, me: Id, id: Id, status: LessonStatus)
    requires Sound(db) && me in db.users && SetLessonStatus(db, me, id, status).Ok?
    ensures Sound(SetLessonStatus(db, me, id, status).value)
  {
    assert LessonFor(db, db.lessons[id]);
    PutLesson(db, SetLessonStatus(db, me, id, status).value, id, db.lessons[id].(status := status));
  }

  lemma GradeOnScale(db: Db, me: Id, dto: WriteGrade, student: Id, lesson: Option<Id>, author: Id, at: Time)
    requires Closed(db) && me in db.users && ValidGrade(dto) && InScale(db, me, dto).Ok?
    requires StudentOf(db, db.users[me].school, student) && TutorOf(db, db.users[me].school, author)
    requires lesson.Some? ==> SeatFor(db, Seat(lesson.value, student))
    ensures GradeFor(db, GradeFrom(dto, student, lesson, author, at))
  {
    assert StudentFor(db, db.students[student]);
  }

  /** Whoever a mark in a lesson resolves to is a student the lesson is for. */
  lemma ResolvedMarked(db: Db, id: Id, named: Option<Id>)
    requires Closed(db) && id in db.lessons && ResolveMarked(db, db.lessons[id], named).Ok?
    ensures SeatFor(db, Seat(id, ResolveMarked(db, db.lessons[id], named).value))
  {
    EligibleSeat(db, id, ResolveMarked(db, db.lessons[id], named).value);
  }

  lemma EligibleSeat(db: Db, id: Id, student: Id)
    requires Closed(db) && id in db.lessons && student in StudentsOf(db, db.lessons[id])
    ensures SeatFor(db, Seat(id, student))
  {
    var lesson := db.lessons[id];
    assert LessonFor(db, lesson);
    if lesson.student.None? {
      assert PlaceFor(db, Place(lesson.group.value, student));
    }
  }

  lemma AddGradeForStudentKeeps(db: Db, me: Id, id: Id, dto: WriteGrade, now: Time)
    requires Sound(db) && me in db.users && AddGradeForStudent(db, me, id, dto, now).Ok?
    requires ValidGrade(dto)
    ensures Sound(AddGradeForStudent(db, me, id, dto, now).value)
  {
    GradeOnScale(db, me, dto, id, None, me, now);
    FreshId(db, me);
    hide GradeFor;
    PutGrade(db, AddGradeForStudent(db, me, id, dto, now).value, db.nextId, GradeFrom(dto, id, None, me, now));
  }

  lemma AddGradeForLessonKeeps(db: Db, me: Id, id: Id, dto: WriteGrade, now: Time)
    requires Sound(db) && me in db.users && AddGradeForLesson(db, me, id, dto, now).Ok?
    requires ValidGrade(dto)
    ensures Sound(AddGradeForLesson(db, me, id, dto, now).value)
  {
    ResolvedMarked(db, id, dto.student);
    var student := ResolveMarked(db, db.lessons[id], dto.student).value;
    GradeOnScale(db, me, dto, student, Some(id), me, now);
    FreshId(db, me);
    hide GradeFor;
    PutGrade(db, AddGradeForLesson(db, me, id, dto, now).value, db.nextId, GradeFrom(dto, student, Some(id), me, now));
  }

  lemma CorrectGradeKeeps(db: Db, me: Id, id: Id, dto: WriteGrade)
    requires Sound(db) && me in db.users && CorrectGrade(db, me, id, dto).Ok?
    requires ValidGrade(dto)
    ensures Sound(CorrectGrade(db, me, id, dto).value)
  {
    var old_ := db.grades[id];
    assert GradeFor(db, old_);
    GradeOnScale(db, me, dto, old_.student, old_.lesson, old_.author, old_.createdAt);
    PutGrade(db, CorrectGrade(db, me, id, dto).value, id,
      GradeFrom(dto, old_.student, old_.lesson, old_.author, old_.createdAt));
  }

  lemma FewerGradesClosed(db: Db, grades: map<Id, Grade>)
    requires Closed(db) && forall g <- grades :: g in db.grades && grades[g] == db.grades[g]
    ensures Closed(db.(grades := grades))
  {
    GrowthKeepsClosed(db, db.(grades := grades));
  }

  lemma RemoveGradeKeeps(db: Db, me: Id, id: Id)
    requires Sound(db) && me in db.users && RemoveGrade(db, me, id).Ok?
    ensures Sound(RemoveGrade(db, me, id).value)
  {
    FewerGradesClosed(db, db.grades - {id});
    hide Closed;
  }

  lemma CreateSubjectKeeps(db: Db, me: Id, name: string)
    requires Sound(db) && me in db.users && CreateSubject(db, me, name).Ok?
    ensures Sound(CreateSubject(db, me, name).value)
  {
    FreshId(db, me);
    TrimTwice(name);
    PutSubject(db, CreateSubject(db, me, name).value, db.nextId, Subject(db.users[me].school, Trim(name), None));
  }

  lemma RenameSubjectKeeps(db: Db, me: Id, id: Id, name: string)
    requires Sound(db) && me in db.users && RenameSubject(db, me, id, name).Ok?
    ensures Sound(RenameSubject(db, me, id, name).value)
  {
    var row := db.subjects[id];
    if row.hiddenAt.Some? { HiddenIsUnused(db, id); }
    TrimTwice(name);
    hide Closed, Retired, NamesApart, NamesTrimmed, Namesakes, Trim, UnusedNow;
    PutSubject(db, RenameSubject(db, me, id, name).value, id, row.(name := Trim(name)));
  }

  lemma HiddenIsUnused(db: Db, id: Id)
    requires Retired(db) && id in db.subjects && db.subjects[id].hiddenAt.Some?
    ensures UnusedNow(db, id)
  {
    forall s <- db.students ensures db.students[s].subject != Some(id) { assert OnOffer(db, db.students[s].subject); }
    forall g <- db.groups ensures db.groups[g].subject != Some(id) { assert OnOffer(db, db.groups[g].subject); }
  }

  /** A subject's only namesake is itself. */
  lemma OwnNamesake(db: Db, id: Id)
    requires NamesApart(db.subjects) && id in db.subjects
    ensures Namesakes(db, db.subjects[id].school, db.subjects[id].name) == {id}
  {
  }

  lemma HideSubjectKeeps(db: Db, me: Id, id: Id, now: Time)
    requires Sound(db) && me in db.users && HideSubject(db, me, id, now).Ok?
    ensures Sound(HideSubject(db, me, id, now).value)
  {
    var usage := UsageOf(db, id, now);
    assert UnusedNow(db, id) by {
      forall s <- db.students ensures db.students[s].subject != Some(id) { assert s !in usage.students; }
      forall g <- db.groups ensures db.groups[g].subject != Some(id) { assert g !in usage.groups; }
    }
    OwnNamesake(db, id);
    if db.subjects[id].hiddenAt.None? {
      PutSubject(db, HideSubject(db, me, id, now).value, id, db.subjects[id].(hiddenAt := Some(now)));
    }
  }

  lemma RestoreSubjectKeeps(db: Db, me: Id, id: Id)
    requires Sound(db) && me in db.users && RestoreSubject(db, me, id).Ok?
    ensures Sound(RestoreSubject(db, me, id).value)
  {
    OwnNamesake(db, id);
    PutSubject(db, RestoreSubject(db, me, id).value, id, db.subjects[id].(hiddenAt := None));
  }

  // ----- Cascades -----

  /** Only rows that were there remain, and each remaining row still finds what it names. A mark may have been detached
      from its lesson. */
  ghost predicate Shrinks(db: Db, after: Db) {
    && after.schools == db.schools && after.users == db.users && after.subjects == db.subjects
    && (forall s <- after.students :: s in db.students && after.students[s] == db.students[s])
    && (forall g <- after.groups :: g in db.groups && after.groups[g] == db.groups[g])
    && (forall p <- after.members :: p in db.members && p.group in after.groups && p.student in after.students)
    && (forall l <- after.lessons ::
          && l in db.lessons && after.lessons[l] == db.lessons[l]
          && (db.lessons[l].student.Some? ==> db.lessons[l].student.value in after.students)
          && (db.lessons[l].group.Some? ==> db.lessons[l].group.value in after.groups))
    && (forall k <- after.register :: k in db.register && k.lesson in after.lessons && k.student in after.students)
    && (forall g <- after.grades ::
          && g in db.grades && db.grades[g].student in after.students
          && (after.grades[g] == db.grades[g] || after.grades[g] == db.grades[g].(lesson := None))
          && (after.grades[g].lesson.Some? ==> after.grades[g].lesson.value in after.lessons))
  }

  lemma ShrinkKeepsMarks(db: Db, after: Db)
    requires Closed(db) && Shrinks(db, after)
    ensures forall k <- after.register :: SeatFor(after, k)
    ensures forall g <- after.grades :: GradeFor(after, after.grades[g])
  {
    forall k <- after.register ensures SeatFor(after, k) {
      assert SeatFor(db, k);
    }
    forall g <- after.grades ensures GradeFor(after, after.grades[g]) {
      assert GradeFor(db, db.grades[g]);
    }
  }

  lemma ShrinkKeepsClosed(db: Db, after: Db)
    requires Closed(db) && Shrinks(db, after)
    ensures Closed(after)
  {
    ShrinkKeepsMarks(db, after);
    hide SeatFor, GradeFor;
    forall l <- after.lessons ensures LessonFor(after, after.lessons[l]) {
      assert LessonFor(db, db.lessons[l]);
    }
    forall s <- after.students ensures StudentFor(after, after.students[s]) {
      assert StudentFor(db, db.students[s]);
    }
    forall g <- after.groups ensures GroupFor(after, after.groups[g]) {
      assert GroupFor(db, db.groups[g]);
    }
    forall p <- after.members ensures PlaceFor(after, p) {
      assert PlaceFor(db, p);
    }
  }

  lemma DropLessonsClosed(db: Db, doomed: set<Id>)
    requires Closed(db)
    ensures Closed(DropLessons(db, doomed))
  {
    forall l <- db.lessons ensures LessonFor(db, db.lessons[l]) { }
    forall k <- db.register ensures SeatFor(db, k) { }
    forall g <- db.grades ensures GradeFor(db, db.grades[g]) { }
    forall p <- db.members ensures PlaceFor(db, p) { }
    ShrinkKeepsClosed(db, DropLessons(db, doomed));
  }

  lemma DropLessonsKeeps(db: Db, doomed: set<Id>)
    requires Sound(db)
    ensures Sound(DropLessons(db, doomed))
  {
    DropLessonsClosed(db, doomed);
    hide Closed;
  }

  /** Once no lesson names a student, taking their own rows along leaves nothing pointing at them. */
  lemma DropStudentClosed(db: Db, id: Id)
    requires Closed(db) && LessonsOfStudent(db, id) == {}
    ensures Closed(DropStudent(db, id))
  {
    forall l <- db.lessons ensures LessonFor(db, db.lessons[l]) && l !in LessonsOfStudent(db, id) { }
    forall k <- db.register ensures SeatFor(db, k) { }
    forall g <- db.grades ensures GradeFor(db, db.grades[g]) { }
    forall p <- db.members ensures PlaceFor(db, p) { }
    ShrinkKeepsClosed(db, DropStudent(db, id));
  }

  lemma DropStudentKeeps(db: Db, id: Id)
    requires Sound(db) && LessonsOfStudent(db, id) == {}
    ensures Sound(DropStudent(db, id))
  {
    DropStudentClosed(db, id);
    hide Closed;
  }

  lemma ForgetGroupClosed(db: Db, id: Id, after: Db)
    requires Closed(db) && LessonsOfGroup(db, id) == {}
    requires after == db.(groups := db.groups - {id}, members := after.members)
    requires after.members == set p | p in db.members && p.group != id
    ensures Closed(after)
  {
    forall l <- db.lessons ensures LessonFor(db, db.lessons[l]) && l !in LessonsOfGroup(db, id) { }
    forall k <- db.register ensures SeatFor(db, k) { }
    forall g <- db.grades ensures GradeFor(db, db.grades[g]) { }
    forall p <- db.members ensures PlaceFor(db, p) { }
    ShrinkKeepsClosed(db, after);
  }

  lemma ForgetGroupKeeps(db: Db, id: Id, after: Db)
    requires Sound(db) && LessonsOfGroup(db, id) == {}
    requires after == db.(groups := db.groups - {id}, members := after.members)
    requires after.members == set p | p in db.members && p.group != id
    ensures Sound(after)
  {
    ForgetGroupClosed(db, id, after);
    hide Closed;
  }

  lemma RemoveStudentKeeps(db: Db, me: Id, id: Id)
    requires Sound(db) && me in db.users && RemoveStudent(db, me, id).Ok?
    ensures Sound(RemoveStudent(db, me, id).value)
  {
    var rest := DropLessons(db, LessonsOfStudent(db, id));
    DropLessonsKeeps(db, LessonsOfStudent(db, id));
    assert LessonsOfStudent(rest, id) == {};
    DropStudentKeeps(rest, id);
  }

  lemma RemoveGroupKeeps(db: Db, me: Id, id: Id)
    requires Sound(db) && me in db.users && RemoveGroup(db, me, id).Ok?
    ensures Sound(RemoveGroup(db, me, id).value)
  {
    var rest := DropLessons(db, LessonsOfGroup(db, id));
    DropLessonsKeeps(db, LessonsOfGroup(db, id));
    assert LessonsOfGroup(rest, id) == {};
    ForgetGroupKeeps(rest, id, RemoveGroup(db, me, id).value);
  }

  // ----- The write-up -----

  lemma PutSeatClosed(db: Db, after: Db, seat: Seat, row: Attendance)
    requires Closed(db) && SeatFor(db, seat)
    requires after == db.(register := db.register[seat := row])
    ensures Closed(after)
  {
    SeatStays(db, after, seat);
    GrowthKeepsClosed(db, after);
  }

  lemma PutSeat(db: Db, after: Db, seat: Seat, row: Attendance)
    requires Sound(db) && SeatFor(db, seat)
    requires after == db.(register := db.register[seat := row])
    ensures Sound(after)
  {
    PutSeatClosed(db, after, seat, row);
    hide Closed;
  }

  lemma WriteMarkKeeps(db: Db, lesson: Id, mark: Mark)
    requires Sound(db) && SeatFor(db, Seat(lesson, mark.student))
    ensures Sound(WriteMark(db, lesson, mark))
  {
    var seat := Seat(lesson, mark.student);
    var after := WriteMark(db, lesson, mark);
    var settled := db.(students := after.students);
    if after.students != db.students {
      assert StudentFor(db, db.students[mark.student]) && OnOffer(db, db.students[mark.student].subject);
      PutStudent(db, settled, mark.student, after.students[mark.student]);
    }
    PutSeat(settled, after, seat, after.register[seat]);
  }

  /** Writing marks touches the register and the balances, and nothing else. */
  lemma {:induction false} WriteMarksFrame(db: Db, lesson: Id, marks: seq<Mark>)
    ensures Grows(db, WriteMarks(db, lesson, marks))
    ensures WriteMarks(db, lesson, marks) == db.(
      students := WriteMarks(db, lesson, marks).students, register := WriteMarks(db, lesson, marks).register)
  {
    if marks != [] {
      WriteMarksFrame(db, lesson, marks[..|marks| - 1]);
    }
  }

  lemma {:induction false} WriteMarksKeeps(db: Db, lesson: Id, marks: seq<Mark>)
    requires Sound(db) && forall i :: 0 <= i < |marks| ==> SeatFor(db, Seat(lesson, marks[i].student))
    ensures Sound(WriteMarks(db, lesson, marks))
  {
    hide Sound;
    if marks != [] {
      var front, mark := marks[..|marks| - 1], marks[|marks| - 1];
      WriteMarksKeeps(db, lesson, front);
      WriteMarksFrame(db, lesson, front);
      var before := WriteMarks(db, lesson, front);
      SeatStays(db, before, Seat(lesson, mark.student));
      WriteMarkKeeps(before, lesson, mark);
    }
  }

  lemma WriteJournalKeeps(db: Db, me: Id, id: Id, dto: Journal)
    requires Sound(db) && me in db.users && WriteJournal(db, me, id, dto).Ok?
    ensures Sound(WriteJournal(db, me, id, dto).value)
  {
    hide NamesApart, NamesTrimmed, Retired;
    var lesson, marks := db.lessons[id], dto.attendance;
    forall i | 0 <= i < |marks| ensures SeatFor(db, Seat(id, marks[i].student)) {
      EligibleSeat(db, id, marks[i].student);
    }
    WriteMarksKeeps(db, id, marks);
    WriteMarksFrame(db, id, marks);
    assert LessonFor(db, lesson);
    LessonStays(db, WriteMarks(db, id, marks), lesson);
    hide Sound, Closed, LessonFor, WriteMarks, Grows, StudentsOf, OnePerStudent;
    PutLesson(WriteMarks(db, id, marks), WriteJournal(db, me, id, dto).value, id, Described(lesson, dto));
  }

  // ----- Every run -----

  lemma ServeKeeps(db: Db, me: Id, request: Request)
    requires Sound(db) && me in db.users && ValidRequest(request) && Serve(db, me, request).Ok?
    ensures Sound(Serve(db, me, request).value)
  {
    hide Sound, CreateStudent, UpdateStudent, RemoveStudent, CreateGroup, UpdateGroup, RemoveGroup, AddMember, RemoveMember,
      BookLesson, SetLessonStatus, WriteJournal, AddGradeForStudent, AddGradeForLesson, CorrectGrade, RemoveGrade,
      CreateSubject, RenameSubject, HideSubject, RestoreSubject;
    match request
    case AskCreateStudent(dto) => CreateStudentKeeps(db, me, dto);
    case AskUpdateStudent(id, dto) => UpdateStudentKeeps(db, me, id, dto);
    case AskRemoveStudent(id) => RemoveStudentKeeps(db, me, id);
    case AskCreateGroup(dto) => CreateGroupKeeps(db, me, dto);
    case AskUpdateGroup(id, dto) => UpdateGroupKeeps(db, me, id, dto);
    case AskRemoveGroup(id) => RemoveGroupKeeps(db, me, id);
    case AskAddMember(id, student) => AddMemberKeeps(db, me, id, student);
    case AskRemoveMember(id, student) => RemoveMemberKeeps(db, me, id, student);
    case AskBookLesson(dto) => BookLessonKeeps(db, me, dto);
    case AskSetStatus(id, status) => SetLessonStatusKeeps(db, me, id, status);
    case AskWriteJournal(id, dto) => WriteJournalKeeps(db, me, id, dto);
    case AskGradeStudent(id, dto, now) => AddGradeForStudentKeeps(db, me, id, dto, now);
    case AskGradeInLesson(id, dto, now) => AddGradeForLessonKeeps(db, me, id, dto, now);
    case AskCorrectGrade(id, dto) => CorrectGradeKeeps(db, me, id, dto);
    case AskRemoveGrade(id) => RemoveGradeKeeps(db, me, id);
    case AskCreateSubject(name) => CreateSubjectKeeps(db, me, name);
    case AskRenameSubject(id, name) => RenameSubjectKeeps(db, me, id, name);
    case AskHideSubject(id, now) => HideSubjectKeeps(db, me, id, now);
    case AskRestoreSubject(id) => RestoreSubjectKeeps(db, me, id);
  }

  lemma NextKeeps(db: Db, step: Step)
    requires Sound(db)
    ensures Sound(Next(db, step))
  {
    hide Sound;
    match step
    case Register(scale, admin) => RegisterSchoolKeeps(db, scale, admin);
    case Join(school, role, name) => if AddUser(db, school, role, name).Ok? { AddUserKeeps(db, school, role, name); }
    case Ask(me, request) => if Exec(db, step).Ok? { ServeKeeps(db, me, request); }
  }

  lemma {:induction false} RunFromKeeps(db: Db, steps: seq<Step>)
    requires Sound(db)
    ensures Sound(RunFrom(db, steps))
  {
    if steps != [] {
      RunFromKeeps(db, steps[..|steps| - 1]);
      NextKeeps(RunFrom(db, steps[..|steps| - 1]), steps[|steps| - 1]);
    }
  }

  /** In every reachable state no reference dangles or leaves its school, every lesson is for exactly one student or
      group, register rows and marks of a one-to-one lesson are its own student's, marks are on their scale, nobody
      studies a retired subject, and subject names are distinct case aside. */
  lemma RunIsSound(steps: seq<Step>)
    ensures Sound(Run(steps))
  {
    RunFromKeeps(EMPTY, steps);
  }
}

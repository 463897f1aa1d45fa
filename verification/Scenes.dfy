/** Short runs from an empty database, and the tables they leave: the setting of every concrete example. */
module Scenes {
  import opened Foundations
  import opened Text
  import opened Books

  lemma RunOneMore(steps: seq<Step>, last: Step)
    ensures Run(steps + [last]) == Next(Run(steps), last)
  {
    hide Next;
    assert (steps + [last])[..|steps|] == steps;
  }

  lemma Accepted(db: Db, me: Id, request: Request)
    requires me in db.users && ValidRequest(request) && Serve(db, me, request).Ok?
    ensures Next(db, Ask(me, request)) == Serve(db, me, request).value
  {
    hide Serve;
  }

  /** Three letters that are their own trimmed form. */
  lemma LettersAreTrimmed()
    ensures Trim("A") == "A" && Trim("B") == "B" && Trim("a") == "a"
  {
    TrimByFixes("A", WHITESPACE);
    TrimByFixes("B", WHITESPACE);
    TrimByFixes("a", WHITESPACE);
  }

  // ----- A school with one subject -----

  /** A school registers: its first account is its admin. */
  const OPEN_SCHOOL: seq<Step> := [Register(12, "A")]

  const WITH_SUBJECT: seq<Step> := OPEN_SCHOOL + [Ask(1, AskCreateSubject("A"))]

  const SCHOOL_ONLY := EMPTY.(schools := map[0 := School(12)], users := map[1 := User(0, Admin, "A")], nextId := 2)
  const ONE_SUBJECT := SCHOOL_ONLY.(subjects := map[2 := Subject(0, "A", None)], nextId := 3)

  lemma SchoolOpens()
    ensures Run(OPEN_SCHOOL) == SCHOOL_ONLY
  {
    RunOneMore([], Register(12, "A"));
    assert [] + [Register(12, "A")] == OPEN_SCHOOL;
  }

  lemma SubjectIsThere()
    ensures Run(WITH_SUBJECT) == ONE_SUBJECT
  {
    SchoolOpens();
    LettersAreTrimmed();
    assert Namesakes(SCHOOL_ONLY, 0, "A") == {};
    hide Run, Trim, Lower, Namesakes;
    Asked(OPEN_SCHOOL, SCHOOL_ONLY, 1, AskCreateSubject("A"), ONE_SUBJECT);
  }

  /** One accepted request more. */
  lemma Asked(steps: seq<Step>, db: Db, me: Id, request: Request, after: Db)
    requires Run(steps) == db && me in db.users && ValidRequest(request) && Serve(db, me, request) == Ok(after)
    ensures Run(steps + [Ask(me, request)]) == after
  {
    RunOneMore(steps, Ask(me, request));
    Accepted(db, me, request);
    hide Run, Serve, Next;
  }

  // ----- A group of two, one of them marked present -----

  const FIRST_COMES := AskCreateStudent(NewStudent("A", None, None))
  const SECOND_COMES := AskCreateStudent(NewStudent("B", None, Some(1)))
  const GROUP_FORMS := AskCreateGroup(NewGroup("A", 2, None))
  const GROUP_BOOKED := AskBookLesson(NewLesson(None, Some(5), None, 0, 60, None))
  const FIRST_PRESENT := Journal(None, None, [Mark(3, Present, None)], None)

  const TAUGHT: seq<Step> :=
    WITH_SUBJECT + [Ask(1, FIRST_COMES)] + [Ask(1, SECOND_COMES)] + [Ask(1, GROUP_FORMS)]
    + [Ask(1, AskAddMember(5, 3))] + [Ask(1, AskAddMember(5, 4))]
    + [Ask(1, GROUP_BOOKED)] + [Ask(1, AskWriteJournal(6, FIRST_PRESENT))]

  const ONE_STUDENT := ONE_SUBJECT.(students := map[3 := Student(0, 1, "A", None, 0)], nextId := 4)
  const TWO_STUDENTS := ONE_STUDENT.(
    students := map[3 := Student(0, 1, "A", None, 0), 4 := Student(0, 1, "B", None, 1)], nextId := 5)
  const ONE_GROUP := TWO_STUDENTS.(groups := map[5 := Group(0, 1, "A", Some(2), None)], nextId := 6)
  const ONE_MEMBER := ONE_GROUP.(members := {Place(5, 3)})
  const TWO_MEMBERS := ONE_GROUP.(members := {Place(5, 3), Place(5, 4)})
  const LESSON_AHEAD := TWO_MEMBERS.(
    lessons := map[6 := Lesson(0, 1, None, None, Some(5), 0, 60, None, Scheduled, None, None)], nextId := 7)
  const ONE_CHARGED := LESSON_AHEAD.(
    students := map[3 := Student(0, 1, "A", None, -1), 4 := Student(0, 1, "B", None, 1)],
    lessons := map[6 := Lesson(0, 1, None, None, Some(5), 0, 60, None, Completed, None, None)],
    register := map[Seat(6, 3) := Attendance(Present, None)])

  lemma FirstComes()
    ensures Serve(ONE_SUBJECT, 1, FIRST_COMES) == Ok(ONE_STUDENT)
  {
    LettersAreTrimmed();
    hide Trim;
  }

  lemma SecondComes()
    ensures Serve(ONE_STUDENT, 1, SECOND_COMES) == Ok(TWO_STUDENTS)
  {
    LettersAreTrimmed();
    hide Trim;
  }

  lemma GroupForms()
    ensures Serve(TWO_STUDENTS, 1, GROUP_FORMS) == Ok(ONE_GROUP)
  {
    LettersAreTrimmed();
    hide Trim;
  }

  lemma FirstJoins()
    ensures Serve(ONE_GROUP, 1, AskAddMember(5, 3)) == Ok(ONE_MEMBER)
  {
    assert ONE_GROUP.members + {Place(5, 3)} == ONE_MEMBER.members;
  }

  lemma SecondJoins()
    ensures Serve(ONE_MEMBER, 1, AskAddMember(5, 4)) == Ok(TWO_MEMBERS)
  {
    assert ONE_MEMBER.members + {Place(5, 4)} == TWO_MEMBERS.members;
  }

  lemma GroupIsBooked()
    ensures Serve(TWO_MEMBERS, 1, GROUP_BOOKED) == Ok(LESSON_AHEAD)
  {
  }

  lemma FirstIsMarked()
    ensures Serve(LESSON_AHEAD, 1, AskWriteJournal(6, FIRST_PRESENT)) == Ok(ONE_CHARGED)
  {
    var db, marks := LESSON_AHEAD, FIRST_PRESENT.attendance;
    assert Place(5, 3) in db.members;
    assert 3 in StudentsOf(db, db.lessons[6]);
    assert WriteMarks(db, 6, marks[..0]) == db;
    assert WriteMarks(db, 6, marks) == WriteMark(db, 6, marks[0]);
    assert Charged(marks[0].status);
    assert StatusFromRegister(marks) == Some(Completed);
    hide WriteMarks, StudentsOf, StatusFromRegister;
    FirstIsCharged(db);
    hide WriteMark;
    var done := Described(db.lessons[6], FIRST_PRESENT);
    assert db.lessons[6 := done] == ONE_CHARGED.lessons;
  }

  lemma FirstIsCharged(db: Db)
    requires db == LESSON_AHEAD
    ensures WriteMark(db, 6, Mark(3, Present, None)) == ONE_CHARGED.(lessons := db.lessons)
  {
    var marked := WriteMark(db, 6, Mark(3, Present, None));
    assert marked.students == ONE_CHARGED.students && marked.register == ONE_CHARGED.register;
  }

  /** The lesson has taken place for the first of the two, who is charged for it. */
  lemma PairIsTaught()
    ensures Run(TAUGHT) == ONE_CHARGED
  {
    SubjectIsThere();
    FirstComes();
    SecondComes();
    GroupForms();
    GroupIsBooked();
    FirstIsMarked();
    FirstJoins();
    SecondJoins();
    hide Run, Serve;
    var a := WITH_SUBJECT;
    Asked(a, ONE_SUBJECT, 1, FIRST_COMES, ONE_STUDENT);
    var b := a + [Ask(1, FIRST_COMES)];
    Asked(b, ONE_STUDENT, 1, SECOND_COMES, TWO_STUDENTS);
    var c := b + [Ask(1, SECOND_COMES)];
    Asked(c, TWO_STUDENTS, 1, GROUP_FORMS, ONE_GROUP);
    var d := c + [Ask(1, GROUP_FORMS)];
    Asked(d, ONE_GROUP, 1, AskAddMember(5, 3), ONE_MEMBER);
    var e := d + [Ask(1, AskAddMember(5, 3))];
    Asked(e, ONE_MEMBER, 1, AskAddMember(5, 4), TWO_MEMBERS);
    var f := e + [Ask(1, AskAddMember(5, 4))];
    Asked(f, TWO_MEMBERS, 1, GROUP_BOOKED, LESSON_AHEAD);
    Asked(f + [Ask(1, GROUP_BOOKED)], LESSON_AHEAD, 1, AskWriteJournal(6, FIRST_PRESENT), ONE_CHARGED);
  }

  // ----- A subject hidden while a cancelled lesson in it lies ahead -----

  const LESSON_BOOKED := AskBookLesson(NewLesson(Some(3), None, Some(2), 100, 60, None))

  const RETIRED: seq<Step> :=
    WITH_SUBJECT + [Ask(1, FIRST_COMES)] + [Ask(1, LESSON_BOOKED)] + [Ask(1, AskSetStatus(4, Cancelled))]
    + [Ask(1, AskHideSubject(2, 50))]

  const ON := ONE_STUDENT.(
    lessons := map[4 := Lesson(0, 1, Some(2), Some(3), None, 100, 60, None, Scheduled, None, None)], nextId := 5)
  const OFF := ON.(
    lessons := map[4 := Lesson(0, 1, Some(2), Some(3), None, 100, 60, None, Cancelled, None, None)])
  const HIDDEN := OFF.(subjects := map[2 := Subject(0, "A", Some(50))])

  lemma LessonIsBooked()
    ensures Serve(ONE_STUDENT, 1, LESSON_BOOKED) == Ok(ON)
  {
  }

  lemma LessonIsCalledOff()
    ensures Serve(ON, 1, AskSetStatus(4, Cancelled)) == Ok(OFF)
  {
    assert ON.lessons[4 := ON.lessons[4].(status := Cancelled)] == OFF.lessons;
  }

  lemma SubjectIsRetired()
    ensures Serve(OFF, 1, AskHideSubject(2, 50)) == Ok(HIDDEN)
  {
    var usage := UsageOf(OFF, 2, 50);
    assert UpcomingOf(OFF, 2, 50) == {};
    assert usage.students == {} && usage.groups == {} && usage.upcomingLessons == 0;
    hide UsageOf;
    assert OFF.subjects[2 := OFF.subjects[2].(hiddenAt := Some(50))] == HIDDEN.subjects;
  }

  lemma SubjectIsHidden()
    ensures Run(RETIRED) == HIDDEN
  {
    SubjectIsThere();
    FirstComes();
    LessonIsBooked();
    LessonIsCalledOff();
    SubjectIsRetired();
    hide Run, Serve;
    var a := WITH_SUBJECT;
    Asked(a, ONE_SUBJECT, 1, FIRST_COMES, ONE_STUDENT);
    var b := a + [Ask(1, FIRST_COMES)];
    Asked(b, ONE_STUDENT, 1, LESSON_BOOKED, ON);
    var c := b + [Ask(1, LESSON_BOOKED)];
    Asked(c, ON, 1, AskSetStatus(4, Cancelled), OFF);
    Asked(c + [Ask(1, AskSetStatus(4, Cancelled))], OFF, 1, AskHideSubject(2, 50), HIDDEN);
  }
}

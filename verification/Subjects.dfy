/** Retiring a subject: what hiding it promises, and what it preserves. */
module Subjects {
  import opened Foundations
  import opened Text
  import opened Books
  import opened Soundness
  import Ledger
  import Scenes

  function LessonsIn(db: Db, subject: Id): set<Id> {
    set l | l in db.lessons && db.lessons[l].subject == Some(subject)
  }

  /** Upcoming and past between them count every lesson of a subject exactly once. */
  lemma UsageCountsEveryLesson(db: Db, subject: Id, now: Time)
    ensures UsageOf(db, subject, now).upcomingLessons + UsageOf(db, subject, now).pastLessons == |LessonsIn(db, subject)|
  {
    assert UpcomingOf(db, subject, now) + PastOf(db, subject, now) == LessonsIn(db, subject);
    assert UpcomingOf(db, subject, now) !! PastOf(db, subject, now);
  }

  // ----- Names -----

  /** A new name is accepted exactly when no subject of the school reads the same, and the refusal says which kind of
      row is in the way. */
  lemma CreateSubjectIff(db: Db, me: Id, name: string)
    requires Sound(db) && me in db.users
    ensures var taken := Namesakes(db, db.users[me].school, Trim(name));
      && (CreateSubject(db, me, name).Ok? <==> taken == {})
      && (forall s <- taken :: CreateSubject(db, me, name)
            == Err(Conflict(if db.subjects[s].hiddenAt.Some? then SubjectHidden else SubjectExists)))
  {
    hide Closed, Retired;
    var taken := Namesakes(db, db.users[me].school, Trim(name));
    forall s <- taken, t <- taken ensures s == t {
      assert Lower(db.subjects[s].name) == Lower(db.subjects[t].name);
    }
    hide Namesakes;
  }

  /** The unique index on school and exact name has another row in the way. */
  predicate IndexRefuses(db: Db, school: Id, name: string, own: set<Id>) {
    exists s <- db.subjects :: s !in own && db.subjects[s].school == school && db.subjects[s].name == name
  }

  /** The insertion alone, guarded by nothing but the unique index on school and exact name. */
  function InsertSubject(db: Db, school: Id, name: string): Result<Db> {
    var _ :- Need(!IndexRefuses(db, school, name, {}), Conflict(KeyTaken));
    Ok(db.(subjects := db.subjects[db.nextId := Subject(school, name, None)], nextId := db.nextId + 1))
  }

  /** The new name alone, guarded by the same index. */
  function PutName(db: Db, id: Id, name: string): Result<Db>
    requires id in db.subjects
  {
    var _ :- Need(!IndexRefuses(db, db.subjects[id].school, name, {id}), Conflict(KeyTaken));
    Ok(db.(subjects := db.subjects[id := db.subjects[id].(name := name)]))
  }

  /** Two creations of one name whose checks both came before either insertion: the index stops the second exactly when
      the two were typed in the same case. Otherwise both go in, and the school has two subjects that read the same. */
  lemma RacingCreatesIff(db: Db, me: Id, a: string, b: string)
    requires Sound(db) && me in db.users && CreateSubject(db, me, a).Ok? && CreateSubject(db, me, b).Ok?
    requires Lower(Trim(a)) == Lower(Trim(b))
    ensures var both := InsertSubject(CreateSubject(db, me, a).value, db.users[me].school, Trim(b));
      && (both.Ok? <==> Trim(a) != Trim(b))
      && (both.Ok? ==> !NamesApart(both.value.subjects))
  {
    hide Closed, Retired, Trim, Lower;
    CreateSubjectIff(db, me, b);
    var school, first := db.users[me].school, CreateSubject(db, me, a).value;
    forall s <- db.subjects | db.subjects[s].school == school ensures db.subjects[s].name != Trim(b) {
      assert s !in Namesakes(db, school, Trim(b));
    }
    var both := InsertSubject(first, school, Trim(b));
    if both.Ok? {
      assert both.value.subjects[db.nextId].name == Trim(a) && both.value.subjects[db.nextId + 1].name == Trim(b);
    }
  }

  /** It does happen: in a school that has just registered, "A" and "a". */
  lemma RacingCreatesCanMeet()
    ensures var db := Run(Scenes.OPEN_SCHOOL);
      && 1 in db.users && CreateSubject(db, 1, "A").Ok? && CreateSubject(db, 1, "a").Ok?
      && var both := InsertSubject(CreateSubject(db, 1, "A").value, db.users[1].school, Trim("a"));
         both.Ok? && !NamesApart(both.value.subjects)
  {
    Scenes.SchoolOpens();
    Scenes.LettersAreTrimmed();
    RunIsSound(Scenes.OPEN_SCHOOL);
    var db := Run(Scenes.OPEN_SCHOOL);
    hide Run, Trim;
    assert Namesakes(db, 0, "A") == {} && Namesakes(db, 0, "a") == {};
    assert Lower("A") == Lower("a") && "A"[0] != "a"[0];
    RacingCreatesIff(db, 1, "A", "a");
  }

  // ----- Hiding -----

  /** What hiding needs, and what it leaves: the subject is used by nobody and not upcoming anywhere, now or later. */
  lemma HideSubjectIff(db: Db, me: Id, id: Id, now: Time)
    requires me in db.users && FindSubject(db, me, id).Ok?
    ensures HideSubject(db, me, id, now).Ok? <==> UnusedNow(db, id) && UpcomingOf(db, id, now) == {}
    ensures HideSubject(db, me, id, now).Ok? ==>
              var after := HideSubject(db, me, id, now).value;
              && after.subjects[id].hiddenAt.Some?
              && forall later :: later >= now ==> UpcomingOf(after, id, later) == {}
  {
    var usage := UsageOf(db, id, now);
    assert usage.students == {} && usage.groups == {} <==> UnusedNow(db, id) by {
      if UnusedNow(db, id) {
        assert forall s <- db.students :: s !in usage.students;
      }
      forall s <- db.students | db.students[s].subject == Some(id) ensures s in usage.students { }
      forall g <- db.groups | db.groups[g].subject == Some(id) ensures g in usage.groups { }
    }
    assert usage.upcomingLessons == 0 <==> UpcomingOf(db, id, now) == {};
    if HideSubject(db, me, id, now).Ok? {
      var after := HideSubject(db, me, id, now).value;
      forall later | later >= now ensures UpcomingOf(after, id, later) == {} {
        assert UpcomingOf(after, id, later) <= UpcomingOf(db, id, now);
      }
    }
  }

  // ----- What a request does to the schedule and to the hidden subjects -----

  /** No lesson appears or changes in any way. */
  ghost predicate KeepsLessons(db: Db, after: Db) {
    forall l <- after.lessons :: l in db.lessons && after.lessons[l] == db.lessons[l]
  }

  /** No hidden subject comes back. */
  ghost predicate KeepsHidden(db: Db, after: Db) {
    forall s <- db.subjects :: s in after.subjects && (db.subjects[s].hiddenAt.Some? ==> after.subjects[s].hiddenAt.Some?)
  }

  ghost predicate KeepsSchedule(db: Db, after: Db) {
    KeepsLessons(db, after) && KeepsHidden(db, after)
  }

  lemma StudentsKeepSchedule(db: Db, me: Id, id: Id, new_: NewStudent, patch: StudentPatch)
    requires me in db.users
    ensures CreateStudent(db, me, new_).Ok? ==> KeepsSchedule(db, CreateStudent(db, me, new_).value)
    ensures UpdateStudent(db, me, id, patch).Ok? ==> KeepsSchedule(db, UpdateStudent(db, me, id, patch).value)
  {
    hide ResolveSubject, FindStudent, Trim;
  }

  lemma GroupsKeepSchedule(db: Db, me: Id, id: Id, new_: NewGroup, patch: GroupPatch)
    requires me in db.users
    ensures CreateGroup(db, me, new_).Ok? ==> KeepsSchedule(db, CreateGroup(db, me, new_).value)
    ensures UpdateGroup(db, me, id, patch).Ok? ==> KeepsSchedule(db, UpdateGroup(db, me, id, patch).value)
  {
    hide ResolveSubject, FindGroup, Trim, BlankToNull;
  }

  lemma RemovalsKeepSchedule(db: Db, me: Id, id: Id)
    requires me in db.users
    ensures RemoveStudent(db, me, id).Ok? ==> KeepsSchedule(db, RemoveStudent(db, me, id).value)
    ensures RemoveGroup(db, me, id).Ok? ==> KeepsSchedule(db, RemoveGroup(db, me, id).value)
  {
    hide FindStudent, FindGroup, Detached;
  }

  lemma PlacesKeepSchedule(db: Db, me: Id, id: Id, student: Id)
    requires me in db.users
    ensures AddMember(db, me, id, student).Ok? ==> KeepsSchedule(db, AddMember(db, me, id, student).value)
    ensures RemoveMember(db, me, id, student).Ok? ==> KeepsSchedule(db, RemoveMember(db, me, id, student).value)
  {
    hide FindStudent, FindGroup;
  }

  lemma NewGradesKeepSchedule(db: Db, me: Id, id: Id, dto: WriteGrade, now: Time)
    requires me in db.users
    ensures AddGradeForStudent(db, me, id, dto, now).Ok? ==>
              KeepsSchedule(db, AddGradeForStudent(db, me, id, dto, now).value)
    ensures AddGradeForLesson(db, me, id, dto, now).Ok? ==>
              KeepsSchedule(db, AddGradeForLesson(db, me, id, dto, now).value)
  {
    hide FindStudent, FindLesson, InScale, ResolveMarked, BlankToNull;
  }

  lemma OldGradesKeepSchedule(db: Db, me: Id, id: Id, dto: WriteGrade)
    requires me in db.users
    ensures CorrectGrade(db, me, id, dto).Ok? ==> KeepsSchedule(db, CorrectGrade(db, me, id, dto).value)
    ensures RemoveGrade(db, me, id).Ok? ==> KeepsSchedule(db, RemoveGrade(db, me, id).value)
  {
    hide FindWritableGrade, InScale, BlankToNull;
  }

  lemma SubjectsKeepSchedule(db: Db, me: Id, id: Id, name: string, now: Time)
    requires me in db.users && IdsSpent(db)
    ensures CreateSubject(db, me, name).Ok? ==> KeepsSchedule(db, CreateSubject(db, me, name).value)
    ensures RenameSubject(db, me, id, name).Ok? ==> KeepsSchedule(db, RenameSubject(db, me, id, name).value)
    ensures HideSubject(db, me, id, now).Ok? ==> KeepsSchedule(db, HideSubject(db, me, id, now).value)
  {
    hide Namesakes, NameTaken, UsageOf, Trim;
  }

  /** The requests that can change the schedule, or bring a subject back. */
  predicate TouchesSchedule(request: Request) {
    request.AskBookLesson? || request.AskSetStatus? || request.AskWriteJournal? || request.AskRestoreSubject?
  }

  lemma OtherRequestsKeepSchedule(db: Db, me: Id, request: Request)
    requires IdsSpent(db) && me in db.users && Serve(db, me, request).Ok? && !TouchesSchedule(request)
    ensures KeepsSchedule(db, Serve(db, me, request).value)
  {
    hide KeepsSchedule, IdsSpent;
    if request.AskCreateSubject? || request.AskRenameSubject? || request.AskHideSubject? {
      SubjectRequestsKeepSchedule(db, me, request);
    } else if request.AskGradeStudent? || request.AskGradeInLesson? || request.AskCorrectGrade? || request.AskRemoveGrade? {
      GradeRequestsKeepSchedule(db, me, request);
    } else {
      PeopleRequestsKeepSchedule(db, me, request);
    }
  }

  lemma SubjectRequestsKeepSchedule(db: Db, me: Id, request: Request)
    requires IdsSpent(db) && me in db.users && Serve(db, me, request).Ok?
    requires request.AskCreateSubject? || request.AskRenameSubject? || request.AskHideSubject?
    ensures KeepsSchedule(db, Serve(db, me, request).value)
  {
    hide KeepsSchedule, IdsSpent, CreateSubject, RenameSubject, HideSubject;
    if request.AskCreateSubject? { SubjectsKeepSchedule(db, me, 0, request.name, 0); }
    if request.AskRenameSubject? { SubjectsKeepSchedule(db, me, request.id, request.name, 0); }
    if request.AskHideSubject? { SubjectsKeepSchedule(db, me, request.id, "", request.now); }
  }

  lemma GradeRequestsKeepSchedule(db: Db, me: Id, request: Request)
    requires me in db.users && Serve(db, me, request).Ok?
    requires request.AskGradeStudent? || request.AskGradeInLesson? || request.AskCorrectGrade? || request.AskRemoveGrade?
    ensures KeepsSchedule(db, Serve(db, me, request).value)
  {
    hide KeepsSchedule, AddGradeForStudent, AddGradeForLesson, CorrectGrade, RemoveGrade;
    var none := WriteGrade(None, Classic, None, None, None, None);
    if request.AskGradeStudent? || request.AskGradeInLesson? {
      NewGradesKeepSchedule(db, me, request.id, request.grade, request.now);
    } else {
      OldGradesKeepSchedule(db, me, request.id, if request.AskCorrectGrade? then request.grade else none);
    }
  }

  lemma PeopleRequestsKeepSchedule(db: Db, me: Id, request: Request)
    requires me in db.users && Serve(db, me, request).Ok?
    requires request.AskCreateStudent? || request.AskUpdateStudent? || request.AskRemoveStudent? || request.AskCreateGroup?
             || request.AskUpdateGroup? || request.AskRemoveGroup? || request.AskAddMember? || request.AskRemoveMember?
    ensures KeepsSchedule(db, Serve(db, me, request).value)
  {
    hide KeepsSchedule, CreateStudent, UpdateStudent, RemoveStudent, CreateGroup, UpdateGroup, RemoveGroup, AddMember,
      RemoveMember;
    match request
    case AskCreateStudent(dto) => StudentsKeepSchedule(db, me, 0, dto, StudentPatch(None, None, None));
    case AskUpdateStudent(id, patch) => StudentsKeepSchedule(db, me, id, NewStudent("", None, None), patch);
    case AskRemoveStudent(id) => RemovalsKeepSchedule(db, me, id);
    case AskCreateGroup(dto) => GroupsKeepSchedule(db, me, 0, dto, GroupPatch(None, None, None));
    case AskUpdateGroup(id, patch) => GroupsKeepSchedule(db, me, id, NewGroup("", 0, None), patch);
    case AskRemoveGroup(id) => RemovalsKeepSchedule(db, me, id);
    case AskAddMember(id, student) => PlacesKeepSchedule(db, me, id, student);
    case AskRemoveMember(id, student) => PlacesKeepSchedule(db, me, id, student);
  }

  // ----- A retired subject, over every request -----

  predicate AheadIn(db: Db, lesson: Id, subject: Id, now: Time) {
    lesson in db.lessons && db.lessons[lesson].subject == Some(subject) && db.lessons[lesson].startsAt >= now
  }

  /** The request is accepted, is a status move or a write-up of one of the subject's own lessons to come, and leaves that
      lesson on: by the status it names, or by the one its marks imply. */
  predicate PutsBackOn(db: Db, step: Step, subject: Id, now: Time) {
    && Exec(db, step).Ok? && step.Ask?
    && match step.request
       case AskSetStatus(id, status) => AheadIn(db, id, subject, now) && status != Cancelled
       case AskWriteJournal(id, dto) => AheadIn(db, id, subject, now) && Described(db.lessons[id], dto).status != Cancelled
       case _ => false
  }

  /** One lesson is given another status and write-up. */
  lemma OneLessonMoved(db: Db, after: Db, lesson: Id, subject: Id, now: Time)
    requires UpcomingOf(db, subject, now) == {} && lesson in db.lessons && after.lessons.Keys == db.lessons.Keys
    requires forall l <- db.lessons :: l != lesson ==> after.lessons[l] == db.lessons[l]
    requires Booking(after.lessons[lesson]) == Booking(db.lessons[lesson])
    ensures UpcomingOf(after, subject, now) == {}
       <==> !(AheadIn(db, lesson, subject, now) && after.lessons[lesson].status != Cancelled)
  {
    forall l <- after.lessons | l != lesson ensures l !in UpcomingOf(after, subject, now) {
      assert l !in UpcomingOf(db, subject, now);
    }
    assert after.lessons[lesson].subject == db.lessons[lesson].subject;
    assert lesson in UpcomingOf(after, subject, now)
      <==> AheadIn(db, lesson, subject, now) && after.lessons[lesson].status != Cancelled;
  }

  lemma MovesKeepRetirementIff(db: Db, me: Id, request: Request, subject: Id, now: Time)
    requires me in db.users && UpcomingOf(db, subject, now) == {} && Serve(db, me, request).Ok?
    requires request.AskSetStatus? || request.AskWriteJournal?
    ensures UpcomingOf(Serve(db, me, request).value, subject, now) == {}
       <==> !(AheadIn(db, request.id, subject, now)
              && (if request.AskSetStatus? then request.status
                  else Described(db.lessons[request.id], request.journal).status) != Cancelled)
  {
    if request.AskWriteJournal? { WriteMarksFrame(db, request.id, request.journal.attendance); }
    hide WriteMarks, UpcomingOf, StudentsOf, OnePerStudent, StatusFromRegister, BlankToNull, AheadIn;
    OneLessonMoved(db, Serve(db, me, request).value, request.id, subject, now);
  }

  /** Booking adds one lesson, in no hidden subject. */
  lemma BookingKeepsRetirement(db: Db, me: Id, dto: NewLesson, subject: Id, now: Time)
    requires Sound(db) && me in db.users && UpcomingOf(db, subject, now) == {} && BookLesson(db, me, dto).Ok?
    requires subject in db.subjects && db.subjects[subject].hiddenAt.Some?
    ensures UpcomingOf(BookLesson(db, me, dto).value, subject, now) == {}
  {
    BookedOnOffer(db, me, dto);
    var after := BookLesson(db, me, dto).value;
    hide BookLesson, Sound;
    forall l <- after.lessons ensures l !in UpcomingOf(after, subject, now) {
      if l in db.lessons && l != db.nextId { assert l !in UpcomingOf(db, subject, now); }
    }
  }

  lemma FewerLessonsStayRetired(db: Db, after: Db, subject: Id, now: Time)
    requires KeepsLessons(db, after) && UpcomingOf(db, subject, now) == {}
    ensures UpcomingOf(after, subject, now) == {}
  {
    forall l <- after.lessons ensures l !in UpcomingOf(after, subject, now) {
      assert l !in UpcomingOf(db, subject, now);
    }
  }

  /** A hidden subject with nothing upcoming stays so through any one request if and only if the request does not put one
      of its own lessons to come back on. Retirement holds back bookings, and nothing else. */
  lemma RetirementKeptIff(db: Db, step: Step, subject: Id, now: Time)
    requires Sound(db) && subject in db.subjects && db.subjects[subject].hiddenAt.Some?
    requires UpcomingOf(db, subject, now) == {}
    ensures UpcomingOf(Next(db, step), subject, now) == {} <==> !PutsBackOn(db, step, subject, now)
  {
    if Exec(db, step).Ok? && step.Ask? {
      ServedRetirementKeptIff(db, step.me, step.request, subject, now);
    } else {
      FewerLessonsStayRetired(db, Next(db, step), subject, now);
    }
    hide Sound, Serve, UpcomingOf, Described;
  }

  lemma ServedRetirementKeptIff(db: Db, me: Id, request: Request, subject: Id, now: Time)
    requires Sound(db) && me in db.users && Serve(db, me, request).Ok?
    requires subject in db.subjects && db.subjects[subject].hiddenAt.Some? && UpcomingOf(db, subject, now) == {}
    ensures UpcomingOf(Serve(db, me, request).value, subject, now) == {}
       <==> !match request
            case AskSetStatus(id, status) => AheadIn(db, id, subject, now) && status != Cancelled
            case AskWriteJournal(id, dto) => AheadIn(db, id, subject, now) && Described(db.lessons[id], dto).status != Cancelled
            case _ => false
  {
    hide Closed, Retired, NamesApart, NamesTrimmed, Described, UpcomingOf;
    if request.AskSetStatus? || request.AskWriteJournal? {
      MovesKeepRetirementIff(db, me, request, subject, now);
    } else if request.AskBookLesson? {
      BookingKeepsRetirement(db, me, request.newLesson, subject, now);
    } else {
      if request.AskRestoreSubject? {
        assert KeepsLessons(db, RestoreSubject(db, me, request.id).value);
      } else {
        OtherRequestsKeepSchedule(db, me, request);
      }
      FewerLessonsStayRetired(db, Serve(db, me, request).value, subject, now);
    }
  }

  predicate BringsBack(db: Db, step: Step, subject: Id) {
    Exec(db, step).Ok? && step.Ask? && step.request == AskRestoreSubject(subject)
  }

  /** A subject stays hidden until it is restored. */
  lemma HiddenUntilRestored(db: Db, step: Step, subject: Id)
    requires Sound(db) && subject in db.subjects && db.subjects[subject].hiddenAt.Some? && !BringsBack(db, step, subject)
    ensures subject in Next(db, step).subjects && Next(db, step).subjects[subject].hiddenAt.Some?
  {
    hide Closed, Retired, NamesApart, NamesTrimmed, KeepsLessons;
    if Exec(db, step).Ok? && step.Ask? {
      var me, request := step.me, step.request;
      assert Next(db, step) == Serve(db, me, request).value;
      if TouchesSchedule(request) {
        ScheduleKeepsSubjects(db, me, request);
      } else {
        OtherRequestsKeepSchedule(db, me, request);
      }
      hide Serve;
    }
  }

  /** Of the requests about lessons, none touches a subject; restoring touches its own. */
  lemma ScheduleKeepsSubjects(db: Db, me: Id, request: Request)
    requires me in db.users && Serve(db, me, request).Ok? && TouchesSchedule(request)
    ensures forall s <- db.subjects :: request != AskRestoreSubject(s) ==>
              s in Serve(db, me, request).value.subjects && Serve(db, me, request).value.subjects[s] == db.subjects[s]
  {
    if request.AskWriteJournal? { WriteMarksFrame(db, request.id, request.journal.attendance); }
    hide WriteMarks, StudentsOf, ResolveSubject, FindGroup, FindStudent, OnePerStudent, Described;
  }

  /** Over any run in which the subject is not restored and none of its lessons to come is put back on, it stays hidden and
      nothing in it becomes upcoming. */
  lemma {:induction false} RetirementLasts(db: Db, steps: seq<Step>, subject: Id, now: Time)
    requires Sound(db) && subject in db.subjects && db.subjects[subject].hiddenAt.Some?
    requires UpcomingOf(db, subject, now) == {}
    requires forall n :: 0 <= n < |steps| ==>
      var so := RunFrom(db, steps[..n]); !PutsBackOn(so, steps[n], subject, now) && !BringsBack(so, steps[n], subject)
    ensures var after := RunFrom(db, steps);
      subject in after.subjects && after.subjects[subject].hiddenAt.Some? && UpcomingOf(after, subject, now) == {}
  {
    hide Sound, PutsBackOn, BringsBack, UpcomingOf, Next;
    if steps != [] {
      var front, last := steps[..|steps| - 1], steps[|steps| - 1];
      forall n | 0 <= n < |front|
        ensures var so := RunFrom(db, front[..n]);
          !PutsBackOn(so, front[n], subject, now) && !BringsBack(so, front[n], subject)
      {
        assert front[..n] == steps[..n];
      }
      RetirementLasts(db, front, subject, now);
      RunFromKeeps(db, front);
      RetirementKeptIff(RunFrom(db, front), last, subject, now);
      HiddenUntilRestored(RunFrom(db, front), last, subject);
    }
  }

  predicate Comeback(request: Request) {
    request in {
      AskSetStatus(4, Scheduled),
      AskWriteJournal(4, Journal(None, None, [], Some(Scheduled))),
      AskWriteJournal(4, Journal(None, None, [Mark(3, Present, None)], None))}
  }

  lemma ComebackIsAccepted(request: Request)
    requires Comeback(request)
    ensures PutsBackOn(Scenes.HIDDEN, Ask(1, request), 2, 50)
  {
    var db, marks := Scenes.HIDDEN, [Mark(3, Present, None)];
    assert StudentsOf(db, db.lessons[4]) == {3};
    assert Charged(marks[0].status) && StatusFromRegister(marks) == Some(Completed);
    hide WriteMarks, StudentsOf, BlankToNull, Charged;
  }

  /** A lesson cancelled, its subject retired, and the lesson put back on: by a status move, by a write-up that names the
      status, and by one whose marks imply it. */
  lemma CancelledLessonCanReturn(request: Request)
    requires Comeback(request)
    ensures var db := Run(Scenes.RETIRED + [Ask(1, request)]);
      && 2 in Run(Scenes.RETIRED).subjects && UpcomingOf(Run(Scenes.RETIRED), 2, 50) == {}
      && 2 in db.subjects && db.subjects[2].hiddenAt.Some? && UpcomingOf(db, 2, 50) != {}
  {
    Scenes.SubjectIsHidden();
    Scenes.RunOneMore(Scenes.RETIRED, Ask(1, request));
    RunIsSound(Scenes.RETIRED);
    ComebackIsAccepted(request);
    assert UpcomingOf(Scenes.HIDDEN, 2, 50) == {};
    assert !BringsBack(Scenes.HIDDEN, Ask(1, request), 2);
    hide Run, Sound, Next, PutsBackOn, BringsBack, Comeback, UpcomingOf;
    RetirementKeptIff(Scenes.HIDDEN, Ask(1, request), 2, 50);
    HiddenUntilRestored(Scenes.HIDDEN, Ask(1, request), 2);
  }

  // ----- Lessons through retirement -----

  /** What a lesson is about, for whom, when and where: everything but its status and its write-up. */
  function Booking(lesson: Lesson): Lesson {
    lesson.(status := Scheduled, topic := None, homework := None)
  }

  ghost predicate KeepsBookings(db: Db, after: Db) {
    forall l <- after.lessons :: l in db.lessons && Booking(after.lessons[l]) == Booking(db.lessons[l])
  }

  /** A lesson is booked in a subject of the caller's own school that is on offer at that moment. */
  lemma BookedOnOffer(db: Db, me: Id, dto: NewLesson)
    requires me in db.users && BookLesson(db, me, dto).Ok?
    ensures var after := BookLesson(db, me, dto).value;
      && after.lessons.Keys == db.lessons.Keys + {db.nextId}
      && (forall l <- db.lessons :: l != db.nextId ==> after.lessons[l] == db.lessons[l])
      && after.lessons[db.nextId].subject == dto.subject
      && OnOffer(db, dto.subject) && SubjectOf(db, db.users[me].school, dto.subject)
  {
    ResolvedSubject(db, me, dto.subject, None);
  }

  /** One request: a lesson that was there keeps its booking, and one that was not is booked in a subject on offer. */
  lemma StepKeepsBookings(db: Db, step: Step, lesson: Id)
    requires Sound(db) && lesson in Next(db, step).lessons
    ensures lesson in db.lessons ==> Booking(Next(db, step).lessons[lesson]) == Booking(db.lessons[lesson])
    ensures lesson !in db.lessons ==> lesson == db.nextId && OnOffer(db, Next(db, step).lessons[lesson].subject)
  {
    hide Closed, Retired, NamesApart, NamesTrimmed;
    var after := Next(db, step);
    if Exec(db, step).Ok? && step.Ask? {
      var me, request := step.me, step.request;
      assert after == Serve(db, me, request).value;
      if request.AskBookLesson? {
        BookedOnOffer(db, me, request.newLesson);
      } else {
        ServeKeepsBookings(db, me, request);
      }
    }
  }

  lemma ServeKeepsBookings(db: Db, me: Id, request: Request)
    requires IdsSpent(db) && me in db.users && Serve(db, me, request).Ok? && !request.AskBookLesson?
    ensures KeepsBookings(db, Serve(db, me, request).value)
  {
    hide IdsSpent;
    if !TouchesSchedule(request) {
      OtherRequestsKeepSchedule(db, me, request);
      hide Serve;
    } else {
      if request.AskWriteJournal? { WriteMarksFrame(db, request.id, request.journal.attendance); }
      hide WriteMarks, StatusFromRegister, StudentsOf, BlankToNull, OnePerStudent;
    }
  }

  /** Over any run, through every hide, rename and restore: a lesson still there is about what it was booked as. */
  lemma {:induction false} RunKeepsBookings(db: Db, steps: seq<Step>, lesson: Id)
    requires Sound(db) && lesson < db.nextId && lesson in RunFrom(db, steps).lessons
    ensures lesson in db.lessons && Booking(RunFrom(db, steps).lessons[lesson]) == Booking(db.lessons[lesson])
    ensures db.nextId <= RunFrom(db, steps).nextId
  {
    if steps != [] {
      var front, last := steps[..|steps| - 1], steps[|steps| - 1];
      RunFromKeeps(db, front);
      RunIdsGrow(db, front);
      StepKeepsBookings(RunFrom(db, front), last, lesson);
      RunKeepsBookings(db, front, lesson);
    }
    RunIdsGrow(db, steps);
  }

  lemma {:induction false} RunIdsGrow(db: Db, steps: seq<Step>)
    ensures db.nextId <= RunFrom(db, steps).nextId
  {
    if steps != [] {
      RunIdsGrow(db, steps[..|steps| - 1]);
      Ledger.NextIdGrows(RunFrom(db, steps[..|steps| - 1]), steps[|steps| - 1]);
    }
  }
}

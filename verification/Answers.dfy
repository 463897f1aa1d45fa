/** What each request answers, said of the rows themselves: when it is accepted, how it is refused, what it stores. */
module Answers {
  import opened Foundations
  import opened Text
  import opened Books
  import Soundness

  // ----- Who may ask for what -----

  /** An admin reaches every row of the school, a tutor their own. */
  predicate Reaches(db: Db, me: Id, school: Id, tutor: Id)
    requires me in db.users
  {
    db.users[me].school == school && (db.users[me].role == Admin || tutor == me)
  }

  predicate MyStudent(db: Db, me: Id, id: Id)
    requires me in db.users
  {
    id in db.students && Reaches(db, me, db.students[id].school, db.students[id].tutor)
  }

  predicate MyGroup(db: Db, me: Id, id: Id)
    requires me in db.users
  {
    id in db.groups && Reaches(db, me, db.groups[id].school, db.groups[id].tutor)
  }

  predicate MyLesson(db: Db, me: Id, id: Id)
    requires me in db.users
  {
    id in db.lessons && Reaches(db, me, db.lessons[id].school, db.lessons[id].tutor)
  }

  /** A mark on a student the caller reaches, and their own unless they are an admin. */
  predicate MyMark(db: Db, me: Id, id: Id)
    requires me in db.users
  {
    id in db.grades && MyStudent(db, me, db.grades[id].student) && (db.grades[id].author == me || db.users[me].role == Admin)
  }

  predicate OurSubject(db: Db, me: Id, id: Id)
    requires me in db.users
  {
    id in db.subjects && db.subjects[id].school == db.users[me].school
  }

  /** None, or a subject of the school that is on offer or was there already. */
  predicate MayTakeUp(db: Db, me: Id, wanted: Option<Id>, current: Option<Id>)
    requires me in db.users
  {
    wanted.Some? ==>
      OurSubject(db, me, wanted.value) && (db.subjects[wanted.value].hiddenAt.None? || wanted == current)
  }

  /** The lesson names the student, or is for a group the student is in. */
  predicate Attends(db: Db, lesson: Lesson, student: Id) {
    if lesson.student.Some? then lesson.student == Some(student)
    else lesson.group.Some? && Place(lesson.group.value, student) in db.members
  }

  /** Every mark is for somebody the lesson is for, and no student has two. */
  predicate MarksFit(db: Db, lesson: Lesson, marks: seq<Mark>) {
    && (forall i :: 0 <= i < |marks| ==> Attends(db, lesson, marks[i].student))
    && (forall i, j :: 0 <= i < j < |marks| ==> marks[i].student != marks[j].student)
  }

  predicate OnOurScale(db: Db, me: Id, dto: WriteGrade)
    requires me in db.users
  {
    match dto.kind
    case Descriptive => true
    case Percentage => dto.value.Some? ==> dto.value.value <= 100.0
    case Classic =>
      dto.value.Some? ==>
        var school := db.users[me].school;
        school in db.schools && dto.value.value <= db.schools[school].gradeScaleMax as real
  }

  /** Nobody else in the school reads like the name. */
  predicate NameIsFree(db: Db, school: Id, name: string, own: set<Id>) {
    forall s <- db.subjects | s !in own && db.subjects[s].school == school :: Lower(db.subjects[s].name) != Lower(Trim(name))
  }

  /** Nobody studies the subject, and no lesson in it is still to come. */
  predicate OutOfUse(db: Db, id: Id, now: Time) {
    && (forall s <- db.students :: db.students[s].subject != Some(id))
    && (forall g <- db.groups :: db.groups[g].subject != Some(id))
    && (forall l <- db.lessons :: db.lessons[l].subject == Some(id) ==>
          db.lessons[l].startsAt < now || db.lessons[l].status == Cancelled)
  }

  /** Exactly one of the two, and within reach. */
  predicate AudienceFits(db: Db, me: Id, student: Option<Id>, group: Option<Id>)
    requires me in db.users
  {
    match (student, group)
    case (Some(s), None) => MyStudent(db, me, s)
    case (None, Some(g)) => MyGroup(db, me, g)
    case _ => false
  }

  predicate Allowed(db: Db, me: Id, request: Request)
    requires me in db.users
  {
    match request
    case AskCreateStudent(dto) => MayTakeUp(db, me, dto.subject, None)
    case AskUpdateStudent(id, patch) =>
      MyStudent(db, me, id) && (patch.subject.Some? ==> MayTakeUp(db, me, patch.subject.value, db.students[id].subject))
    case AskRemoveStudent(id) => MyStudent(db, me, id)
    case AskCreateGroup(dto) => MayTakeUp(db, me, Some(dto.subject), None)
    case AskUpdateGroup(id, patch) =>
      MyGroup(db, me, id) && (patch.subject.Some? ==> MayTakeUp(db, me, patch.subject.value, db.groups[id].subject))
    case AskRemoveGroup(id) => MyGroup(db, me, id)
    case AskAddMember(id, student) => MyGroup(db, me, id) && MyStudent(db, me, student)
    case AskRemoveMember(id, _) => MyGroup(db, me, id)
    case AskBookLesson(dto) => AudienceFits(db, me, dto.student, dto.group) && MayTakeUp(db, me, dto.subject, None)
    case AskSetStatus(id, _) => MyLesson(db, me, id)
    case AskWriteJournal(id, dto) => MyLesson(db, me, id) && MarksFit(db, db.lessons[id], dto.attendance)
    case AskGradeStudent(id, dto, _) => MyStudent(db, me, id) && OnOurScale(db, me, dto)
    case AskGradeInLesson(id, dto, _) => MyLesson(db, me, id) && Marked(db, id, dto.student).Some? && OnOurScale(db, me, dto)
    case AskCorrectGrade(id, dto) => MyMark(db, me, id) && OnOurScale(db, me, dto)
    case AskRemoveGrade(id) => MyMark(db, me, id)
    case AskCreateSubject(name) => NameIsFree(db, db.users[me].school, name, {})
    case AskRenameSubject(id, name) => OurSubject(db, me, id) && NameIsFree(db, db.users[me].school, name, {id})
    case AskHideSubject(id, now) => OurSubject(db, me, id) && OutOfUse(db, id, now)
    case AskRestoreSubject(id) => OurSubject(db, me, id)
  }

  /** The student a mark given in a lesson is about: the lesson's own, who need not be named, or the one named. */
  function Marked(db: Db, lesson: Id, named: Option<Id>): (r: Option<Id>)
    requires lesson in db.lessons
    ensures r.Some? ==> Attends(db, db.lessons[lesson], r.value) && (named.Some? ==> named == r)
    ensures r.None? ==> if named.Some? then !Attends(db, db.lessons[lesson], named.value) else db.lessons[lesson].student.None?
  {
    if named.Some? then if Attends(db, db.lessons[lesson], named.value) then named else None
    else db.lessons[lesson].student
  }

  lemma AttendsIffStudent(db: Db, lesson: Lesson, student: Id)
    ensures student in StudentsOf(db, lesson) <==> Attends(db, lesson, student)
  {
    if lesson.student.None? && lesson.group.Some? && Place(lesson.group.value, student) in db.members {
      var p := Place(lesson.group.value, student);
      assert p in db.members && lesson.group == Some(p.group);
    }
  }

  // ----- How a request is refused -----

  /** A student of the school who is a colleague's. */
  predicate Colleagues(db: Db, me: Id, student: Id)
    requires me in db.users
  {
    && student in db.students && db.students[student].school == db.users[me].school
    && db.users[me].role == Tutor && db.students[student].tutor != me
  }

  /** No student of the school. */
  predicate Unseen(db: Db, me: Id, student: Id)
    requires me in db.users
  {
    student in db.students ==> db.students[student].school != db.users[me].school
  }

  predicate NoSubjectOfOurs(db: Db, me: Id, wanted: Option<Id>)
    requires me in db.users
  {
    wanted.Some? && !OurSubject(db, me, wanted.value)
  }

  /** The request is about a colleague's student, or a colleague's mark: it is seen, and not the caller's to touch. */
  predicate Trespasses(db: Db, me: Id, request: Request)
    requires me in db.users
  {
    match request
    case AskUpdateStudent(id, _) => Colleagues(db, me, id)
    case AskRemoveStudent(id) => Colleagues(db, me, id)
    case AskAddMember(id, student) => MyGroup(db, me, id) && Colleagues(db, me, student)
    case AskBookLesson(dto) =>
      dto.group.None? && dto.student.Some? && MayTakeUp(db, me, dto.subject, None) && Colleagues(db, me, dto.student.value)
    case AskGradeStudent(id, _, _) => Colleagues(db, me, id)
    case AskCorrectGrade(id, _) => MarkOfAnother(db, me, id)
    case AskRemoveGrade(id) => MarkOfAnother(db, me, id)
    case _ => false
  }

  predicate MarkOfAnother(db: Db, me: Id, id: Id)
    requires me in db.users
  {
    id in db.grades && !Unseen(db, me, db.grades[id].student) && !MyMark(db, me, id)
  }

  /** Something the request names is not there, for this caller: a group or a lesson of a colleague's is not there either. */
  predicate Misses(db: Db, me: Id, request: Request)
    requires me in db.users
  {
    match request
    case AskCreateStudent(dto) => NoSubjectOfOurs(db, me, dto.subject)
    case AskUpdateStudent(id, patch) => Unseen(db, me, id) || NoSubjectOfOurs(db, me, patch.subject.GetOr(None))
    case AskRemoveStudent(id) => Unseen(db, me, id)
    case AskCreateGroup(dto) => !OurSubject(db, me, dto.subject)
    case AskUpdateGroup(id, patch) => !MyGroup(db, me, id) || NoSubjectOfOurs(db, me, patch.subject.GetOr(None))
    case AskRemoveGroup(id) => !MyGroup(db, me, id)
    case AskAddMember(id, student) => !MyGroup(db, me, id) || Unseen(db, me, student)
    case AskRemoveMember(id, _) => !MyGroup(db, me, id)
    case AskBookLesson(dto) =>
      && dto.student.None? != dto.group.None?
      && (NoSubjectOfOurs(db, me, dto.subject)
          || (MayTakeUp(db, me, dto.subject, None)
              && if dto.group.Some? then !MyGroup(db, me, dto.group.value) else Unseen(db, me, dto.student.value)))
    case AskSetStatus(id, _) => !MyLesson(db, me, id)
    case AskWriteJournal(id, _) => !MyLesson(db, me, id)
    case AskGradeStudent(id, _, _) => Unseen(db, me, id)
    case AskGradeInLesson(id, _, _) => !MyLesson(db, me, id)
    case AskCorrectGrade(id, _) => id in db.grades ==> Unseen(db, me, db.grades[id].student)
    case AskRemoveGrade(id) => id in db.grades ==> Unseen(db, me, db.grades[id].student)
    case AskCreateSubject(_) => false
    case AskRenameSubject(id, _) => !OurSubject(db, me, id)
    case AskHideSubject(id, _) => !OurSubject(db, me, id)
    case AskRestoreSubject(id) => !OurSubject(db, me, id)
  }

  /** A subject of the school that reads like the name is hidden. */
  predicate HiddenNamesake(db: Db, school: Id, name: string, own: set<Id>) {
    exists s <- db.subjects :: s !in own && db.subjects[s].school == school && Lower(db.subjects[s].name) == Lower(Trim(name))
                               && db.subjects[s].hiddenAt.Some?
  }

  /** What a caller is told: whose it is before whether it is there, and whether it is there before what is wrong with it. */
  function Refusal(db: Db, me: Id, request: Request): Error
    requires me in db.users
  {
    if Trespasses(db, me, request) then Forbidden
    else if Misses(db, me, request) then NotFound
    else
      var school := db.users[me].school;
      match request
      case AskCreateSubject(name) =>
        Conflict(if HiddenNamesake(db, school, name, {}) then SubjectHidden else SubjectExists)
      case AskRenameSubject(id, name) =>
        Conflict(if HiddenNamesake(db, school, name, {id}) then SubjectHidden else SubjectExists)
      case AskHideSubject(_, _) => Conflict(SubjectInUse)
      case _ => BadRequest
  }

  /** The request is served if and only if it is allowed, and is refused as said otherwise. */
  ghost predicate Answered(db: Db, me: Id, request: Request)
    requires me in db.users
  {
    if Allowed(db, me, request) then Serve(db, me, request).Ok?
    else Serve(db, me, request) == Err(Refusal(db, me, request))
  }

  lemma StudentAnswered(db: Db, me: Id, request: Request)
    requires me in db.users
    requires request.AskCreateStudent? || request.AskUpdateStudent? || request.AskRemoveStudent?
    ensures Answered(db, me, request)
  {
    hide Trim, DropLessons, DropStudent;
  }

  lemma GroupAnswered(db: Db, me: Id, request: Request)
    requires me in db.users
    requires request.AskCreateGroup? || request.AskUpdateGroup? || request.AskRemoveGroup?
    ensures Answered(db, me, request)
  {
    hide Trim, BlankToNull, DropLessons;
  }

  lemma PlaceAnswered(db: Db, me: Id, request: Request)
    requires me in db.users && (request.AskAddMember? || request.AskRemoveMember?)
    ensures Answered(db, me, request)
  {
  }

  lemma BookingAnswered(db: Db, me: Id, request: Request)
    requires me in db.users && (request.AskBookLesson? || request.AskSetStatus?)
    ensures Answered(db, me, request)
  {
  }

  lemma JournalAnswered(db: Db, me: Id, request: Request)
    requires me in db.users && request.AskWriteJournal?
    ensures Answered(db, me, request)
  {
    if MyLesson(db, me, request.id) {
      var lesson, marks := db.lessons[request.id], request.journal.attendance;
      forall i | 0 <= i < |marks|
        ensures marks[i].student in StudentsOf(db, lesson) <==> Attends(db, lesson, marks[i].student)
      {
        AttendsIffStudent(db, lesson, marks[i].student);
      }
      hide StudentsOf, Attends;
    }
    hide WriteMarks, Described;
  }

  lemma NewGradeAnswered(db: Db, me: Id, request: Request)
    requires me in db.users && (request.AskGradeStudent? || request.AskGradeInLesson?) && db.users[me].school in db.schools
    ensures Answered(db, me, request)
  {
    if request.AskGradeInLesson? && request.id in db.lessons && request.grade.student.Some? {
      AttendsIffStudent(db, db.lessons[request.id], request.grade.student.value);
    }
    hide StudentsOf, GradeFrom;
  }

  lemma OldGradeAnswered(db: Db, me: Id, request: Request)
    requires me in db.users && (request.AskCorrectGrade? || request.AskRemoveGrade?) && db.users[me].school in db.schools
    ensures Answered(db, me, request)
  {
    hide GradeFrom;
  }

  lemma NamesakesAre(db: Db, school: Id, name: string, own: set<Id>)
    ensures Namesakes(db, school, Trim(name)) - own == {} <==> NameIsFree(db, school, name, own)
    ensures (exists s <- Namesakes(db, school, Trim(name)) - own :: db.subjects[s].hiddenAt.Some?)
       <==> HiddenNamesake(db, school, name, own)
  {
    hide Trim, Lower;
    forall s <- db.subjects | s !in own && db.subjects[s].school == school && Lower(db.subjects[s].name) == Lower(Trim(name))
      ensures s in Namesakes(db, school, Trim(name)) - own
    {
    }
  }

  lemma NewNameAnswered(db: Db, me: Id, request: Request)
    requires me in db.users && request.AskCreateSubject?
    ensures Answered(db, me, request)
  {
    var taken := Namesakes(db, db.users[me].school, Trim(request.name));
    NamesakesAre(db, db.users[me].school, request.name, {});
    assert taken - {} == taken;
    hide Trim, Lower, Namesakes, NameIsFree, HiddenNamesake;
  }

  lemma RenameAnswered(db: Db, me: Id, request: Request)
    requires me in db.users && request.AskRenameSubject?
    ensures Answered(db, me, request)
  {
    NamesakesAre(db, db.users[me].school, request.name, {request.id});
    hide Trim, Lower, Namesakes, NameIsFree, HiddenNamesake;
  }

  lemma OfferAnswered(db: Db, me: Id, request: Request)
    requires me in db.users && (request.AskHideSubject? || request.AskRestoreSubject?)
    ensures Answered(db, me, request)
  {
    if request.AskHideSubject? {
      UseIsCounted(db, request.id, request.now);
      hide UsageOf, OutOfUse;
    }
  }

  lemma UseIsCounted(db: Db, id: Id, now: Time)
    ensures UsageOf(db, id, now).CanHide() <==> OutOfUse(db, id, now)
  {
    var usage, upcoming := UsageOf(db, id, now), UpcomingOf(db, id, now);
    assert usage.upcomingLessons == 0 <==> upcoming == {};
    forall s <- db.students | db.students[s].subject == Some(id) ensures s in usage.students { }
    forall g <- db.groups | db.groups[g].subject == Some(id) ensures g in usage.groups { }
    forall l <- db.lessons
      | db.lessons[l].subject == Some(id) && !(db.lessons[l].startsAt < now || db.lessons[l].status == Cancelled)
      ensures l in upcoming
    {
    }
  }

  /** Every request of every caller: served exactly when it is allowed, and refused for the first thing that is wrong. */
  lemma ServedIff(db: Db, me: Id, request: Request)
    requires me in db.users && db.users[me].school in db.schools
    ensures Answered(db, me, request)
  {
    hide Answered;
    if request.AskCreateStudent? || request.AskUpdateStudent? || request.AskRemoveStudent? {
      StudentAnswered(db, me, request);
    } else if request.AskCreateGroup? || request.AskUpdateGroup? || request.AskRemoveGroup? {
      GroupAnswered(db, me, request);
    } else if request.AskAddMember? || request.AskRemoveMember? {
      PlaceAnswered(db, me, request);
    } else if request.AskBookLesson? || request.AskSetStatus? {
      BookingAnswered(db, me, request);
    } else if request.AskWriteJournal? {
      JournalAnswered(db, me, request);
    } else if request.AskGradeStudent? || request.AskGradeInLesson? {
      NewGradeAnswered(db, me, request);
    } else if request.AskCorrectGrade? || request.AskRemoveGrade? {
      OldGradeAnswered(db, me, request);
    } else if request.AskCreateSubject? {
      NewNameAnswered(db, me, request);
    } else if request.AskRenameSubject? {
      RenameAnswered(db, me, request);
    } else {
      OfferAnswered(db, me, request);
    }
  }

  // ----- From the outside -----

  /** The bounds of a payload: a lesson lasts 5 to 600 minutes, a mark that is not in words has a value from 0, and a weight is
      1 to 20. */
  predicate WithinBounds(request: Request) {
    match request
    case AskBookLesson(dto) => 5 <= dto.minutes && dto.minutes <= 600
    case AskGradeStudent(_, dto, _) => GradeWithinBounds(dto)
    case AskGradeInLesson(_, dto, _) => GradeWithinBounds(dto)
    case AskCorrectGrade(_, dto) => GradeWithinBounds(dto)
    case _ => true
  }

  predicate GradeWithinBounds(dto: WriteGrade) {
    && (dto.kind.Descriptive? || (dto.value.Some? && dto.value.value >= 0.0))
    && (dto.weight.Some? ==> dto.weight.value >= 1 && dto.weight.value <= 20)
  }

  /** After every run of requests: the next one is accepted if and only if it comes from an account, keeps to the bounds of its
      payload, and is allowed. */
  lemma NextIsAccepted(steps: seq<Step>, me: Id, request: Request)
    ensures var db := Run(steps);
      Exec(db, Ask(me, request)).Ok? <==> me in db.users && WithinBounds(request) && Allowed(db, me, request)
    ensures var db := Run(steps);
      Exec(db, Ask(me, request)).Err? ==>
        Exec(db, Ask(me, request)).error
        == if me !in db.users then Unauthorized
           else if !WithinBounds(request) then BadRequest
           else Refusal(db, me, request)
  {
    var db := Run(steps);
    Soundness.RunIsSound(steps);
    assert me in db.users ==> db.users[me].school in db.schools;
    hide Serve, Allowed, Refusal, Run, Soundness.Sound, Soundness.Closed;
    if me in db.users { ServedIff(db, me, request); }
  }
}

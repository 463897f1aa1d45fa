/** The school's tables, and each service call as a function from one state of them to the next. */
module Books {
  import opened Foundations
  import opened Text
  import MeetingProviders

  datatype Role = Tutor | Admin
  datatype LessonStatus = Scheduled | Completed | Cancelled
  datatype AttendanceStatus = Present | Late | AbsentExcused | AbsentUnexcused
  datatype GradeKind = Classic | Percentage | Descriptive

  datatype School = School(gradeScaleMax: int)
  datatype User = User(school: Id, role: Role, name: string)
  datatype Subject = Subject(school: Id, name: string, hiddenAt: Option<Time>)
  datatype Student = Student(school: Id, tutor: Id, name: string, subject: Option<Id>, paidLessonsLeft: int)
  datatype Group = Group(school: Id, tutor: Id, name: string, subject: Option<Id>, level: Option<string>)
  datatype Lesson = Lesson(
    school: Id, tutor: Id, subject: Option<Id>, student: Option<Id>, group: Option<Id>,
    startsAt: Time, minutes: nat, meeting: Option<MeetingProviders.Meeting>,
    status: LessonStatus, topic: Option<string>, homework: Option<string>)
  datatype Attendance = Attendance(status: AttendanceStatus, homeworkDone: Option<bool>)
  datatype Grade = Grade(
    student: Id, lesson: Option<Id>, author: Id, kind: GradeKind, value: Option<real>,
    category: Option<string>, comment: Option<string>, weight: int, createdAt: Time)

  /** The unique key of a membership row. */
  datatype Place = Place(group: Id, student: Id)

  /** The unique key of a register row. */
  datatype Seat = Seat(lesson: Id, student: Id)

  datatype Db = Db(
    schools: map<Id, School>,
    users: map<Id, User>,
    subjects: map<Id, Subject>,
    students: map<Id, Student>,
    groups: map<Id, Group>,
    members: set<Place>,
    lessons: map<Id, Lesson>,
    register: map<Seat, Attendance>,
    grades: map<Id, Grade>,
    nextId: Id)

  const EMPTY := Db(map[], map[], map[], map[], map[], {}, map[], map[], map[], 0)

  // ----- Payloads -----

  datatype NewStudent = NewStudent(name: string, subject: Option<Id>, paidLessonsLeft: Option<nat>)
  /** `subject`: absent leaves it alone, a present None clears it. */
  datatype StudentPatch = StudentPatch(name: Option<string>, subject: Option<Option<Id>>, paidLessonsLeft: Option<nat>)
  datatype NewGroup = NewGroup(name: string, subject: Id, level: Option<string>)
  datatype GroupPatch = GroupPatch(name: Option<string>, subject: Option<Option<Id>>, level: Option<string>)
  /** `meeting` is the link the tutor's settings give at that moment. */
  datatype NewLesson = NewLesson(
    student: Option<Id>, group: Option<Id>, subject: Option<Id>, startsAt: Time, minutes: nat,
    meeting: Option<MeetingProviders.Meeting>)
  /** `homeworkDone`: absent keeps the check that is there, a present None clears it. */
  datatype Mark = Mark(student: Id, status: AttendanceStatus, homeworkDone: Option<Option<bool>>)
  datatype Journal = Journal(
    topic: Option<string>, homework: Option<string>, attendance: seq<Mark>, status: Option<LessonStatus>)
  datatype WriteGrade = WriteGrade(
    student: Option<Id>, kind: GradeKind, value: Option<real>, category: Option<string>, comment: Option<string>,
    weight: Option<int>)

  /** The bounds the request validation puts on a booking. */
  predicate ValidLesson(dto: NewLesson) {
    5 <= dto.minutes <= 600
  }

  /** The bounds the request validation puts on a mark. */
  predicate ValidGrade(dto: WriteGrade) {
    && (dto.kind != Descriptive ==> dto.value.Some? && dto.value.value >= 0.0)
    && (dto.weight.Some? ==> 1 <= dto.weight.value <= 20)
  }

  // ----- Who may reach what -----

  function FindStudent(db: Db, me: Id, id: Id): Result<Student>
    requires me in db.users
  {
    var caller := db.users[me];
    var _ :- Need(id in db.students && db.students[id].school == caller.school, NotFound);
    var _ :- Need(caller.role == Admin || db.students[id].tutor == me, Forbidden);
    Ok(db.students[id])
  }

  function FindGroup(db: Db, me: Id, id: Id): Result<Group>
    requires me in db.users
  {
    var caller := db.users[me];
    var _ :- Need(id in db.groups && db.groups[id].school == caller.school, NotFound);
    var _ :- Need(caller.role == Admin || db.groups[id].tutor == me, NotFound);
    Ok(db.groups[id])
  }

  function FindLesson(db: Db, me: Id, id: Id): Result<Lesson>
    requires me in db.users
  {
    var caller := db.users[me];
    var _ :- Need(id in db.lessons && db.lessons[id].school == caller.school, NotFound);
    var _ :- Need(caller.role == Admin || db.lessons[id].tutor == me, NotFound);
    Ok(db.lessons[id])
  }

  function FindSubject(db: Db, me: Id, id: Id): Result<Subject>
    requires me in db.users
  {
    var _ :- Need(id in db.subjects && db.subjects[id].school == db.users[me].school, NotFound);
    Ok(db.subjects[id])
  }

  /** Turns a client's subject id into one that is safe to store; `current` is exempt from the hidden check. */
  function ResolveSubject(db: Db, me: Id, wanted: Option<Id>, current: Option<Id>): Result<Option<Id>>
    requires me in db.users
  {
    match wanted
    case None => Ok(None)
    case Some(id) =>
      var subject :- FindSubject(db, me, id);
      var _ :- Need(subject.hiddenAt.None? || wanted == current, BadRequest);
      Ok(wanted)
  }

  /** The students a lesson is for: the one it names, or everyone in its group now. */
  function StudentsOf(db: Db, lesson: Lesson): set<Id> {
    if lesson.student.Some? then {lesson.student.value}
    else set p | p in db.members && lesson.group == Some(p.group) :: p.student
  }

  // ----- Schools and accounts -----

  function RegisterSchool(db: Db, gradeScaleMax: int, adminName: string): Db {
    db.(schools := db.schools[db.nextId := School(gradeScaleMax)],
        users := db.users[db.nextId + 1 := User(db.nextId, Admin, adminName)],
        nextId := db.nextId + 2)
  }

  function AddUser(db: Db, school: Id, role: Role, name: string): Result<Db> {
    var _ :- Need(school in db.schools, NotFound);
    Ok(db.(users := db.users[db.nextId := User(school, role, name)], nextId := db.nextId + 1))
  }

  // ----- Students -----

  function CreateStudent(db: Db, me: Id, dto: NewStudent): Result<Db>
    requires me in db.users
  {
    var subject :- ResolveSubject(db, me, dto.subject, None);
    var row := Student(db.users[me].school, me, Trim(dto.name), subject, dto.paidLessonsLeft.GetOr(0));
    Ok(db.(students := db.students[db.nextId := row], nextId := db.nextId + 1))
  }

  function UpdateStudent(db: Db, me: Id, id: Id, dto: StudentPatch): Result<Db>
    requires me in db.users
  {
    var old_ :- FindStudent(db, me, id);
    var subject :-
      if dto.subject.None? then Ok(old_.subject) else ResolveSubject(db, me, dto.subject.value, old_.subject);
    var row := old_.(
      name := if dto.name.Some? then Trim(dto.name.value) else old_.name,
      subject := subject,
      paidLessonsLeft := if dto.paidLessonsLeft.Some? then dto.paidLessonsLeft.value else old_.paidLessonsLeft);
    Ok(db.(students := db.students[id := row]))
  }

  /** Deleting lessons takes their register rows along and leaves marks given in them without a lesson. */
  function DropLessons(db: Db, doomed: set<Id>): Db {
    db.(lessons := db.lessons - doomed,
        register := map k | k in db.register && k.lesson !in doomed :: db.register[k],
        grades := map g | g in db.grades :: Detached(db.grades[g], doomed))
  }

  function Detached(grade: Grade, doomed: set<Id>): Grade {
    if grade.lesson.Some? && grade.lesson.value in doomed then grade.(lesson := None) else grade
  }

  function LessonsOfStudent(db: Db, id: Id): set<Id> {
    set l | l in db.lessons && db.lessons[l].student == Some(id)
  }

  function LessonsOfGroup(db: Db, id: Id): set<Id> {
    set l | l in db.lessons && db.lessons[l].group == Some(id)
  }

  /** Deleting a student row takes their places, register rows and marks along. */
  function DropStudent(db: Db, id: Id): Db {
    db.(students := db.students - {id},
        members := (set p | p in db.members && p.student != id),
        register := map k | k in db.register && k.student != id :: db.register[k],
        grades := map g | g in db.grades && db.grades[g].student != id :: db.grades[g])
  }

  function RemoveStudent(db: Db, me: Id, id: Id): Result<Db>
    requires me in db.users
  {
    var _ :- FindStudent(db, me, id);
    Ok(DropStudent(DropLessons(db, LessonsOfStudent(db, id)), id))
  }

  // ----- Groups -----

  function CreateGroup(db: Db, me: Id, dto: NewGroup): Result<Db>
    requires me in db.users
  {
    var subject :- ResolveSubject(db, me, Some(dto.subject), None);
    var row := Group(db.users[me].school, me, Trim(dto.name), subject, BlankToNull(dto.level));
    Ok(db.(groups := db.groups[db.nextId := row], nextId := db.nextId + 1))
  }

  function UpdateGroup(db: Db, me: Id, id: Id, dto: GroupPatch): Result<Db>
    requires me in db.users
  {
    var old_ :- FindGroup(db, me, id);
    var subject :-
      if dto.subject.None? then Ok(old_.subject) else ResolveSubject(db, me, dto.subject.value, old_.subject);
    var row := old_.(
      name := if dto.name.Some? then Trim(dto.name.value) else old_.name,
      subject := subject,
      level := if dto.level.Some? then BlankToNull(dto.level) else old_.level);
    Ok(db.(groups := db.groups[id := row]))
  }

  function RemoveGroup(db: Db, me: Id, id: Id): Result<Db>
    requires me in db.users
  {
    var _ :- FindGroup(db, me, id);
    var rest := DropLessons(db, LessonsOfGroup(db, id));
    Ok(rest.(
      groups := rest.groups - {id},
      members := (set p | p in rest.members && p.group != id)))
  }

  function AddMember(db: Db, me: Id, group: Id, student: Id): Result<Db>
    requires me in db.users
  {
    var _ :- FindGroup(db, me, group);
    var _ :- FindStudent(db, me, student);
    Ok(db.(members := db.members + {Place(group, student)}))
  }

  function RemoveMember(db: Db, me: Id, group: Id, student: Id): Result<Db>
    requires me in db.users
  {
    var _ :- FindGroup(db, me, group);
    Ok(db.(members := db.members - {Place(group, student)}))
  }

  // ----- Lessons -----

  function BookLesson(db: Db, me: Id, dto: NewLesson): Result<Db>
    requires me in db.users
  {
    var _ :- Need(dto.student.None? != dto.group.None?, BadRequest);
    var subject :- ResolveSubject(db, me, dto.subject, None);
    var common := Lesson(
      db.users[me].school, me, subject, None, None, dto.startsAt, dto.minutes, dto.meeting, Scheduled, None, None);
    var row :- if dto.group.Some?
               then var _ :- FindGroup(db, me, dto.group.value); Ok(common.(group := dto.group))
               else var _ :- FindStudent(db, me, dto.student.value); Ok(common.(student := dto.student));
    Ok(db.(lessons := db.lessons[db.nextId := row], nextId := db.nextId + 1))
  }

  function SetLessonStatus(db: Db, me: Id, id: Id, status: LessonStatus): Result<Db>
    requires me in db.users
  {
    var lesson :- FindLesson(db, me, id);
    Ok(db.(lessons := db.lessons[id := lesson.(status := status)]))
  }

  // ----- The register -----

  /** The cancellation policy: everybody is charged except an excused absence. */
  predicate Charged(status: AttendanceStatus) {
    status != AbsentExcused
  }

  predicate WasCharged(db: Db, seat: Seat) {
    seat in db.register && Charged(db.register[seat].status)
  }

  /** The balance table after `student` is charged one lesson, or given one back. A register row always has
      its student, so the missing case is never met. */
  function Settle(students: map<Id, Student>, student: Id, change: int): map<Id, Student> {
    if student in students
    then students[student := students[student].(paidLessonsLeft := students[student].paidLessonsLeft + change)]
    else students
  }

  /** The homework check a mark leaves: an omitted one keeps what was there, an explicit one is written, null included. */
  function CheckAfter(register: map<Seat, Attendance>, seat: Seat, mark: Mark): Option<bool> {
    if mark.homeworkDone.Some? then mark.homeworkDone.value
    else if seat in register then register[seat].homeworkDone
    else None
  }

  /** The register row a mark leaves. */
  function Written(register: map<Seat, Attendance>, seat: Seat, mark: Mark): Attendance {
    Attendance(mark.status, CheckAfter(register, seat, mark))
  }

  /** One turn of the write-up loop. */
  function WriteMark(db: Db, lesson: Id, mark: Mark): Db {
    var seat := Seat(lesson, mark.student);
    var was, now := WasCharged(db, seat), Charged(mark.status);
    db.(students := if was == now then db.students else Settle(db.students, mark.student, if now then -1 else 1),
        register := db.register[seat := Written(db.register, seat, mark)])
  }

  function WriteMarks(db: Db, lesson: Id, marks: seq<Mark>): Db {
    if marks == [] then db
    else WriteMark(WriteMarks(db, lesson, marks[..|marks| - 1]), lesson, marks[|marks| - 1])
  }

  /** What the marks of one payload say about the lesson they belong to. */
  function StatusFromRegister(marks: seq<Mark>): Option<LessonStatus> {
    if marks == [] then None
    else if exists i :: 0 <= i < |marks| && Charged(marks[i].status) then Some(Completed)
    else Some(Cancelled)
  }

  predicate OnePerStudent(marks: seq<Mark>) {
    forall i, j :: 0 <= i < j < |marks| ==> marks[i].student != marks[j].student
  }

  function Described(lesson: Lesson, dto: Journal): Lesson {
    var status := if dto.status.Some? then dto.status else StatusFromRegister(dto.attendance);
    lesson.(topic := if dto.topic.Some? then BlankToNull(dto.topic) else lesson.topic,
            homework := if dto.homework.Some? then BlankToNull(dto.homework) else lesson.homework,
            status := status.GetOr(lesson.status))
  }

  function WriteJournal(db: Db, me: Id, id: Id, dto: Journal): Result<Db>
    requires me in db.users
  {
    var lesson :- FindLesson(db, me, id);
    var eligible := StudentsOf(db, lesson);
    var _ :- Need(forall i :: 0 <= i < |dto.attendance| ==> dto.attendance[i].student in eligible, BadRequest);
    var _ :- Need(OnePerStudent(dto.attendance), BadRequest);
    var marked := WriteMarks(db, id, dto.attendance);
    Ok(marked.(lessons := marked.lessons[id := Described(lesson, dto)]))
  }

  // ----- Marks -----

  function InScale(db: Db, me: Id, dto: WriteGrade): Result<()>
    requires me in db.users
  {
    if dto.kind == Descriptive || dto.value.None? then Ok(())
    else if dto.kind == Percentage then Need(dto.value.value <= 100.0, BadRequest)
    else
      var school := db.users[me].school;
      var _ :- Need(school in db.schools, NotFound);
      Need(dto.value.value <= db.schools[school].gradeScaleMax as real, BadRequest)
  }

  /** The columns a payload becomes, on a new mark or over an old one. */
  function GradeFrom(dto: WriteGrade, student: Id, lesson: Option<Id>, author: Id, createdAt: Time): Grade {
    Grade(student, lesson, author, dto.kind, if dto.kind == Descriptive then None else dto.value,
          BlankToNull(dto.category), BlankToNull(dto.comment), dto.weight.GetOr(1), createdAt)
  }

  function AddGradeForStudent(db: Db, me: Id, student: Id, dto: WriteGrade, now: Time): Result<Db>
    requires me in db.users
  {
    var _ :- FindStudent(db, me, student);
    var _ :- InScale(db, me, dto);
    Ok(db.(grades := db.grades[db.nextId := GradeFrom(dto, student, None, me, now)], nextId := db.nextId + 1))
  }

  /** Which student a mark filed against a lesson belongs to. */
  function ResolveMarked(db: Db, lesson: Lesson, named: Option<Id>): Result<Id> {
    if lesson.student.Some? then
      var _ :- Need(named.None? || named == lesson.student, BadRequest);
      Ok(lesson.student.value)
    else
      var _ :- Need(named.Some? && named.value in StudentsOf(db, lesson), BadRequest);
      Ok(named.value)
  }

  function AddGradeForLesson(db: Db, me: Id, id: Id, dto: WriteGrade, now: Time): Result<Db>
    requires me in db.users
  {
    var lesson :- FindLesson(db, me, id);
    var student :- ResolveMarked(db, lesson, dto.student);
    var _ :- InScale(db, me, dto);
    Ok(db.(grades := db.grades[db.nextId := GradeFrom(dto, student, Some(id), me, now)], nextId := db.nextId + 1))
  }

  function FindWritableGrade(db: Db, me: Id, id: Id): Result<Grade>
    requires me in db.users
  {
    var _ :- Need(id in db.grades, NotFound);
    var grade := db.grades[id];
    var _ :- FindStudent(db, me, grade.student);
    var _ :- Need(grade.author == me || db.users[me].role == Admin, Forbidden);
    Ok(grade)
  }

  function CorrectGrade(db: Db, me: Id, id: Id, dto: WriteGrade): Result<Db>
    requires me in db.users
  {
    var grade :- FindWritableGrade(db, me, id);
    var _ :- InScale(db, me, dto);
    Ok(db.(grades := db.grades[id := GradeFrom(dto, grade.student, grade.lesson, grade.author, grade.createdAt)]))
  }

  function RemoveGrade(db: Db, me: Id, id: Id): Result<Db>
    requires me in db.users
  {
    var _ :- FindWritableGrade(db, me, id);
    Ok(db.(grades := db.grades - {id}))
  }

  // ----- Subjects -----

  /** The subjects of a school that read as `name`, case aside. */
  function Namesakes(db: Db, school: Id, name: string): set<Id> {
    set s | s in db.subjects && db.subjects[s].school == school && Lower(db.subjects[s].name) == Lower(name)
  }

  function NameTaken(db: Db, taken: set<Id>): Result<()>
    requires taken <= db.subjects.Keys
  {
    var _ :- Need(forall s <- taken :: db.subjects[s].hiddenAt.None?, Conflict(SubjectHidden));
    Need(taken == {}, Conflict(SubjectExists))
  }

  function CreateSubject(db: Db, me: Id, name: string): Result<Db>
    requires me in db.users
  {
    var school := db.users[me].school;
    var _ :- NameTaken(db, Namesakes(db, school, Trim(name)));
    Ok(db.(subjects := db.subjects[db.nextId := Subject(school, Trim(name), None)], nextId := db.nextId + 1))
  }

  function RenameSubject(db: Db, me: Id, id: Id, name: string): Result<Db>
    requires me in db.users
  {
    var subject :- FindSubject(db, me, id);
    var _ :- NameTaken(db, Namesakes(db, db.users[me].school, Trim(name)) - {id});
    Ok(db.(subjects := db.subjects[id := subject.(name := Trim(name))]))
  }

  function UpcomingOf(db: Db, subject: Id, now: Time): set<Id> {
    set l | l in db.lessons && db.lessons[l].subject == Some(subject)
            && db.lessons[l].startsAt >= now && db.lessons[l].status != Cancelled
  }

  function PastOf(db: Db, subject: Id, now: Time): set<Id> {
    set l | l in db.lessons && db.lessons[l].subject == Some(subject)
            && (db.lessons[l].startsAt < now || db.lessons[l].status == Cancelled)
  }

  datatype Usage = Usage(students: set<Id>, groups: set<Id>, upcomingLessons: nat, pastLessons: nat) {
    predicate CanHide() { students == {} && groups == {} && upcomingLessons == 0 }
  }

  function UsageOf(db: Db, id: Id, now: Time): Usage {
    Usage((set s | s in db.students && db.students[s].subject == Some(id)),
          (set g | g in db.groups && db.groups[g].subject == Some(id)),
          |UpcomingOf(db, id, now)|,
          |PastOf(db, id, now)|)
  }

  function HideSubject(db: Db, me: Id, id: Id, now: Time): Result<Db>
    requires me in db.users
  {
    var subject :- FindSubject(db, me, id);
    var _ :- Need(UsageOf(db, id, now).CanHide(), Conflict(SubjectInUse));
    if subject.hiddenAt.Some? then Ok(db)
    else Ok(db.(subjects := db.subjects[id := subject.(hiddenAt := Some(now))]))
  }

  function RestoreSubject(db: Db, me: Id, id: Id): Result<Db>
    requires me in db.users
  {
    var subject :- FindSubject(db, me, id);
    Ok(db.(subjects := db.subjects[id := subject.(hiddenAt := None)]))
  }

  // ----- Runs -----

  /** What a signed-in account may ask for. */
  datatype Request =
    | AskCreateStudent(newStudent: NewStudent)
    | AskUpdateStudent(id: Id, studentPatch: StudentPatch)
    | AskRemoveStudent(id: Id)
    | AskCreateGroup(newGroup: NewGroup)
    | AskUpdateGroup(id: Id, groupPatch: GroupPatch)
    | AskRemoveGroup(id: Id)
    | AskAddMember(id: Id, student: Id)
    | AskRemoveMember(id: Id, student: Id)
    | AskBookLesson(newLesson: NewLesson)
    | AskSetStatus(id: Id, status: LessonStatus)
    | AskWriteJournal(id: Id, journal: Journal)
    | AskGradeStudent(id: Id, grade: WriteGrade, now: Time)
    | AskGradeInLesson(id: Id, grade: WriteGrade, now: Time)
    | AskCorrectGrade(id: Id, grade: WriteGrade)
    | AskRemoveGrade(id: Id)
    | AskCreateSubject(name: string)
    | AskRenameSubject(id: Id, name: string)
    | AskHideSubject(id: Id, now: Time)
    | AskRestoreSubject(id: Id)

  datatype Step =
    | Register(gradeScaleMax: int, adminName: string)
    | Join(school: Id, role: Role, name: string)
    | Ask(me: Id, request: Request)

  /** The payload check made before a service sees the request. */
  predicate ValidRequest(request: Request) {
    match request
    case AskBookLesson(dto) => ValidLesson(dto)
    case AskGradeStudent(_, dto, _) => ValidGrade(dto)
    case AskGradeInLesson(_, dto, _) => ValidGrade(dto)
    case AskCorrectGrade(_, dto) => ValidGrade(dto)
    case _ => true
  }

  function Serve(db: Db, me: Id, request: Request): Result<Db>
    requires me in db.users
  {
    match request
    case AskCreateStudent(dto) => CreateStudent(db, me, dto)
    case AskUpdateStudent(id, dto) => UpdateStudent(db, me, id, dto)
    case AskRemoveStudent(id) => RemoveStudent(db, me, id)
    case AskCreateGroup(dto) => CreateGroup(db, me, dto)
    case AskUpdateGroup(id, dto) => UpdateGroup(db, me, id, dto)
    case AskRemoveGroup(id) => RemoveGroup(db, me, id)
    case AskAddMember(id, student) => AddMember(db, me, id, student)
    case AskRemoveMember(id, student) => RemoveMember(db, me, id, student)
    case AskBookLesson(dto) => BookLesson(db, me, dto)
    case AskSetStatus(id, status) => SetLessonStatus(db, me, id, status)
    case AskWriteJournal(id, dto) => WriteJournal(db, me, id, dto)
    case AskGradeStudent(id, dto, now) => AddGradeForStudent(db, me, id, dto, now)
    case AskGradeInLesson(id, dto, now) => AddGradeForLesson(db, me, id, dto, now)
    case AskCorrectGrade(id, dto) => CorrectGrade(db, me, id, dto)
    case AskRemoveGrade(id) => RemoveGrade(db, me, id)
    case AskCreateSubject(name) => CreateSubject(db, me, name)
    case AskRenameSubject(id, name) => RenameSubject(db, me, id, name)
    case AskHideSubject(id, now) => HideSubject(db, me, id, now)
    case AskRestoreSubject(id) => RestoreSubject(db, me, id)
  }

  function Exec(db: Db, step: Step): Result<Db> {
    match step
    case Register(scale, adminName) => Ok(RegisterSchool(db, scale, adminName))
    case Join(school, role, name) => AddUser(db, school, role, name)
    case Ask(me, request) =>
      var _ :- Need(me in db.users, Unauthorized);
      var _ :- Need(ValidRequest(request), BadRequest);
      Serve(db, me, request)
  }

  /** A refused request changes nothing. */
  function Next(db: Db, step: Step): Db {
    var r := Exec(db, step);
    if r.Ok? then r.value else db
  }

  /** The tables after a run of requests against an empty database. */
  function Run(steps: seq<Step>): Db {
    RunFrom(EMPTY, steps)
  }

  function RunFrom(db: Db, steps: seq<Step>): Db {
    if steps == [] then db else Next(RunFrom(db, steps[..|steps| - 1]), steps[|steps| - 1])
  }
}

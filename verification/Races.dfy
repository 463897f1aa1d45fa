/** What is checked against the subject list and written later: the check and the write as separate database steps. */
module Races {
  import opened Foundations
  import opened Text
  import opened Books
  import opened Soundness
  import Scenes
  import Stored
  import Subjects

  /** The requests that check the subject list first and write later, with nothing to hold it in between. */
  predicate TwoStep(request: Request) {
    || request.AskCreateStudent? || request.AskUpdateStudent? || request.AskCreateGroup? || request.AskUpdateGroup?
    || request.AskBookLesson? || request.AskHideSubject? || request.AskCreateSubject? || request.AskRenameSubject?
  }

  /** The subject a request is about to put on a student or a group. */
  function Taken(request: Request): Option<Id> {
    match request
    case AskCreateStudent(dto) => dto.subject
    case AskUpdateStudent(_, patch) => patch.subject.GetOr(None)
    case AskCreateGroup(dto) => Some(dto.subject)
    case AskUpdateGroup(_, patch) => patch.subject.GetOr(None)
    case _ => None
  }

  /** The rows a write needs are still there: the one it updates, or the one its lesson is for. */
  predicate Lands(db: Db, request: Request) {
    match request
    case AskUpdateStudent(id, _) => id in db.students
    case AskUpdateGroup(id, _) => id in db.groups
    case AskBookLesson(dto) =>
      if dto.group.Some? then dto.group.value in db.groups else dto.student.Some? && dto.student.value in db.students
    case AskHideSubject(id, _) => id in db.subjects
    case AskRenameSubject(id, _) => id in db.subjects
    case _ => true
  }

  function WriteStudent(db: Db, me: Id, request: Request): Db
    requires me in db.users && Lands(db, request) && (request.AskCreateStudent? || request.AskUpdateStudent?)
  {
    match request
    case AskCreateStudent(dto) =>
      var row := Student(db.users[me].school, me, Trim(dto.name), dto.subject, dto.paidLessonsLeft.GetOr(0));
      db.(students := db.students[db.nextId := row], nextId := db.nextId + 1)
    case AskUpdateStudent(id, patch) =>
      var row := db.students[id].(
        name := if patch.name.Some? then Trim(patch.name.value) else db.students[id].name,
        subject := patch.subject.GetOr(db.students[id].subject),
        paidLessonsLeft :=
          if patch.paidLessonsLeft.Some? then patch.paidLessonsLeft.value else db.students[id].paidLessonsLeft);
      db.(students := db.students[id := row])
  }

  function WriteGroup(db: Db, me: Id, request: Request): Db
    requires me in db.users && Lands(db, request) && (request.AskCreateGroup? || request.AskUpdateGroup?)
  {
    match request
    case AskCreateGroup(dto) =>
      var row := Group(db.users[me].school, me, Trim(dto.name), Some(dto.subject), BlankToNull(dto.level));
      db.(groups := db.groups[db.nextId := row], nextId := db.nextId + 1)
    case AskUpdateGroup(id, patch) =>
      var row := db.groups[id].(
        name := if patch.name.Some? then Trim(patch.name.value) else db.groups[id].name,
        subject := patch.subject.GetOr(db.groups[id].subject),
        level := if patch.level.Some? then BlankToNull(patch.level) else db.groups[id].level);
      db.(groups := db.groups[id := row])
  }

  function WriteName(db: Db, me: Id, request: Request): Db
    requires me in db.users && Lands(db, request) && (request.AskCreateSubject? || request.AskRenameSubject?)
  {
    var put :=
      match request
      case AskCreateSubject(name) => Subjects.InsertSubject(db, db.users[me].school, Trim(name))
      case AskRenameSubject(id, name) => Subjects.PutName(db, id, Trim(name));
    if put.Ok? then put.value else db
  }

  /** The write alone. Where a row it needs has gone, or the index refuses it, it writes nothing. */
  function Write(db: Db, me: Id, request: Request): Db
    requires me in db.users
  {
    if !Lands(db, request) then db
    else if request.AskCreateStudent? || request.AskUpdateStudent? then WriteStudent(db, me, request)
    else if request.AskCreateGroup? || request.AskUpdateGroup? then WriteGroup(db, me, request)
    else if request.AskCreateSubject? || request.AskRenameSubject? then WriteName(db, me, request)
    else
      match request
      case AskBookLesson(dto) =>
        var row := Lesson(
          db.users[me].school, me, dto.subject, if dto.group.Some? then None else dto.student, dto.group, dto.startsAt,
          dto.minutes, dto.meeting, Scheduled, None, None);
        db.(lessons := db.lessons[db.nextId := row], nextId := db.nextId + 1)
      case AskHideSubject(id, now) => db.(subjects := db.subjects[id := db.subjects[id].(hiddenAt := Some(now))])
      case _ => db
  }

  /** A request that has been checked, and a subject that was not already hidden. */
  predicate Checks(db: Db, me: Id, request: Request) {
    && me in db.users && TwoStep(request) && Serve(db, me, request).Ok?
    && (request.AskHideSubject? ==> db.subjects[request.id].hiddenAt.None?)
  }

  lemma StudentServed(db: Db, me: Id, request: Request)
    requires Checks(db, me, request) && (request.AskCreateStudent? || request.AskUpdateStudent?)
    ensures Serve(db, me, request) == Ok(Write(db, me, request))
  {
    hide WriteGroup, WriteName;
    hide Trim;
  }

  lemma GroupServed(db: Db, me: Id, request: Request)
    requires Checks(db, me, request) && (request.AskCreateGroup? || request.AskUpdateGroup?)
    ensures Serve(db, me, request) == Ok(Write(db, me, request))
  {
    hide WriteStudent, WriteName;
    hide Trim, BlankToNull;
  }

  lemma LessonServed(db: Db, me: Id, request: Request)
    requires Checks(db, me, request) && request.AskBookLesson?
    ensures Serve(db, me, request) == Ok(Write(db, me, request))
  {
    hide WriteStudent, WriteGroup, WriteName;
  }

  lemma HidingServed(db: Db, me: Id, request: Request)
    requires Checks(db, me, request) && request.AskHideSubject?
    ensures Serve(db, me, request) == Ok(Write(db, me, request))
  {
    hide WriteStudent, WriteGroup, WriteName;
    hide UsageOf;
  }

  /** A name nobody reads is a name the index lets through. */
  lemma NameServed(db: Db, me: Id, request: Request)
    requires Checks(db, me, request) && (request.AskCreateSubject? || request.AskRenameSubject?)
    ensures Serve(db, me, request) == Ok(Write(db, me, request))
  {
    hide WriteStudent, WriteGroup;
    var school, name := db.users[me].school, Trim(request.name);
    forall s <- db.subjects | db.subjects[s].school == school && db.subjects[s].name == name
      ensures s in Namesakes(db, school, name)
    {
    }
    hide Trim, Lower, Namesakes;
  }

  /** With nothing in between, a check and its write are the request as one step. */
  lemma CheckThenWriteIsTheRequest(db: Db, me: Id, request: Request)
    requires Checks(db, me, request)
    ensures Serve(db, me, request) == Ok(Write(db, me, request))
  {
    hide Serve, Write;
    if request.AskCreateStudent? || request.AskUpdateStudent? {
      StudentServed(db, me, request);
    } else if request.AskCreateGroup? || request.AskUpdateGroup? {
      GroupServed(db, me, request);
    } else if request.AskBookLesson? {
      LessonServed(db, me, request);
    } else if request.AskHideSubject? {
      HidingServed(db, me, request);
    } else {
      NameServed(db, me, request);
    }
  }

  // ----- The write alone -----

  /** Another subject of the school has that very name. */
  ghost predicate NameInTheWay(db: Db, school: Id, name: string, own: set<Id>) {
    exists s <- db.subjects :: s !in own && db.subjects[s].school == school && Stored.NameIs(name, db.subjects[s].name)
  }

  lemma IndexRefusesIff(db: Db, school: Id, name: string, own: set<Id>)
    ensures Subjects.IndexRefuses(db, school, Trim(name), own) <==> NameInTheWay(db, school, name, own)
  {
    forall s <- db.subjects ensures db.subjects[s].name == Trim(name) <==> Stored.NameIs(name, db.subjects[s].name) {
      TrimmedIsTrim(name, db.subjects[s].name);
    }
    hide Trim, Stored.NameIs;
  }

  /** Whatever has changed since its check, a write stores what the request asks for, and asks nothing again: it comes to nothing
      only where the row it changes, or the one its lesson is for, has gone, or where another subject has the very name. */
  ghost predicate Stores(db: Db, after: Db, school: Id, me: Id, request: Request) {
    match request
    case AskCreateStudent(dto) => Stored.StudentAdded(db, after, school, me, dto)
    case AskUpdateStudent(id, patch) =>
      if id in db.students then Stored.StudentEdited(db, after, id, patch) else after == db
    case AskCreateGroup(dto) => Stored.GroupAdded(db, after, school, me, dto)
    case AskUpdateGroup(id, patch) => if id in db.groups then Stored.GroupEdited(db, after, id, patch) else after == db
    case AskBookLesson(dto) =>
      if dto.student.None? && dto.group.Some? && dto.group.value in db.groups then Stored.LessonAdded(db, after, school, me, dto)
      else if dto.group.None? && dto.student.Some? && dto.student.value in db.students
      then Stored.LessonAdded(db, after, school, me, dto)
      else after == db || (dto.student.Some? && dto.group.Some?)
    case AskHideSubject(id, now) =>
      after == if id in db.subjects then db.(subjects := db.subjects[id := db.subjects[id].(hiddenAt := Some(now))]) else db
    case AskCreateSubject(name) =>
      if NameInTheWay(db, school, name, {}) then after == db else Stored.SubjectAdded(db, after, school, name)
    case AskRenameSubject(id, name) =>
      if id !in db.subjects || NameInTheWay(db, db.subjects[id].school, name, {id}) then after == db
      else Stored.SubjectRenamed(db, after, id, name)
    case _ => after == db
  }

  lemma NewStudentWritesStore(db: Db, me: Id, request: Request)
    requires me in db.users && request.AskCreateStudent?
    ensures Stores(db, Write(db, me, request), db.users[me].school, me, request)
  {
    Stored.TrimIsName(request.newStudent.name);
    hide WriteGroup, WriteName, Trim, Stored.NameIs;
  }

  lemma StudentEditsStore(db: Db, me: Id, request: Request)
    requires me in db.users && request.AskUpdateStudent?
    ensures Stores(db, Write(db, me, request), db.users[me].school, me, request)
  {
    if request.studentPatch.name.Some? { Stored.TrimIsName(request.studentPatch.name.value); }
    hide WriteGroup, WriteName, Trim, Stored.NameIs;
    var after := Write(db, me, request);
    if request.id in db.students {
      var row := after.students[request.id];
      assert after == db.(students := db.students[request.id := row]);
      hide Write, WriteStudent;
    }
  }

  lemma GroupWritesStore(db: Db, me: Id, request: Request)
    requires me in db.users && (request.AskCreateGroup? || request.AskUpdateGroup?)
    ensures Stores(db, Write(db, me, request), db.users[me].school, me, request)
  {
    if request.AskCreateGroup? {
      Stored.TrimIsName(request.newGroup.name);
      Stored.BlankIsText(request.newGroup.level);
    } else {
      if request.groupPatch.name.Some? { Stored.TrimIsName(request.groupPatch.name.value); }
      Stored.BlankIsText(request.groupPatch.level);
    }
    hide WriteStudent, WriteName, Trim, BlankToNull, Stored.NameIs, Stored.TextIs;
  }

  lemma NameWritesStore(db: Db, me: Id, request: Request)
    requires me in db.users && Naming(request)
    ensures Stores(db, Write(db, me, request), db.users[me].school, me, request)
  {
    Stored.TrimIsName(request.name);
    if request.AskCreateSubject? {
      IndexRefusesIff(db, db.users[me].school, request.name, {});
    } else if request.id in db.subjects {
      IndexRefusesIff(db, db.subjects[request.id].school, request.name, {request.id});
    }
    hide WriteStudent, WriteGroup, Trim, Subjects.IndexRefuses, NameInTheWay, Stored.NameIs;
  }

  lemma WriteStores(db: Db, me: Id, request: Request)
    requires me in db.users
    ensures Stores(db, Write(db, me, request), db.users[me].school, me, request)
  {
    if request.AskCreateStudent? {
      hide Stores, Write;
      NewStudentWritesStore(db, me, request);
    } else if request.AskUpdateStudent? {
      hide Stores, Write;
      StudentEditsStore(db, me, request);
    } else if request.AskCreateGroup? || request.AskUpdateGroup? {
      hide Stores, Write;
      GroupWritesStore(db, me, request);
    } else if Naming(request) {
      hide Stores, Write;
      NameWritesStore(db, me, request);
    } else {
      hide WriteStudent, WriteGroup, WriteName;
    }
  }

  // ----- Interleavings -----

  datatype Pending = Pending(me: Id, request: Request)

  datatype World = World(db: Db, pending: map<nat, Pending>)

  /** `Whole` is any request that is one step, and the opening of accounts. */
  datatype Step = Check(p: nat, me: Id, request: Request) | Finish(p: nat) | Whole(step: Books.Step)

  /** The request has been checked, and its account is still there. */
  predicate Enabled(w: World, p: nat) {
    p in w.pending && w.pending[p].me in w.db.users
  }

  function Take(w: World, step: Step): World {
    match step
    case Check(p, me, request) =>
      if p !in w.pending && Checks(w.db, me, request) then w.(pending := w.pending[p := Pending(me, request)]) else w
    case Finish(p) =>
      if Enabled(w, p)
      then World(Write(w.db, w.pending[p].me, w.pending[p].request), w.pending - {p}) else w
    case Whole(step) => if step.Ask? && TwoStep(step.request) then w else w.(db := Next(w.db, step))
  }

  function RunFrom(w: World, steps: seq<Step>): World {
    if steps == [] then w else Take(RunFrom(w, steps[..|steps| - 1]), steps[|steps| - 1])
  }

  /** One write: every row's subject is its own of before or the one taken up, and only the hidden subject is newly hidden. */
  ghost predicate Moves(db: Db, after: Db, taken: Option<Id>, hidden: Option<Id>) {
    && (forall s <- after.students ::
          (s in db.students && after.students[s].subject == db.students[s].subject)
          || after.students[s].subject.None? || after.students[s].subject == taken)
    && (forall g <- after.groups ::
          (g in db.groups && after.groups[g].subject == db.groups[g].subject)
          || after.groups[g].subject.None? || after.groups[g].subject == taken)
    && (forall k <- after.subjects :: after.subjects[k].hiddenAt.Some? ==>
          hidden == Some(k) || (k in db.subjects && db.subjects[k].hiddenAt.Some?))
  }

  function Hides(request: Request): Option<Id> {
    if request.AskHideSubject? then Some(request.id) else None
  }

  lemma StudentMoves(db: Db, me: Id, request: Request)
    requires me in db.users && (request.AskCreateStudent? || request.AskUpdateStudent?)
    ensures Moves(db, Write(db, me, request), Taken(request), None)
  {
    hide WriteGroup, WriteName;
    hide Trim;
  }

  lemma GroupMoves(db: Db, me: Id, request: Request)
    requires me in db.users && (request.AskCreateGroup? || request.AskUpdateGroup?)
    ensures Moves(db, Write(db, me, request), Taken(request), None)
  {
    hide WriteStudent, WriteName;
    hide Trim, BlankToNull;
  }

  /** One subject named: nobody takes it up, and it is hidden only if it was. */
  lemma SubjectPutMoves(db: Db, after: Db, id: Id, row: Subject)
    requires after == db.(subjects := db.subjects[id := row], nextId := after.nextId)
    requires row.hiddenAt.Some? ==> id in db.subjects && db.subjects[id].hiddenAt.Some?
    ensures Moves(db, after, None, None)
  {
  }

  lemma NothingMoves(db: Db)
    ensures Moves(db, db, None, None)
  {
  }

  lemma NameMoves(db: Db, me: Id, request: Request)
    requires me in db.users && (request.AskCreateSubject? || request.AskRenameSubject?)
    ensures Moves(db, Write(db, me, request), None, None)
  {
    hide WriteStudent, WriteGroup, Moves, Trim, Subjects.IndexRefuses;
    NothingMoves(db);
    var after := Write(db, me, request);
    if after != db {
      if request.AskCreateSubject? {
        SubjectPutMoves(db, after, db.nextId, after.subjects[db.nextId]);
      } else {
        SubjectPutMoves(db, after, request.id, after.subjects[request.id]);
      }
    }
  }

  lemma OtherWritesMove(db: Db, me: Id, request: Request)
    requires me in db.users && !request.AskCreateStudent? && !request.AskUpdateStudent?
    requires !request.AskCreateGroup? && !request.AskUpdateGroup? && !request.AskCreateSubject? && !request.AskRenameSubject?
    ensures Moves(db, Write(db, me, request), Taken(request), Hides(request))
  {
    hide WriteStudent, WriteGroup, WriteName;
  }

  lemma WriteMoves(db: Db, me: Id, request: Request)
    requires me in db.users
    ensures Moves(db, Write(db, me, request), Taken(request), Hides(request))
  {
    hide Moves, Write;
    if request.AskCreateStudent? || request.AskUpdateStudent? {
      StudentMoves(db, me, request);
    } else if request.AskCreateGroup? || request.AskUpdateGroup? {
      GroupMoves(db, me, request);
    } else if request.AskCreateSubject? || request.AskRenameSubject? {
      NameMoves(db, me, request);
    } else {
      OtherWritesMove(db, me, request);
    }
  }

  lemma MovesKeepOffer(db: Db, after: Db, taken: Option<Id>, hidden: Option<Id>, subject: Option<Id>)
    requires Moves(db, after, taken, hidden) && OnOffer(db, subject) && (hidden.Some? ==> hidden != subject)
    ensures OnOffer(after, subject)
  {
  }

  /** Where the subject taken up is on offer, and the one hidden is used by nobody, nobody ends up on a hidden one. */
  lemma MovesKeepRetired(db: Db, after: Db, taken: Option<Id>, hidden: Option<Id>)
    requires Retired(db) && Moves(db, after, taken, hidden) && OnOffer(db, taken)
    requires hidden.Some? ==> UnusedNow(db, hidden.value) && taken.None?
    ensures Retired(after)
  {
    forall s <- after.students ensures OnOffer(after, after.students[s].subject) {
      if s in db.students { assert OnOffer(db, db.students[s].subject); }
    }
    forall g <- after.groups ensures OnOffer(after, after.groups[g].subject) {
      if g in db.groups { assert OnOffer(db, db.groups[g].subject); }
    }
  }

  // ----- Requests that are one step -----

  /** No subject comes, goes or changes its name. */
  ghost predicate NamesKept(db: Db, after: Db) {
    && after.subjects.Keys == db.subjects.Keys && db.nextId <= after.nextId
    && forall s <- db.subjects ::
         after.subjects[s].school == db.subjects[s].school && after.subjects[s].name == db.subjects[s].name
  }

  lemma PeopleMove(db: Db, me: Id, request: Request)
    requires me in db.users && Serve(db, me, request).Ok?
    requires request.AskRemoveStudent? || request.AskRemoveGroup? || request.AskAddMember? || request.AskRemoveMember?
             || request.AskSetStatus?
    ensures Moves(db, Serve(db, me, request).value, None, None) && NamesKept(db, Serve(db, me, request).value)
  {
    hide FindStudent, FindGroup, FindLesson;
  }

  lemma GradesMove(db: Db, me: Id, request: Request)
    requires me in db.users && Serve(db, me, request).Ok?
    requires request.AskGradeStudent? || request.AskGradeInLesson? || request.AskCorrectGrade? || request.AskRemoveGrade?
    ensures Moves(db, Serve(db, me, request).value, None, None) && NamesKept(db, Serve(db, me, request).value)
  {
    hide FindStudent, FindLesson, InScale, ResolveMarked, FindWritableGrade, BlankToNull;
  }

  lemma RestoringMoves(db: Db, me: Id, id: Id)
    requires me in db.users && RestoreSubject(db, me, id).Ok?
    ensures Moves(db, RestoreSubject(db, me, id).value, None, None) && NamesKept(db, RestoreSubject(db, me, id).value)
  {
  }

  lemma {:induction false} MarksMove(db: Db, lesson: Id, marks: seq<Mark>)
    ensures var after := WriteMarks(db, lesson, marks);
      && after.groups == db.groups && after.subjects == db.subjects && after.nextId == db.nextId
      && forall s <- after.students :: s in db.students && after.students[s].subject == db.students[s].subject
  {
    if marks != [] {
      MarksMove(db, lesson, marks[..|marks| - 1]);
      hide Written, WasCharged, Charged;
    }
  }

  lemma WriteUpMoves(db: Db, me: Id, id: Id, dto: Journal)
    requires me in db.users && WriteJournal(db, me, id, dto).Ok?
    ensures Moves(db, WriteJournal(db, me, id, dto).value, None, None) && NamesKept(db, WriteJournal(db, me, id, dto).value)
  {
    MarksMove(db, id, dto.attendance);
    hide WriteMarks, StudentsOf, OnePerStudent, Described;
  }

  lemma WholeMoves(db: Db, step: Books.Step)
    requires !(step.Ask? && TwoStep(step.request))
    ensures Moves(db, Next(db, step), None, None) && NamesKept(db, Next(db, step))
  {
    hide Moves, NamesKept;
    if Exec(db, step).Ok? && step.Ask? {
      var me, request := step.me, step.request;
      assert Next(db, step) == Serve(db, me, request).value;
      if request.AskWriteJournal? {
        WriteUpMoves(db, me, request.id, request.journal);
      } else if request.AskRestoreSubject? {
        RestoringMoves(db, me, request.id);
      } else if request.AskGradeStudent? || request.AskGradeInLesson? || request.AskCorrectGrade? || request.AskRemoveGrade? {
        GradesMove(db, me, request);
      } else {
        PeopleMove(db, me, request);
      }
    } else {
      AccountsMove(db, step);
    }
  }

  lemma AccountsMove(db: Db, step: Books.Step)
    requires !step.Ask? || Exec(db, step).Err?
    ensures Moves(db, Next(db, step), None, None) && NamesKept(db, Next(db, step))
  {
    hide Serve;
  }

  // ----- From one step to whole runs -----

  /** What one step keeps if and only if it meets a condition, a run keeps throughout if and only if every one of its steps
      meets that condition at its own moment. */
  lemma ThroughoutIff(w: World, steps: seq<Step>, good: World -> bool, meets: (World, Step) -> bool)
    requires good(w) && forall v, s :: good(v) ==> (good(Take(v, s)) <==> meets(v, s))
    ensures (forall n :: 0 <= n <= |steps| ==> good(RunFrom(w, steps[..n])))
       <==> (forall n :: 0 <= n < |steps| ==> meets(RunFrom(w, steps[..n]), steps[n]))
  {
    hide Take;
    forall n | 0 <= n < |steps| ensures RunFrom(w, steps[..n + 1]) == Take(RunFrom(w, steps[..n]), steps[n]) {
      assert steps[..n + 1][..n] == steps[..n];
    }
    if forall n :: 0 <= n <= |steps| ==> good(RunFrom(w, steps[..n])) {
      forall n | 0 <= n < |steps| ensures meets(RunFrom(w, steps[..n]), steps[n]) {
        assert good(RunFrom(w, steps[..n + 1]));
      }
    }
    if forall n :: 0 <= n < |steps| ==> meets(RunFrom(w, steps[..n]), steps[n]) {
      forall n | 0 <= n <= |steps| ensures good(RunFrom(w, steps[..n])) {
        GoodUpTo(w, steps, n, good, meets);
      }
    }
  }

  lemma {:induction false} GoodUpTo(w: World, steps: seq<Step>, n: nat, good: World -> bool, meets: (World, Step) -> bool)
    requires n <= |steps| && good(w) && forall v, s :: good(v) ==> (good(Take(v, s)) <==> meets(v, s))
    requires forall m :: 0 <= m < |steps| ==> meets(RunFrom(w, steps[..m]), steps[m])
    ensures good(RunFrom(w, steps[..n]))
  {
    hide Take;
    if n > 0 {
      GoodUpTo(w, steps, n - 1, good, meets);
      assert steps[..n][..n - 1] == steps[..n - 1];
    }
  }

  // ----- Who studies a hidden subject -----

  /** The check taken again at the write: the subject taken up is on offer now, the one hidden is used by nobody now. */
  ghost predicate PeopleGuard(db: Db, request: Request) {
    Lands(db, request) ==> if request.AskHideSubject? then UnusedNow(db, request.id) else OnOffer(db, Taken(request))
  }

  /** A write leaves nobody on a hidden subject if and only if its check would still pass. */
  lemma WriteKeepsRetiredIff(db: Db, me: Id, request: Request)
    requires Retired(db) && me in db.users
    ensures Retired(Write(db, me, request)) <==> PeopleGuard(db, request)
  {
    if PeopleGuard(db, request) {
      if Lands(db, request) {
        WriteMoves(db, me, request);
        hide Write, Moves, Retired, OnOffer, UnusedNow;
        MovesKeepRetired(db, Write(db, me, request), Taken(request), Hides(request));
      }
    } else {
      BadWriteShows(db, me, request);
    }
  }

  lemma BadWriteShows(db: Db, me: Id, request: Request)
    requires me in db.users && !PeopleGuard(db, request)
    ensures !Retired(Write(db, me, request))
  {
    hide Trim, BlankToNull;
    var after := Write(db, me, request);
    if request.AskHideSubject? {
      if s :| s in db.students && db.students[s].subject == Some(request.id) {
        assert !OnOffer(after, after.students[s].subject);
      } else {
        var g :| g in db.groups && db.groups[g].subject == Some(request.id);
        assert !OnOffer(after, after.groups[g].subject);
      }
    } else if request.AskCreateStudent? || request.AskUpdateStudent? {
      var id := if request.AskUpdateStudent? then request.id else db.nextId;
      assert !OnOffer(after, after.students[id].subject);
    } else {
      var id := if request.AskUpdateGroup? then request.id else db.nextId;
      assert !OnOffer(after, after.groups[id].subject);
    }
  }

  ghost predicate MeetsPeopleGuard(w: World, step: Step) {
    step.Finish? && Enabled(w, step.p) ==> PeopleGuard(w.db, w.pending[step.p].request)
  }

  lemma StepKeepsRetiredIff(w: World, step: Step)
    requires Retired(w.db)
    ensures Retired(Take(w, step).db) <==> MeetsPeopleGuard(w, step)
  {
    hide Retired, PeopleGuard, Write, Next, Checks, Moves, OnOffer;
    match step
    case Check(_, _, _) =>
    case Finish(p) =>
      if Enabled(w, p) { WriteKeepsRetiredIff(w.db, w.pending[p].me, w.pending[p].request); }
    case Whole(s) =>
      if !(s.Ask? && TwoStep(s.request)) {
        WholeMoves(w.db, s);
        NobodyTaken(w.db);
        MovesKeepRetired(w.db, Next(w.db, s), None, None);
      }
  }

  lemma NobodyTaken(db: Db)
    ensures OnOffer(db, None)
  {
  }

  /** Under every interleaving: nobody studies a hidden subject at any moment of the run if and only if every write happens
      while its check would still pass. */
  lemma RetiredThroughoutIff(w: World, steps: seq<Step>)
    requires Retired(w.db)
    ensures (forall n :: 0 <= n <= |steps| ==> Retired(RunFrom(w, steps[..n]).db))
       <==> (forall n :: 0 <= n < |steps| ==> MeetsPeopleGuard(RunFrom(w, steps[..n]), steps[n]))
  {
    hide Retired, MeetsPeopleGuard, Take, RunFrom;
    var good, meets := (v: World) => Retired(v.db), (v: World, s: Step) => MeetsPeopleGuard(v, s);
    forall v: World, s: Step | good(v) ensures good(Take(v, s)) <==> meets(v, s) { StepKeepsRetiredIff(v, s); }
    ThroughoutIff(w, steps, good, meets);
    assert forall n :: 0 <= n <= |steps| ==> (good(RunFrom(w, steps[..n])) <==> Retired(RunFrom(w, steps[..n]).db));
    assert forall n :: 0 <= n < |steps| ==>
      (meets(RunFrom(w, steps[..n]), steps[n]) <==> MeetsPeopleGuard(RunFrom(w, steps[..n]), steps[n]));
  }

  // ----- Lessons of a hidden subject -----

  /** No hidden subject has a lesson ahead. */
  ghost predicate Quiet(db: Db, now: Time) {
    forall s <- db.subjects :: db.subjects[s].hiddenAt.Some? ==> UpcomingOf(db, s, now) == {}
  }

  ghost predicate LessonGuard(db: Db, request: Request, now: Time) {
    Lands(db, request) ==>
      match request
      case AskBookLesson(dto) => dto.startsAt >= now ==> OnOffer(db, dto.subject)
      case AskHideSubject(id, _) => UpcomingOf(db, id, now) == {}
      case _ => true
  }

  lemma BookingKeepsQuietIff(db: Db, me: Id, request: Request, now: Time)
    requires Quiet(db, now) && me in db.users && request.AskBookLesson?
    ensures Quiet(Write(db, me, request), now) <==> LessonGuard(db, request, now)
  {
    hide WriteStudent, WriteGroup, WriteName;
    var after, dto := Write(db, me, request), request.newLesson;
    if Lands(db, request) {
      forall s <- db.subjects | UpcomingOf(db, s, now) == {}
        ensures UpcomingOf(after, s, now) == {} <==> !(dto.subject == Some(s) && dto.startsAt >= now)
      {
        forall l <- after.lessons | l != db.nextId ensures l !in UpcomingOf(after, s, now) {
          assert l !in UpcomingOf(db, s, now);
        }
        assert db.nextId in UpcomingOf(after, s, now) <==> dto.subject == Some(s) && dto.startsAt >= now;
      }
      hide UpcomingOf;
    }
  }

  lemma HidingKeepsQuietIff(db: Db, me: Id, request: Request, now: Time)
    requires Quiet(db, now) && me in db.users && request.AskHideSubject?
    ensures Quiet(Write(db, me, request), now) <==> LessonGuard(db, request, now)
  {
    hide WriteStudent, WriteGroup, WriteName;
    var after := Write(db, me, request);
    assert forall s :: UpcomingOf(after, s, now) == UpcomingOf(db, s, now);
    hide UpcomingOf;
  }

  /** Writes that touch no lesson and hide nothing. */
  lemma OthersKeepQuiet(db: Db, after: Db, taken: Option<Id>, now: Time)
    requires Quiet(db, now) && Moves(db, after, taken, None) && Subjects.KeepsLessons(db, after)
    ensures Quiet(after, now)
  {
    forall s <- after.subjects | after.subjects[s].hiddenAt.Some? ensures UpcomingOf(after, s, now) == {} {
      Subjects.FewerLessonsStayRetired(db, after, s, now);
    }
    hide UpcomingOf;
  }

  lemma OtherWritesKeepLessons(db: Db, me: Id, request: Request)
    requires me in db.users && !request.AskBookLesson?
    ensures Subjects.KeepsLessons(db, Write(db, me, request))
  {
    hide Trim, BlankToNull, Subjects.IndexRefuses;
  }

  lemma WriteKeepsQuietIff(db: Db, me: Id, request: Request, now: Time)
    requires Quiet(db, now) && me in db.users
    ensures Quiet(Write(db, me, request), now) <==> LessonGuard(db, request, now)
  {
    if request.AskBookLesson? {
      BookingKeepsQuietIff(db, me, request, now);
    } else if request.AskHideSubject? {
      HidingKeepsQuietIff(db, me, request, now);
    } else {
      WriteMoves(db, me, request);
      OtherWritesKeepLessons(db, me, request);
      hide Write, Quiet, Moves;
      OthersKeepQuiet(db, Write(db, me, request), Taken(request), now);
    }
  }

  /** The step puts a lesson ahead of some hidden subject back on. */
  ghost predicate Revives(db: Db, step: Books.Step, now: Time) {
    exists s <- db.subjects :: db.subjects[s].hiddenAt.Some? && Subjects.PutsBackOn(db, step, s, now)
  }

  lemma MovesKeepQuietIff(db: Db, me: Id, request: Request, now: Time)
    requires Quiet(db, now) && me in db.users && Serve(db, me, request).Ok?
    requires request.AskSetStatus? || request.AskWriteJournal?
    requires Exec(db, Ask(me, request)).Ok?
    ensures Quiet(Serve(db, me, request).value, now) <==> !Revives(db, Ask(me, request), now)
  {
    var after := Serve(db, me, request).value;
    assert after.subjects == db.subjects by {
      if request.AskWriteJournal? { MarksMove(db, request.id, request.journal.attendance); }
      hide WriteMarks, StudentsOf, OnePerStudent, Described;
    }
    forall s <- db.subjects | db.subjects[s].hiddenAt.Some?
      ensures UpcomingOf(after, s, now) == {} <==> !Subjects.PutsBackOn(db, Ask(me, request), s, now)
    {
      Subjects.MovesKeepRetirementIff(db, me, request, s, now);
      hide Serve, UpcomingOf, Described, Subjects.AheadIn;
    }
    hide Serve, UpcomingOf, Subjects.PutsBackOn;
  }

  lemma WholeKeepsLessons(db: Db, step: Books.Step)
    requires !(step.Ask? && (TwoStep(step.request) || step.request.AskSetStatus? || step.request.AskWriteJournal?))
    ensures Subjects.KeepsLessons(db, Next(db, step))
  {
    if Exec(db, step).Ok? && step.Ask? {
      var me, request := step.me, step.request;
      assert Next(db, step) == Serve(db, me, request).value;
      if request.AskRestoreSubject? {
        assert Subjects.KeepsLessons(db, RestoreSubject(db, me, request.id).value);
      } else if request.AskGradeStudent? || request.AskGradeInLesson? || request.AskCorrectGrade? || request.AskRemoveGrade? {
        hide Serve, Subjects.KeepsLessons;
        Subjects.GradeRequestsKeepSchedule(db, me, request);
      } else {
        hide Serve, Subjects.KeepsLessons;
        Subjects.PeopleRequestsKeepSchedule(db, me, request);
      }
    } else {
      hide Serve;
    }
  }

  lemma WholeKeepsQuietIff(db: Db, step: Books.Step, now: Time)
    requires Quiet(db, now) && !(step.Ask? && TwoStep(step.request))
    ensures Quiet(Next(db, step), now) <==> !Revives(db, step, now)
  {
    if step.Ask? && Exec(db, step).Ok? && (step.request.AskSetStatus? || step.request.AskWriteJournal?) {
      assert Next(db, step) == Serve(db, step.me, step.request).value;
      assert step == Ask(step.me, step.request);
      hide Serve, Quiet, Revives;
      MovesKeepQuietIff(db, step.me, step.request, now);
    } else {
      assert !Revives(db, step, now);
      if step.Ask? && Exec(db, step).Err? {
        assert Next(db, step) == db;
      } else {
        WholeMoves(db, step);
        WholeKeepsLessons(db, step);
        hide Next, Quiet, Moves, Revives;
        OthersKeepQuiet(db, Next(db, step), None, now);
      }
    }
  }

  ghost predicate MeetsLessonGuard(w: World, step: Step, now: Time) {
    match step
    case Check(_, _, _) => true
    case Finish(p) => Enabled(w, p) ==> LessonGuard(w.db, w.pending[p].request, now)
    case Whole(s) => !(s.Ask? && TwoStep(s.request)) ==> !Revives(w.db, s, now)
  }

  lemma StepKeepsQuietIff(w: World, step: Step, now: Time)
    requires Quiet(w.db, now)
    ensures Quiet(Take(w, step).db, now) <==> MeetsLessonGuard(w, step, now)
  {
    hide Quiet, LessonGuard, Write, Next, Checks, Revives;
    match step
    case Check(_, _, _) =>
    case Finish(p) =>
      if Enabled(w, p) { WriteKeepsQuietIff(w.db, w.pending[p].me, w.pending[p].request, now); }
    case Whole(s) =>
      if !(s.Ask? && TwoStep(s.request)) { WholeKeepsQuietIff(w.db, s, now); }
  }

  /** Under every interleaving: no hidden subject has a lesson ahead at any moment of the run if and only if every booking
      lands while its subject is on offer, every hiding while nothing in the subject is ahead, and no status move or write-up
      puts a lesson ahead of a hidden subject back on. */
  lemma QuietThroughoutIff(w: World, steps: seq<Step>, now: Time)
    requires Quiet(w.db, now)
    ensures (forall n :: 0 <= n <= |steps| ==> Quiet(RunFrom(w, steps[..n]).db, now))
       <==> (forall n :: 0 <= n < |steps| ==> MeetsLessonGuard(RunFrom(w, steps[..n]), steps[n], now))
  {
    hide Quiet, MeetsLessonGuard, Take, RunFrom;
    var good, meets := (v: World) => Quiet(v.db, now), (v: World, s: Step) => MeetsLessonGuard(v, s, now);
    forall v: World, s: Step | good(v) ensures good(Take(v, s)) <==> meets(v, s) { StepKeepsQuietIff(v, s, now); }
    ThroughoutIff(w, steps, good, meets);
    assert forall n :: 0 <= n <= |steps| ==> (good(RunFrom(w, steps[..n])) <==> Quiet(RunFrom(w, steps[..n]).db, now));
    assert forall n :: 0 <= n < |steps| ==>
      (meets(RunFrom(w, steps[..n]), steps[n]) <==> MeetsLessonGuard(RunFrom(w, steps[..n]), steps[n], now));
  }

  // ----- Names -----

  /** The index refuses the write, or nobody reads like the name now. */
  predicate NameGuard(db: Db, me: Id, request: Request)
    requires me in db.users
  {
    match request
    case AskCreateSubject(name) =>
      var school := db.users[me].school;
      Subjects.IndexRefuses(db, school, Trim(name), {}) || Namesakes(db, school, Trim(name)) == {}
    case AskRenameSubject(id, name) =>
      id in db.subjects ==>
        var school := db.subjects[id].school;
        Subjects.IndexRefuses(db, school, Trim(name), {id}) || Namesakes(db, school, Trim(name)) <= {id}
    case _ => true
  }

  ghost predicate SubjectIdsSpent(db: Db) {
    forall s <- db.subjects :: s < db.nextId
  }

  /** No two subjects of a school read the same, and the ids of all of them are spent. */
  ghost predicate Tidy(db: Db) {
    NamesApart(db.subjects) && SubjectIdsSpent(db)
  }

  /** One subject gets a name: the names stay apart if and only if no other row reads like it. */
  lemma PutNameIff(db: Db, after: Db, id: Id, row: Subject)
    requires after.subjects == db.subjects[id := row] && NamesApart(db.subjects)
    ensures NamesApart(after.subjects) <==> Namesakes(db, row.school, row.name) <= {id}
  {
    if Namesakes(db, row.school, row.name) <= {id} {
      PutSubjectApart(db, after, id, row);
    } else {
      hide Lower;
      var s :| s in Namesakes(db, row.school, row.name) && s != id;
      assert s in after.subjects && id in after.subjects;
      assert after.subjects[s] == db.subjects[s] && after.subjects[id] == row;
    }
  }

  lemma NamingKeepsTidyIff(db: Db, me: Id, request: Request)
    requires Tidy(db) && me in db.users && (request.AskCreateSubject? || request.AskRenameSubject?)
    ensures SubjectIdsSpent(Write(db, me, request))
    ensures NamesApart(Write(db, me, request).subjects) <==> NameGuard(db, me, request)
  {
    hide WriteStudent, WriteGroup;
    hide Trim, Lower;
    var after := Write(db, me, request);
    if request.AskCreateSubject? {
      var school, name := db.users[me].school, Trim(request.name);
      if !Subjects.IndexRefuses(db, school, name, {}) {
        PutNameIff(db, after, db.nextId, Subject(school, name, None));
        assert db.nextId !in Namesakes(db, school, name);
      }
    } else if request.id in db.subjects {
      var row := db.subjects[request.id].(name := Trim(request.name));
      if !Subjects.IndexRefuses(db, row.school, row.name, {request.id}) { PutNameIff(db, after, request.id, row); }
    }
    hide NamesApart, Namesakes, Subjects.IndexRefuses;
  }

  lemma KeptNamesStayTidy(db: Db, after: Db)
    requires Tidy(db) && NamesKept(db, after)
    ensures Tidy(after)
  {
    hide Lower;
  }

  lemma OtherWritesKeepNames(db: Db, me: Id, request: Request)
    requires me in db.users && !request.AskCreateSubject? && !request.AskRenameSubject?
    ensures NamesKept(db, Write(db, me, request))
  {
    hide Trim, BlankToNull;
  }

  ghost predicate MeetsNameGuard(w: World, step: Step) {
    step.Finish? && Enabled(w, step.p) ==> NameGuard(w.db, w.pending[step.p].me, w.pending[step.p].request)
  }

  lemma StepKeepsTidyIff(w: World, step: Step)
    requires Tidy(w.db)
    ensures SubjectIdsSpent(Take(w, step).db)
    ensures NamesApart(Take(w, step).db.subjects) <==> MeetsNameGuard(w, step)
  {
    hide NamesApart, Write, Next, Checks, NamesKept, Namesakes, Subjects.IndexRefuses;
    match step
    case Check(_, _, _) =>
    case Finish(p) =>
      if Enabled(w, p) {
        var q := w.pending[p];
        if q.request.AskCreateSubject? || q.request.AskRenameSubject? {
          NamingKeepsTidyIff(w.db, q.me, q.request);
        } else {
          OtherWritesKeepNames(w.db, q.me, q.request);
          KeptNamesStayTidy(w.db, Take(w, step).db);
        }
      }
    case Whole(s) =>
      if !(s.Ask? && TwoStep(s.request)) {
        WholeMoves(w.db, s);
        KeptNamesStayTidy(w.db, Next(w.db, s));
      }
  }

  lemma {:induction false} ApartSoFarIsTidy(w: World, steps: seq<Step>)
    requires Tidy(w.db) && forall n :: 0 <= n <= |steps| ==> NamesApart(RunFrom(w, steps[..n]).db.subjects)
    ensures Tidy(RunFrom(w, steps).db)
  {
    hide NamesApart, SubjectIdsSpent, Take, MeetsNameGuard;
    assert steps[..|steps|] == steps;
    if steps != [] {
      var front := steps[..|steps| - 1];
      forall n | 0 <= n <= |front| ensures NamesApart(RunFrom(w, front[..n]).db.subjects) {
        assert front[..n] == steps[..n];
      }
      ApartSoFarIsTidy(w, front);
      StepKeepsTidyIff(RunFrom(w, front), steps[|steps| - 1]);
    }
  }

  /** Under every interleaving of creations and renames: no two subjects of a school read the same at any moment of the run
      if and only if every name is written while nobody reads like it, or is refused by the index. */
  lemma NamesApartThroughoutIff(w: World, steps: seq<Step>)
    requires Tidy(w.db)
    ensures (forall n :: 0 <= n <= |steps| ==> NamesApart(RunFrom(w, steps[..n]).db.subjects))
       <==> (forall n :: 0 <= n < |steps| ==> MeetsNameGuard(RunFrom(w, steps[..n]), steps[n]))
  {
    hide NamesApart, SubjectIdsSpent, MeetsNameGuard, Take, RunFrom;
    var good, meets := (v: World) => Tidy(v.db), (v: World, s: Step) => MeetsNameGuard(v, s);
    forall v: World, s: Step | good(v) ensures good(Take(v, s)) <==> meets(v, s) { StepKeepsTidyIff(v, s); }
    ThroughoutIff(w, steps, good, meets);
    assert forall n :: 0 <= n <= |steps| ==> (good(RunFrom(w, steps[..n])) <==> Tidy(RunFrom(w, steps[..n]).db));
    assert forall n :: 0 <= n < |steps| ==>
      (meets(RunFrom(w, steps[..n]), steps[n]) <==> MeetsNameGuard(RunFrom(w, steps[..n]), steps[n]));
    if forall n :: 0 <= n <= |steps| ==> NamesApart(RunFrom(w, steps[..n]).db.subjects) {
      forall n | 0 <= n <= |steps| ensures Tidy(RunFrom(w, steps[..n]).db) {
        forall m | 0 <= m <= |steps[..n]| ensures NamesApart(RunFrom(w, steps[..n][..m]).db.subjects) {
          assert steps[..n][..m] == steps[..m];
        }
        ApartSoFarIsTidy(w, steps[..n]);
      }
    }
  }

  predicate Naming(request: Request) {
    request.AskCreateSubject? || request.AskRenameSubject?
  }

  /** The row a naming request does not compete with: the one it renames. */
  function Own(request: Request): set<Id>
    requires Naming(request)
  {
    if request.AskRenameSubject? then {request.id} else {}
  }

  /** Different subjects of one school, named alike but not to the letter. */
  predicate Collide(db: Db, me: Id, first: Request, you: Id, second: Request)
    requires me in db.users && you in db.users && Naming(first) && Naming(second)
  {
    && db.users[me].school == db.users[you].school
    && Lower(Trim(first.name)) == Lower(Trim(second.name)) && Trim(first.name) != Trim(second.name)
    && (Own(first) == {} || Own(first) != Own(second))
  }

  lemma NameIsFree(db: Db, me: Id, request: Request)
    requires Naming(request) && Checks(db, me, request)
    ensures Own(request) <= db.subjects.Keys
    ensures forall s <- Own(request) :: db.subjects[s].school == db.users[me].school
    ensures Namesakes(db, db.users[me].school, Trim(request.name)) <= Own(request)
  {
    hide Trim, Lower, Namesakes;
  }

  /** What one more named subject means for the next name. */
  lemma OneMoreName(db: Db, after: Db, id: Id, row: Subject, school: Id, name: string, own: set<Id>)
    requires after.subjects == db.subjects[id := row] && Namesakes(db, school, name) <= own
    ensures Namesakes(after, school, name) <= own <==> !(row.school == school && Lower(row.name) == Lower(name) && id !in own)
    ensures Subjects.IndexRefuses(after, school, name, own) <==> row.school == school && row.name == name && id !in own
  {
    hide Lower;
    forall s <- db.subjects | s !in own ensures s !in Namesakes(db, school, name) { }
    if row.school == school && Lower(row.name) == Lower(name) { assert id in Namesakes(after, school, name); }
    assert id in after.subjects;
  }

  lemma NameIsWritten(db: Db, me: Id, request: Request)
    requires Naming(request) && Checks(db, me, request)
    ensures var id := if request.AskRenameSubject? then request.id else db.nextId;
      && var after := Write(db, me, request);
      && id in after.subjects && after.users == db.users
      && after.subjects == db.subjects[id := after.subjects[id]]
      && after.subjects[id].school == db.users[me].school && after.subjects[id].name == Trim(request.name)
  {
    NameServed(db, me, request);
    hide Write, Trim, Lower, Namesakes, NameTaken;
    if request.AskCreateSubject? {
      assert Serve(db, me, request) == CreateSubject(db, me, request.name);
    } else {
      assert Serve(db, me, request) == RenameSubject(db, me, request.id, request.name);
    }
    hide Serve;
  }

  /** Two creations, two renames, or one of each, both checked before either is written: the school is left with two
      subjects that read the same if and only if the names are alike and not to the letter. */
  lemma RacingNamesIff(db: Db, me: Id, first: Request, you: Id, second: Request)
    requires Sound(db) && Naming(first) && Naming(second) && Checks(db, me, first) && Checks(db, you, second)
    ensures var one := Write(db, me, first);
      && you in one.users
      && (NamesApart(Write(one, you, second).subjects) <==> !Collide(db, me, first, you, second))
  {
    hide Write, Trim, Lower, Namesakes, Serve, Closed, Retired, NamesApart, Subjects.IndexRefuses;
    NameIsFree(db, me, first);
    NameIsFree(db, you, second);
    NameIsWritten(db, me, first);
    var id := if first.AskRenameSubject? then first.id else db.nextId;
    var one, school, name := Write(db, me, first), db.users[you].school, Trim(second.name);
    OneMoreName(db, one, id, one.subjects[id], school, name, Own(second));
    NamingKeepsTidyIff(db, me, first);
    NamingKeepsTidyIff(one, you, second);
  }

  // ----- Requests kept apart -----

  /** No subject is being hidden by one request while another is about to take it up. */
  ghost predicate Apart(w: World) {
    forall p, q | p in w.pending && q in w.pending && w.pending[p].request.AskHideSubject? ::
      Taken(w.pending[q].request) != Some(w.pending[p].request.id)
  }

  /** What a checked request may still rely on. */
  ghost predicate Relies(db: Db, request: Request) {
    && (request.AskHideSubject? ==> UnusedNow(db, request.id))
    && OnOffer(db, Taken(request))
  }

  ghost predicate Orderly(w: World) {
    Retired(w.db) && forall p <- w.pending :: Relies(w.db, w.pending[p].request)
  }

  /** A check that passes may be relied on. Keeping a subject counts as taking it up: nobody keeps a hidden one. */
  lemma CheckedRelies(db: Db, me: Id, request: Request)
    requires Retired(db) && Checks(db, me, request)
    ensures Relies(db, request)
  {
    hide Trim, BlankToNull;
    if request.AskHideSubject? {
      var usage := UsageOf(db, request.id, request.now);
      forall s <- db.students ensures db.students[s].subject != Some(request.id) { assert s !in usage.students; }
      forall g <- db.groups ensures db.groups[g].subject != Some(request.id) { assert g !in usage.groups; }
    }
  }

  lemma MovesKeepReliance(db: Db, after: Db, taken: Option<Id>, hidden: Option<Id>, request: Request)
    requires Moves(db, after, taken, hidden) && Relies(db, request)
    requires request.AskHideSubject? ==> taken != Some(request.id)
    requires hidden.Some? ==> Taken(request) != hidden
    ensures Relies(after, request)
  {
    MovesKeepOffer(db, after, taken, hidden, Taken(request));
    hide OnOffer, Taken;
  }

  lemma CheckStaysOrderly(w: World, p: nat, me: Id, request: Request)
    requires Orderly(w)
    ensures Orderly(Take(w, Check(p, me, request)))
  {
    hide Relies, Checks;
    if Checks(w.db, me, request) { CheckedRelies(w.db, me, request); }
  }

  lemma WriteStaysOrderly(w: World, after: World, taken: Option<Id>, hidden: Option<Id>)
    requires Orderly(w) && Moves(w.db, after.db, taken, hidden) && OnOffer(w.db, taken)
    requires hidden.Some? ==> UnusedNow(w.db, hidden.value) && taken.None?
    requires forall q <- after.pending :: q in w.pending && after.pending[q] == w.pending[q]
    requires forall q <- after.pending ::
      && (after.pending[q].request.AskHideSubject? ==> taken != Some(after.pending[q].request.id))
      && (hidden.Some? ==> Taken(after.pending[q].request) != hidden)
    ensures Orderly(after)
  {
    MovesKeepRetired(w.db, after.db, taken, hidden);
    hide Moves, Retired, OnOffer, UnusedNow, Relies, Taken;
    forall q <- after.pending ensures Relies(after.db, after.pending[q].request) {
      MovesKeepReliance(w.db, after.db, taken, hidden, after.pending[q].request);
    }
  }

  lemma TakeStaysOrderly(w: World, step: Step)
    requires Orderly(w) && Apart(w)
    ensures Orderly(Take(w, step))
  {
    hide Orderly, Write, Moves, Next, Checks;
    match step
    case Check(p, me, request) => CheckStaysOrderly(w, p, me, request);
    case Finish(p) =>
      if p in w.pending && w.pending[p].me in w.db.users {
        var q := w.pending[p];
        WriteMoves(w.db, q.me, q.request);
        Relied(w, p);
        WriteStaysOrderly(w, Take(w, step), Taken(q.request), Hides(q.request));
      }
    case Whole(s) =>
      if !(s.Ask? && TwoStep(s.request)) {
        WholeMoves(w.db, s);
        WriteStaysOrderly(w, Take(w, step), None, None);
      }
  }

  lemma Relied(w: World, p: nat)
    requires Orderly(w) && p in w.pending
    ensures Relies(w.db, w.pending[p].request)
  {
  }

  /** As long as no subject is hidden between another request's check and its write, or taken up between the check and the
      write of its hiding, nobody ever studies a hidden subject, whatever else interleaves. */
  lemma {:induction false} ApartStaysRetired(w: World, steps: seq<Step>)
    requires Retired(w.db) && w.pending == map[]
    requires forall n :: 0 <= n <= |steps| ==> Apart(RunFrom(w, steps[..n]))
    ensures Orderly(RunFrom(w, steps))
  {
    if steps != [] {
      var front := steps[..|steps| - 1];
      forall n | 0 <= n <= |front| ensures Apart(RunFrom(w, front[..n])) {
        assert front[..n] == steps[..n];
      }
      ApartStaysRetired(w, front);
      assert front[..|front|] == front;
      TakeStaysOrderly(RunFrom(w, front), steps[|steps| - 1]);
      hide Orderly, Take, Apart;
    }
  }

  // ----- It does happen -----

  const TAKEN_ON := AskCreateStudent(NewStudent("A", Some(2), None))
  const TAKEN_OFF := AskHideSubject(2, 50)

  /** An admin hides the school's one subject while a student is being taken on for it. */
  lemma HidingCanRace()
    ensures var w := World(Run(Scenes.WITH_SUBJECT), map[]);
      && Sound(w.db)
      && !Retired(RunFrom(w, [Check(0, 1, TAKEN_OFF), Check(1, 1, TAKEN_ON), Finish(0), Finish(1)]).db)
  {
    hide Sound, Run, Checks, Retired, Write, PeopleGuard;
    Scenes.SubjectIsThere();
    RunIsSound(Scenes.WITH_SUBJECT);
    BothCheck(Scenes.ONE_SUBJECT);
    TwoRequests(Scenes.ONE_SUBJECT, TAKEN_OFF, TAKEN_ON);
    HidingWrites(Scenes.ONE_SUBJECT);
    BadWriteShows(Write(Scenes.ONE_SUBJECT, 1, TAKEN_OFF), 1, TAKEN_ON);
  }

  /** Two requests of one account, both checked before either is written. */
  lemma TwoRequests(db: Db, first: Request, second: Request)
    requires 1 in db.users && Checks(db, 1, first) && Checks(db, 1, second)
    ensures Write(db, 1, first).users == db.users
    ensures RunFrom(World(db, map[]), [Check(0, 1, first), Check(1, 1, second), Finish(0), Finish(1)]).db
         == Write(Write(db, 1, first), 1, second)
  {
    hide Checks;
    WriteKeepsUsers(db, 1, first);
    hide Write;
    FourSteps(World(db, map[]), Check(0, 1, first), Check(1, 1, second), Finish(0), Finish(1));
  }

  lemma WriteKeepsUsers(db: Db, me: Id, request: Request)
    requires me in db.users
    ensures Write(db, me, request).users == db.users
  {
    hide Trim, BlankToNull, Subjects.IndexRefuses, Lands;
  }

  lemma HidingWrites(db: Db)
    requires db == Scenes.ONE_SUBJECT
    ensures !PeopleGuard(Write(db, 1, TAKEN_OFF), TAKEN_ON)
  {
    hide WriteStudent, WriteGroup, WriteName;
  }

  lemma BothCheck(db: Db)
    requires db == Scenes.ONE_SUBJECT
    ensures Checks(db, 1, TAKEN_ON) && Checks(db, 1, TAKEN_OFF)
  {
    hide Trim;
    var usage := UsageOf(db, 2, 50);
    assert UpcomingOf(db, 2, 50) == {};
    assert usage.students == {} && usage.groups == {} && usage.upcomingLessons == 0;
  }

  /** The same with a lesson being booked: the hidden subject is left with a lesson ahead. */
  lemma BookingCanRace()
    ensures var w := World(Run(Scenes.WITH_SUBJECT + [Ask(1, Scenes.FIRST_COMES)]), map[]);
      && Sound(w.db) && Quiet(w.db, 50)
      && !Quiet(RunFrom(w, [Check(0, 1, TAKEN_OFF), Check(1, 1, Scenes.LESSON_BOOKED), Finish(0), Finish(1)]).db, 50)
  {
    hide Sound, Run, Checks, Quiet, Write, LessonGuard, Serve;
    Scenes.SubjectIsThere();
    Scenes.FirstComes();
    Scenes.Asked(Scenes.WITH_SUBJECT, Scenes.ONE_SUBJECT, 1, Scenes.FIRST_COMES, Scenes.ONE_STUDENT);
    RunIsSound(Scenes.WITH_SUBJECT + [Ask(1, Scenes.FIRST_COMES)]);
    BookingChecks(Scenes.ONE_STUDENT);
    TwoRequests(Scenes.ONE_STUDENT, TAKEN_OFF, Scenes.LESSON_BOOKED);
    BookingIsLate(Scenes.ONE_STUDENT);
    WriteKeepsQuietIff(Scenes.ONE_STUDENT, 1, TAKEN_OFF, 50);
    WriteKeepsQuietIff(Write(Scenes.ONE_STUDENT, 1, TAKEN_OFF), 1, Scenes.LESSON_BOOKED, 50);
  }

  lemma BookingChecks(db: Db)
    requires db == Scenes.ONE_STUDENT
    ensures Checks(db, 1, Scenes.LESSON_BOOKED) && Checks(db, 1, TAKEN_OFF)
  {
    var usage := UsageOf(db, 2, 50);
    assert UpcomingOf(db, 2, 50) == {};
    assert usage.students == {} && usage.groups == {} && usage.upcomingLessons == 0;
  }

  lemma BookingIsLate(db: Db)
    requires db == Scenes.ONE_STUDENT
    ensures Quiet(db, 50) && LessonGuard(db, TAKEN_OFF, 50)
    ensures !LessonGuard(Write(db, 1, TAKEN_OFF), Scenes.LESSON_BOOKED, 50)
  {
    assert UpcomingOf(db, 2, 50) == {};
  }

  const B_ONLY: seq<Books.Step> := Scenes.OPEN_SCHOOL + [Ask(1, AskCreateSubject("B"))]
  const A_COMES := AskCreateSubject("A")
  const B_RENAMED := AskRenameSubject(2, "a")

  /** A school with one subject, "B": "A" is being added while "B" is being renamed to "a". */
  lemma RenameCanRace()
    ensures var w := World(Run(B_ONLY), map[]);
      && Sound(w.db)
      && !NamesApart(RunFrom(w, [Check(0, 1, A_COMES), Check(1, 1, B_RENAMED), Finish(0), Finish(1)]).db.subjects)
  {
    hide Sound, Run, Checks, NamesApart, Write, Serve, Collide;
    var db := Scenes.SCHOOL_ONLY.(subjects := map[2 := Subject(0, "B", None)], nextId := 3);
    Scenes.SchoolOpens();
    BIsThere(db);
    Scenes.Asked(Scenes.OPEN_SCHOOL, Scenes.SCHOOL_ONLY, 1, AskCreateSubject("B"), db);
    RunIsSound(B_ONLY);
    NamingChecks(db);
    TwoRequests(db, A_COMES, B_RENAMED);
    RacingNamesIff(db, 1, A_COMES, 1, B_RENAMED);
  }

  lemma BIsThere(db: Db)
    requires db == Scenes.SCHOOL_ONLY.(subjects := map[2 := Subject(0, "B", None)], nextId := 3)
    ensures Serve(Scenes.SCHOOL_ONLY, 1, AskCreateSubject("B")) == Ok(db)
  {
    Scenes.LettersAreTrimmed();
    assert Namesakes(Scenes.SCHOOL_ONLY, 0, "B") == {};
    hide Trim, Lower, Namesakes;
  }

  lemma NamingChecks(db: Db)
    requires db == Scenes.SCHOOL_ONLY.(subjects := map[2 := Subject(0, "B", None)], nextId := 3)
    ensures Checks(db, 1, A_COMES) && Checks(db, 1, B_RENAMED) && Collide(db, 1, A_COMES, 1, B_RENAMED)
  {
    Scenes.LettersAreTrimmed();
    hide Trim;
    assert Lower("A") == Lower("a") && "A"[0] != "a"[0];
    assert Lower("B")[0] != Lower("A")[0];
    assert Namesakes(db, 0, "A") == {} && Namesakes(db, 0, "a") == {};
    hide Lower, Namesakes;
  }

  lemma RunOneMore(w: World, steps: seq<Step>, last: Step)
    ensures RunFrom(w, steps + [last]) == Take(RunFrom(w, steps), last)
  {
    hide Take;
    assert (steps + [last])[..|steps|] == steps;
  }

  lemma FourSteps(w: World, a: Step, b: Step, c: Step, d: Step)
    ensures RunFrom(w, [a, b, c, d]) == Take(Take(Take(Take(w, a), b), c), d)
  {
    hide Take;
    assert [a, b, c, d] == [] + [a] + [b] + [c] + [d];
    RunOneMore(w, [], a);
    RunOneMore(w, [] + [a], b);
    RunOneMore(w, [] + [a] + [b], c);
    RunOneMore(w, [] + [a] + [b] + [c], d);
  }
}

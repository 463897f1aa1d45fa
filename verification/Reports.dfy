/** The work report: what a window of lessons adds up to, for one tutor or for the school. */
module Reports {
  import opened Foundations
  import opened Books
  import opened Soundness
  import opened Progress
  import Answers
  import Sorting

  const DAY_MS := 24 * 60 * 60 * 1000
  const DEFAULT_WINDOW_DAYS := 30
  const MAX_WINDOW_DAYS := 400
  const MAX_BREAKDOWN_ROWS := 20

  datatype Query = Query(from: Option<Time>, to: Option<Time>, tutor: Option<Id>)
  datatype Window = Window(from: Time, to: Time)
  datatype Breakdown = Breakdown(id: Option<Id>, name: Option<string>, lessons: nat, minutes: nat)
  datatype Report = Report(
    window: Window, scope: Option<Id>, lessons: LessonCounts, unwritten: nat, minutesTaught: int, studentsTaught: nat,
    attendance: AttendanceSummary, grades: GradeSummary, bySubject: seq<Breakdown>, byTutor: Option<seq<Breakdown>>)

  /** The window, defaulted backwards from its end and bounded. */
  function WindowOf(query: Query, now: Time): (r: Result<Window>)
    ensures r.Ok? ==> 0 < r.value.to - r.value.from <= 400 * 86_400_000
    ensures r.Ok? ==> r.value.to == query.to.GetOr(now)
    ensures r.Ok? ==> if query.from.Some? then r.value.from == query.from.value
                      else r.value.to - r.value.from == 30 * 86_400_000
    ensures r.Err? ==> r.error == BadRequest && query.from.Some?
                       && !(0 < query.to.GetOr(now) - query.from.value <= 400 * 86_400_000)
  {
    var to := query.to.GetOr(now);
    var from := query.from.GetOr(to - DEFAULT_WINDOW_DAYS * DAY_MS);
    var _ :- Need(from < to, BadRequest);
    var _ :- Need(to - from <= MAX_WINDOW_DAYS * DAY_MS, BadRequest);
    Ok(Window(from, to))
  }

  /** Whose lessons are counted, and whether the caller may ask for them. */
  function TutorScope(db: Db, me: Id, tutor: Option<Id>): Result<Option<Id>>
    requires me in db.users
  {
    if db.users[me].role == Admin then Ok(tutor)
    else
      var _ :- Need(tutor.None? || tutor == Some(me), Forbidden);
      Ok(Some(me))
  }

  /** A tutor names somebody else. */
  predicate AsksForAnother(db: Db, me: Id, tutor: Option<Id>)
    requires me in db.users
  {
    db.users[me].role == Tutor && tutor.Some? && tutor.value != me
  }

  /** A tutor is answered about themselves, an admin about whoever they name, or the school; and only a tutor who names
      somebody else is refused. */
  lemma ScopeIs(db: Db, me: Id, tutor: Option<Id>)
    requires me in db.users
    ensures TutorScope(db, me, tutor) == Err(Forbidden) <==> AsksForAnother(db, me, tutor)
    ensures TutorScope(db, me, tutor).Err? ==> TutorScope(db, me, tutor) == Err(Forbidden)
    ensures TutorScope(db, me, tutor).Ok? ==>
      TutorScope(db, me, tutor).value == if db.users[me].role == Admin then tutor else Some(me)
  {
  }

  // ----- What the three queries select -----

  function LessonsIn(db: Db, school: Id, tutor: Option<Id>, w: Window): set<Id> {
    set l | l in db.lessons && db.lessons[l].school == school
            && (tutor.None? || db.lessons[l].tutor == tutor.value)
            && w.from <= db.lessons[l].startsAt < w.to
  }

  function SeatsIn(db: Db, school: Id, tutor: Option<Id>, w: Window): set<Seat> {
    set k | k in db.register && k.lesson in LessonsIn(db, school, tutor, w)
  }

  function MarksIn(db: Db, school: Id, tutor: Option<Id>, w: Window): set<Id> {
    set g | g in db.grades && StudentIn(db, school, db.grades[g].student)
            && (tutor.None? || db.grades[g].author == tutor.value)
            && w.from <= db.grades[g].createdAt < w.to
  }

  predicate StudentIn(db: Db, school: Id, student: Id) {
    student in db.students && db.students[student].school == school
  }

  // ----- The figures, as sums over what was selected -----

  datatype Figure =
    | Total | CompletedLessons | CancelledLessons | ScheduledLessons | Unwritten | Minutes
    | Presents | Lates | Excused | Unexcused | MarkedSeats
    | AllMarks | ClassicMarks | PercentageMarks | WordMarks

  predicate IsAt(db: Db, lesson: Id, status: LessonStatus) {
    lesson in db.lessons && db.lessons[lesson].status == status
  }

  /** Nobody was marked at the lesson. */
  predicate NobodyMarked(db: Db, lesson: Id) {
    forall k <- db.register :: k.lesson != lesson
  }

  function One(b: bool): int {
    if b then 1 else 0
  }

  function LessonWeight(db: Db, figure: Figure): Id -> int {
    match figure
    case Total => (l: Id) => 1
    case CompletedLessons => (l: Id) => One(IsAt(db, l, Completed))
    case CancelledLessons => (l: Id) => One(IsAt(db, l, Cancelled))
    case ScheduledLessons => (l: Id) => One(IsAt(db, l, Scheduled))
    case Unwritten => (l: Id) => One(IsAt(db, l, Completed) && NobodyMarked(db, l))
    case Minutes => (l: Id) => if IsAt(db, l, Completed) then db.lessons[l].minutes else 0
    case _ => (l: Id) => 0
  }

  function SeatWeight(db: Db, figure: Figure): Seat -> int {
    match figure
    case Presents => (k: Seat) => One(WithMark(db, Present)(k))
    case Lates => (k: Seat) => One(WithMark(db, Late)(k))
    case Excused => (k: Seat) => One(WithMark(db, AbsentExcused)(k))
    case Unexcused => (k: Seat) => One(WithMark(db, AbsentUnexcused)(k))
    case MarkedSeats => (k: Seat) => 1
    case _ => (k: Seat) => 0
  }

  function MarkWeight(db: Db, figure: Figure): Id -> int {
    match figure
    case AllMarks => (g: Id) => 1
    case ClassicMarks => (g: Id) => One(OfKind(db, Classic)(g))
    case PercentageMarks => (g: Id) => One(OfKind(db, Percentage)(g))
    case WordMarks => (g: Id) => One(OfKind(db, Descriptive)(g))
    case _ => (g: Id) => 0
  }

  /** A figure of the report of one tutor, or of the school, over one window. */
  ghost function Declared(db: Db, school: Id, tutor: Option<Id>, w: Window, figure: Figure): int {
    Sum(LessonsIn(db, school, tutor, w), LessonWeight(db, figure))
    + Sum(SeatsIn(db, school, tutor, w), SeatWeight(db, figure))
    + Sum(MarksIn(db, school, tutor, w), MarkWeight(db, figure))
  }

  /** The students taught in some lessons: the people in the room, each once. */
  function TaughtIn(db: Db, lessons: set<Id>): set<Id> {
    set l, s | l in lessons && l in db.lessons && s in StudentsOf(db, db.lessons[l]) :: s
  }

  // ----- Additivity -----

  function MembersOf(db: Db, school: Id): set<Id> {
    set u | u in db.users && db.users[u].school == school
  }

  function TutorAt(db: Db): Id -> Id {
    l => if l in db.lessons then db.lessons[l].tutor else 0
  }

  function SeatTutorAt(db: Db): Seat -> Id {
    (k: Seat) => if k.lesson in db.lessons then db.lessons[k.lesson].tutor else 0
  }

  function AuthorAt(db: Db): Id -> Id {
    g => if g in db.grades then db.grades[g].author else 0
  }

  /** Every row the school report selects belongs to one of the school's members. This is where closure is needed. */
  lemma SelectedByMembers(db: Db, school: Id, w: Window)
    requires Closed(db)
    ensures forall l <- LessonsIn(db, school, None, w) :: TutorAt(db)(l) in MembersOf(db, school)
    ensures forall k <- SeatsIn(db, school, None, w) :: SeatTutorAt(db)(k) in MembersOf(db, school)
    ensures forall g <- MarksIn(db, school, None, w) :: AuthorAt(db)(g) in MembersOf(db, school)
  {
    forall l <- LessonsIn(db, school, None, w) ensures TutorAt(db)(l) in MembersOf(db, school) {
      assert LessonFor(db, db.lessons[l]);
    }
    forall g <- MarksIn(db, school, None, w) ensures AuthorAt(db)(g) in MembersOf(db, school) {
      assert GradeFor(db, db.grades[g]);
    }
  }

  lemma SelectedPerMember(db: Db, school: Id, u: Id, w: Window)
    ensures Having(LessonsIn(db, school, None, w), TutorAt(db), u) == LessonsIn(db, school, Some(u), w)
    ensures Having(SeatsIn(db, school, None, w), SeatTutorAt(db), u) == SeatsIn(db, school, Some(u), w)
    ensures Having(MarksIn(db, school, None, w), AuthorAt(db), u) == MarksIn(db, school, Some(u), w)
  {
  }

  /** Three sums added member by member are the three sums added member by member. */
  lemma {:induction false} SumOfThree(s: set<Id>, a: Id -> int, b: Id -> int, c: Id -> int, all: Id -> int)
    requires forall x <- s :: all(x) == a(x) + b(x) + c(x)
    ensures Sum(s, all) == Sum(s, a) + Sum(s, b) + Sum(s, c)
    decreases |s|
  {
    if s != {} {
      var x :| x in s;
      SumPick(s, all, x);
      SumPick(s, a, x);
      SumPick(s, b, x);
      SumPick(s, c, x);
      SumOfThree(s - {x}, a, b, c, all);
    }
  }

  ghost function LessonShare(db: Db, school: Id, w: Window, figure: Figure): Id -> int {
    (u: Id) => Sum(LessonsIn(db, school, Some(u), w), LessonWeight(db, figure))
  }

  ghost function SeatShare(db: Db, school: Id, w: Window, figure: Figure): Id -> int {
    (u: Id) => Sum(SeatsIn(db, school, Some(u), w), SeatWeight(db, figure))
  }

  ghost function MarkShare(db: Db, school: Id, w: Window, figure: Figure): Id -> int {
    (u: Id) => Sum(MarksIn(db, school, Some(u), w), MarkWeight(db, figure))
  }

  /** What is selected for the school falls apart by member. */
  lemma SharesOf<T(!new)>(all: set<T>, weight: T -> int, keyOf: T -> Id, members: set<Id>, share: Id -> int)
    requires forall x <- all :: keyOf(x) in members
    requires forall u <- members :: share(u) == Sum(Having(all, keyOf, u), weight)
    ensures Sum(all, weight) == Sum(members, share)
  {
    var perKey := (u: Id) => Sum(Having(all, keyOf, u), weight);
    hide Sum, Having;
    SumByKey(all, weight, keyOf, members);
    SumSame(members, perKey, share);
  }

  lemma SharesAddUp(db: Db, school: Id, w: Window, figure: Figure)
    requires Closed(db)
    ensures var members := MembersOf(db, school);
      && Sum(LessonsIn(db, school, None, w), LessonWeight(db, figure)) == Sum(members, LessonShare(db, school, w, figure))
      && Sum(SeatsIn(db, school, None, w), SeatWeight(db, figure)) == Sum(members, SeatShare(db, school, w, figure))
      && Sum(MarksIn(db, school, None, w), MarkWeight(db, figure)) == Sum(members, MarkShare(db, school, w, figure))
  {
    var members := MembersOf(db, school);
    SelectedByMembers(db, school, w);
    hide Closed, LessonsIn, SeatsIn, MarksIn, MembersOf, LessonWeight, SeatWeight, MarkWeight, TutorAt, SeatTutorAt, AuthorAt, Sum,
      Having;
    forall u <- members
      ensures LessonShare(db, school, w, figure)(u)
           == Sum(Having(LessonsIn(db, school, None, w), TutorAt(db), u), LessonWeight(db, figure))
      ensures SeatShare(db, school, w, figure)(u)
           == Sum(Having(SeatsIn(db, school, None, w), SeatTutorAt(db), u), SeatWeight(db, figure))
      ensures MarkShare(db, school, w, figure)(u)
           == Sum(Having(MarksIn(db, school, None, w), AuthorAt(db), u), MarkWeight(db, figure))
    {
      SelectedPerMember(db, school, u, w);
    }
    hide LessonShare, SeatShare, MarkShare;
    SharesOf(LessonsIn(db, school, None, w), LessonWeight(db, figure), TutorAt(db), members, LessonShare(db, school, w, figure));
    SharesOf(SeatsIn(db, school, None, w), SeatWeight(db, figure), SeatTutorAt(db), members, SeatShare(db, school, w, figure));
    SharesOf(MarksIn(db, school, None, w), MarkWeight(db, figure), AuthorAt(db), members, MarkShare(db, school, w, figure));
  }

  /** Every figure of the school's report is the sum of that figure over its members' own reports. */
  lemma SchoolIsSumOfMembers(db: Db, school: Id, w: Window, figure: Figure)
    requires Closed(db)
    ensures Declared(db, school, None, w, figure)
         == Sum(MembersOf(db, school), u => Declared(db, school, Some(u), w, figure))
  {
    hide Closed, LessonsIn, SeatsIn, MarksIn, MembersOf, LessonWeight, SeatWeight, MarkWeight, Sum;
    SharesAddUp(db, school, w, figure);
    var all := (u: Id) => Declared(db, school, Some(u), w, figure);
    SumOfThree(MembersOf(db, school), LessonShare(db, school, w, figure), SeatShare(db, school, w, figure),
               MarkShare(db, school, w, figure), all);
  }

  /** A report over [from, to) is the sum of the reports over [from, mid) and [mid, to). */
  lemma WindowsAddUp(db: Db, school: Id, tutor: Option<Id>, from: Time, mid: Time, to: Time, figure: Figure)
    requires from <= mid <= to
    ensures Declared(db, school, tutor, Window(from, to), figure)
         == Declared(db, school, tutor, Window(from, mid), figure) + Declared(db, school, tutor, Window(mid, to), figure)
  {
    var early, late, whole := Window(from, mid), Window(mid, to), Window(from, to);
    assert LessonsIn(db, school, tutor, whole) == LessonsIn(db, school, tutor, early) + LessonsIn(db, school, tutor, late);
    assert SeatsIn(db, school, tutor, whole) == SeatsIn(db, school, tutor, early) + SeatsIn(db, school, tutor, late);
    assert MarksIn(db, school, tutor, whole) == MarksIn(db, school, tutor, early) + MarksIn(db, school, tutor, late);
    SumUnion(LessonsIn(db, school, tutor, early), LessonsIn(db, school, tutor, late), LessonWeight(db, figure));
    SumUnion(SeatsIn(db, school, tutor, early), SeatsIn(db, school, tutor, late), SeatWeight(db, figure));
    SumUnion(MarksIn(db, school, tutor, early), MarksIn(db, school, tutor, late), MarkWeight(db, figure));
  }

  /** Students taught are the exception: a student counts once however many tutors or windows taught them. */
  lemma TaughtIsUnion(db: Db, school: Id, tutor: Option<Id>, from: Time, mid: Time, to: Time)
    requires from <= mid <= to && Closed(db)
    ensures TaughtIn(db, LessonsIn(db, school, tutor, Window(from, to)))
         == TaughtIn(db, LessonsIn(db, school, tutor, Window(from, mid)))
            + TaughtIn(db, LessonsIn(db, school, tutor, Window(mid, to)))
    ensures TaughtIn(db, LessonsIn(db, school, None, Window(from, to)))
         == set u, s | u in MembersOf(db, school)
                       && s in TaughtIn(db, LessonsIn(db, school, Some(u), Window(from, to))) :: s
  {
    var w := Window(from, to);
    var all := LessonsIn(db, school, None, w);
    SelectedByMembers(db, school, w);
    hide Closed;
    forall s <- TaughtIn(db, all)
      ensures exists u :: u in MembersOf(db, school) && s in TaughtIn(db, LessonsIn(db, school, Some(u), w))
    {
      var l :| l in all && l in db.lessons && s in StudentsOf(db, db.lessons[l]);
      var u := TutorAt(db)(l);
      assert u in MembersOf(db, school) && l in LessonsIn(db, school, Some(u), w);
    }
  }

  // ----- Students taught -----

  function NamedIn(db: Db, lessons: set<Id>): set<Id> {
    set l | l in lessons && l in db.lessons && db.lessons[l].student.Some? :: db.lessons[l].student.value
  }

  function GroupsIn(db: Db, lessons: set<Id>): set<Id> {
    set l | l in lessons && l in db.lessons && db.lessons[l].group.Some? :: db.lessons[l].group.value
  }

  function PlacesIn(db: Db, groups: set<Id>): set<Place> {
    set p | p in db.members && p.group in groups
  }

  function Students(places: set<Place>): set<Id> {
    set p | p in places :: p.student
  }

  function FromOption(o: Option<Id>): set<Id> {
    if o.Some? then {o.value} else {}
  }

  lemma OneLessonMore(db: Db, seen: set<Id>, l: Id)
    requires l in db.lessons
    ensures NamedIn(db, seen + {l}) == NamedIn(db, seen) + FromOption(db.lessons[l].student)
    ensures GroupsIn(db, seen + {l}) == GroupsIn(db, seen) + FromOption(db.lessons[l].group)
  {
    if db.lessons[l].student.Some? { assert db.lessons[l].student.value in NamedIn(db, seen + {l}); }
    if db.lessons[l].group.Some? { assert db.lessons[l].group.value in GroupsIn(db, seen + {l}); }
  }

  function SetOf(rows: seq<Id>): set<Id> {
    set x | x in rows
  }

  lemma SetOfMore(rows: seq<Id>, i: nat)
    requires i < |rows|
    ensures SetOf(rows[..i + 1]) == SetOf(rows[..i]) + {rows[i]}
  {
    assert rows[..i + 1] == rows[..i] + [rows[i]];
  }

  /** Distinct students, by adding to two sets and then walking the groups' members. */
  method CountStudentsTaught(db: Db, lessons: seq<Id>) returns (n: nat)
    requires Closed(db) && forall l <- lessons :: l in db.lessons
    ensures n == |TaughtIn(db, SetOf(lessons))|
  {
    RoomIsNamedOrMember(db, SetOf(lessons));
    hide Closed, TaughtIn, NamedIn, GroupsIn;
    var students: set<Id>, groups: set<Id> := NamedIn(db, {}), GroupsIn(db, {});
    var i := 0;
    assert SetOf(lessons[..0]) == {};
    while i < |lessons|
      invariant 0 <= i <= |lessons|
      invariant students == NamedIn(db, SetOf(lessons[..i]))
      invariant groups == GroupsIn(db, SetOf(lessons[..i]))
    {
      var lesson := db.lessons[lessons[i]];
      SetOfMore(lessons, i);
      OneLessonMore(db, SetOf(lessons[..i]), lessons[i]);
      if lesson.student.Some? {
        students := students + {lesson.student.value};
      }
      if lesson.group.Some? {
        groups := groups + {lesson.group.value};
      }
      i := i + 1;
    }
    assert lessons[..|lessons|] == lessons;
    students := AddMembers(students, PlacesIn(db, groups));
    n := |students|;
  }

  /** The rows of the membership query, added one by one in whatever order they came. */
  method AddMembers(students: set<Id>, rows: set<Place>) returns (all: set<Id>)
    ensures all == students + Students(rows)
  {
    all := students;
    var left := rows;
    while left != {}
      invariant left <= rows
      invariant all == students + Students(rows - left)
      decreases |left|
    {
      var member :| member in left;
      assert rows - (left - {member}) == (rows - left) + {member};
      assert Students((rows - left) + {member}) == Students(rows - left) + {member.student};
      all := all + {member.student};
      left := left - {member};
    }
    assert rows - left == rows;
  }

  /** Exactly one of student and group is set, so the two ways of reaching a room cover it and add nobody. */
  lemma RoomIsNamedOrMember(db: Db, lessons: set<Id>)
    requires Closed(db) && lessons <= db.lessons.Keys
    ensures TaughtIn(db, lessons) == NamedIn(db, lessons) + Students(PlacesIn(db, GroupsIn(db, lessons)))
  {
    var taught := TaughtIn(db, lessons);
    var places := PlacesIn(db, GroupsIn(db, lessons));
    forall s <- taught ensures s in NamedIn(db, lessons) || s in Students(places) {
      var l :| l in lessons && s in StudentsOf(db, db.lessons[l]);
      if db.lessons[l].student.None? {
        var p :| p in db.members && db.lessons[l].group == Some(p.group) && p.student == s;
        assert p in places;
      }
    }
    forall s <- NamedIn(db, lessons) ensures s in taught {
      var l :| l in lessons && db.lessons[l].student == Some(s);
      assert s in StudentsOf(db, db.lessons[l]);
    }
    forall p <- places ensures p.student in taught {
      var l :| l in lessons && db.lessons[l].group == Some(p.group);
      assert LessonFor(db, db.lessons[l]);
      assert p.student in StudentsOf(db, db.lessons[l]);
    }
  }

  // ----- Breakdown -----

  function MinutesAt(db: Db): Id -> int {
    l => if l in db.lessons then db.lessons[l].minutes else 0
  }

  /** Busiest first. */
  predicate Outranks(a: Breakdown, b: Breakdown) {
    a.minutes > b.minutes || (a.minutes == b.minutes && a.lessons >= b.lessons)
  }

  /** A row over some lessons: how many they are, how long they were, and the name one of them gives. */
  ghost predicate RowFor(db: Db, mine: set<Id>, nameOf: Id -> Option<string>, row: Breakdown) {
    && row.lessons == |mine| > 0
    && row.minutes == Sum(mine, MinutesAt(db))
    && exists l :: l in mine && row.name == nameOf(l)
  }

  /** The row of a key is over the lessons with that key. */
  ghost predicate RowOf(db: Db, lessons: set<Id>, keyOf: Id -> Option<Id>, nameOf: Id -> Option<string>, row: Breakdown) {
    RowFor(db, Having(lessons, keyOf, row.id), nameOf, row)
  }

  /** A row cut by the cap, outranked by every row kept. */
  ghost predicate CutFor(
    db: Db, lessons: set<Id>, keyOf: Id -> Option<Id>, nameOf: Id -> Option<string>, rows: seq<Breakdown>, row: Breakdown)
  {
    && RowOf(db, lessons, keyOf, nameOf, row)
    && |rows| == MAX_BREAKDOWN_ROWS
    && forall kept <- rows :: Outranks(kept, row)
  }

  ghost predicate IsBreakdown(
    db: Db, lessons: set<Id>, keyOf: Id -> Option<Id>, nameOf: Id -> Option<string>, rows: seq<Breakdown>)
  {
    && (forall i, j :: 0 <= i < j < |rows| ==> rows[i].id != rows[j].id)
    && (forall row <- rows :: RowOf(db, lessons, keyOf, nameOf, row))
    && Sorting.Sorted(rows, Outranks)
    && |rows| <= MAX_BREAKDOWN_ROWS
    // A key without a row was dropped by the cap.
    && (forall l <- lessons :: Kept(rows, keyOf(l))
          || exists row: Breakdown :: row.id == keyOf(l) && CutFor(db, lessons, keyOf, nameOf, rows, row))
  }

  ghost predicate Kept(rows: seq<Breakdown>, id: Option<Id>) {
    exists i :: 0 <= i < |rows| && rows[i].id == id
  }

  function Capped(rows: seq<Breakdown>): (r: seq<Breakdown>)
    ensures r <= rows && |r| <= MAX_BREAKDOWN_ROWS && (|r| < |rows| ==> |r| == MAX_BREAKDOWN_ROWS)
  {
    if |rows| < MAX_BREAKDOWN_ROWS then rows else rows[..MAX_BREAKDOWN_ROWS]
  }

  lemma OutranksIsPreorder()
    ensures Sorting.TotalPreorder(Outranks)
  {
  }

  /** The running table holds the row of every key met so far, and no other. */
  ghost predicate Tallied(
    db: Db, seen: set<Id>, keyOf: Id -> Option<Id>, nameOf: Id -> Option<string>, table: map<Option<Id>, Breakdown>)
  {
    && (forall k <- table :: table[k].id == k && RowOf(db, seen, keyOf, nameOf, table[k]))
    && (forall l <- seen :: keyOf(l) in table)
  }

  lemma FirstRow(db: Db, nameOf: Id -> Option<string>, l: Id, k: Option<Id>)
    requires l in db.lessons
    ensures RowFor(db, {l}, nameOf, Breakdown(k, nameOf(l), 1, db.lessons[l].minutes))
  {
    SumPick({l}, MinutesAt(db), l);
  }

  lemma NextRow(db: Db, mine: set<Id>, nameOf: Id -> Option<string>, l: Id, row: Breakdown)
    requires l in db.lessons && l !in mine && RowFor(db, mine, nameOf, row)
    ensures RowFor(db, mine + {l}, nameOf,
                   row.(lessons := row.lessons + 1, minutes := row.minutes + db.lessons[l].minutes))
  {
    SumPick(mine + {l}, MinutesAt(db), l);
    assert mine + {l} - {l} == mine;
    var x :| x in mine && row.name == nameOf(x);
    assert x in mine + {l};
  }

  /** One lesson tallied: its own key's row grows by it, the others stay. */
  lemma TallyOne(
    db: Db, seen: set<Id>, keyOf: Id -> Option<Id>, nameOf: Id -> Option<string>,
    table: map<Option<Id>, Breakdown>, l: Id, row: Breakdown)
    requires Tallied(db, seen, keyOf, nameOf, table) && l !in seen && l in db.lessons
    requires var old_ := if keyOf(l) in table then table[keyOf(l)] else Breakdown(keyOf(l), nameOf(l), 0, 0);
      row == old_.(lessons := old_.lessons + 1, minutes := old_.minutes + db.lessons[l].minutes)
    ensures Tallied(db, seen + {l}, keyOf, nameOf, table[keyOf(l) := row])
  {
    hide RowFor, Having;
    OwnRow(db, seen, keyOf, nameOf, table, l, row);
    forall j <- table | j != keyOf(l) ensures RowOf(db, seen + {l}, keyOf, nameOf, table[j]) {
      assert RowOf(db, seen, keyOf, nameOf, table[j]);
      OtherHaving(seen, keyOf, l, j);
    }
    hide RowOf;
  }

  lemma OwnRow(
    db: Db, seen: set<Id>, keyOf: Id -> Option<Id>, nameOf: Id -> Option<string>,
    table: map<Option<Id>, Breakdown>, l: Id, row: Breakdown)
    requires Tallied(db, seen, keyOf, nameOf, table) && l !in seen && l in db.lessons
    requires var old_ := if keyOf(l) in table then table[keyOf(l)] else Breakdown(keyOf(l), nameOf(l), 0, 0);
      row == old_.(lessons := old_.lessons + 1, minutes := old_.minutes + db.lessons[l].minutes)
    ensures row.id == keyOf(l) && RowOf(db, seen + {l}, keyOf, nameOf, row)
  {
    var k := keyOf(l);
    OwnHaving(seen, keyOf, l);
    hide RowFor;
    if k in table {
      assert RowOf(db, seen, keyOf, nameOf, table[k]);
      NextRow(db, Having(seen, keyOf, k), nameOf, l, table[k]);
    } else {
      assert Having(seen, keyOf, k) == {};
      assert Having(seen + {l}, keyOf, k) == {l};
      FirstRow(db, nameOf, l, k);
    }
  }

  lemma OwnHaving(seen: set<Id>, keyOf: Id -> Option<Id>, l: Id)
    ensures Having(seen + {l}, keyOf, keyOf(l)) == Having(seen, keyOf, keyOf(l)) + {l}
    ensures l !in seen ==> l !in Having(seen, keyOf, keyOf(l))
  {
  }

  lemma OtherHaving(seen: set<Id>, keyOf: Id -> Option<Id>, l: Id, j: Option<Id>)
    requires j != keyOf(l)
    ensures Having(seen + {l}, keyOf, j) == Having(seen, keyOf, j)
  {
  }

  lemma ListsMore(order: seq<Option<Id>>, table: map<Option<Id>, Breakdown>, k: Option<Id>, row: Breakdown)
    requires Lists(order, table.Keys)
    ensures Lists(if k in table then order else order + [k], table[k := row].Keys)
  {
  }

  /** One turn of the loop: the row of the lesson's key, made if it is new, grows by the lesson. */
  method TallyLesson(
    db: Db, ghost seen: set<Id>, keyOf: Id -> Option<Id>, nameOf: Id -> Option<string>,
    order: seq<Option<Id>>, table: map<Option<Id>, Breakdown>, l: Id)
    returns (order': seq<Option<Id>>, table': map<Option<Id>, Breakdown>)
    requires Tallied(db, seen, keyOf, nameOf, table) && Lists(order, table.Keys)
    requires l !in seen && l in db.lessons
    ensures Tallied(db, seen + {l}, keyOf, nameOf, table') && Lists(order', table'.Keys)
  {
    hide Tallied, Lists;
    var k := keyOf(l);
    var row := if k in table then table[k] else Breakdown(k, nameOf(l), 0, 0);
    row := row.(lessons := row.lessons + 1, minutes := row.minutes + db.lessons[l].minutes);
    TallyOne(db, seen, keyOf, nameOf, table, l, row);
    ListsMore(order, table, k, row);
    order' := if k in table then order else order + [k];
    table' := table[k := row];
  }

  lemma NothingTallied(
    db: Db, keyOf: Id -> Option<Id>, nameOf: Id -> Option<string>, order: seq<Option<Id>>, table: map<Option<Id>, Breakdown>)
    requires order == [] && table == map[]
    ensures Tallied(db, {}, keyOf, nameOf, table) && Lists(order, table.Keys)
  {
  }

  /** No row comes twice. */
  ghost predicate Distinct(rows: seq<Id>) {
    forall i, j :: 0 <= i < j < |rows| ==> rows[i] != rows[j]
  }

  ghost predicate Known(db: Db, rows: seq<Id>) {
    forall l <- rows :: l in db.lessons
  }

  lemma NextIsNew(db: Db, rows: seq<Id>, i: nat)
    requires i < |rows| && Distinct(rows) && Known(db, rows)
    ensures rows[i] !in SetOf(rows[..i]) && rows[i] in db.lessons
    ensures SetOf(rows[..i + 1]) == SetOf(rows[..i]) + {rows[i]}
  {
    SetOfMore(rows, i);
  }

  /** One pass over the lessons, keys remembered in the order they are met. */
  method Tally(db: Db, lessons: seq<Id>, keyOf: Id -> Option<Id>, nameOf: Id -> Option<string>)
    returns (order: seq<Option<Id>>, table: map<Option<Id>, Breakdown>)
    requires Known(db, lessons) && Distinct(lessons)
    ensures Tallied(db, SetOf(lessons), keyOf, nameOf, table) && Lists(order, table.Keys)
  {
    order, table := [], map[];
    ghost var seen: set<Id> := {};
    assert SetOf(lessons[..0]) == {};
    NothingTallied(db, keyOf, nameOf, order, table);
    hide *;
    var i := 0;
    while i < |lessons|
      invariant 0 <= i <= |lessons| && seen == SetOf(lessons[..i])
      invariant Tallied(db, seen, keyOf, nameOf, table) && Lists(order, table.Keys)
    {
      NextIsNew(db, lessons, i);
      order, table := TallyLesson(db, seen, keyOf, nameOf, order, table, lessons[i]);
      seen := seen + {lessons[i]};
      i := i + 1;
    }
    assert lessons[..|lessons|] == lessons;
  }

  /** Counts and minutes per key, sorted busiest first and cut to the cap. */
  method BreakdownOf(db: Db, lessons: seq<Id>, keyOf: Id -> Option<Id>, nameOf: Id -> Option<string>)
    returns (rows: seq<Breakdown>)
    requires Known(db, lessons) && Distinct(lessons)
    ensures IsBreakdown(db, SetOf(lessons), keyOf, nameOf, rows)
  {
    var order, table := Tally(db, lessons, keyOf, nameOf);
    hide Tallied, Lists, IsBreakdown, SetOf, Distinct, Known;
    var values := ValuesOf(order, table);
    rows := Capped(Sorting.Sort(values, Outranks));
    CutIsBreakdown(db, SetOf(lessons), keyOf, nameOf, order, table, values, rows);
  }

  function ValuesOf(order: seq<Option<Id>>, table: map<Option<Id>, Breakdown>): (values: seq<Breakdown>)
    requires Lists(order, table.Keys)
    ensures |values| == |order| && forall j :: 0 <= j < |order| ==> order[j] in table && values[j] == table[order[j]]
  {
    seq(|order|, j requires 0 <= j < |order| => assert order[j] in order; table[order[j]])
  }

  /** Sorting the table's rows keeps one row per key. */
  lemma SortedTable(order: seq<Option<Id>>, table: map<Option<Id>, Breakdown>, values: seq<Breakdown>)
    requires |values| == |order| && forall j :: 0 <= j < |order| ==> order[j] in table && values[j] == table[order[j]]
    requires Lists(order, table.Keys)
    requires forall k <- table :: table[k].id == k
    ensures var sorted := Sorting.Sort(values, Outranks);
      && Sorting.Sorted(sorted, Outranks)
      && (forall i, j :: 0 <= i < j < |sorted| ==> sorted[i].id != sorted[j].id)
      && (forall i :: 0 <= i < |sorted| ==> sorted[i].id in table && sorted[i] == table[sorted[i].id])
      && (forall k <- table :: table[k] in sorted)
  {
    var sorted := Sorting.Sort(values, Outranks);
    OutranksIsPreorder();
    hide Outranks, Sorting.Sort, Sorting.Sorted, Sorting.TotalPreorder;
    Sorting.SortSorts(values, Outranks);
    Sorting.SortKeepsElements(values, Outranks);
    assert forall a, b :: 0 <= a < b < |values| ==> values[a].id != values[b].id;
    forall i | 0 <= i < |sorted| ensures sorted[i].id in table && sorted[i] == table[sorted[i].id] {
      assert sorted[i] in values;
    }
    forall k <- table ensures table[k] in sorted {
      var j :| 0 <= j < |order| && order[j] == k;
      assert values[j] in sorted;
    }
  }

  lemma {:induction false} CutRows(
    db: Db, seen: set<Id>, keyOf: Id -> Option<Id>, nameOf: Id -> Option<string>,
    order: seq<Option<Id>>, table: map<Option<Id>, Breakdown>, values: seq<Breakdown>, rows: seq<Breakdown>)
    requires Tallied(db, seen, keyOf, nameOf, table) && Lists(order, table.Keys)
    requires |values| == |order| && forall j :: 0 <= j < |order| ==> order[j] in table && values[j] == table[order[j]]
    requires rows == Capped(Sorting.Sort(values, Outranks))
    ensures Sorting.Sorted(rows, Outranks)
    ensures forall i, j :: 0 <= i < j < |rows| ==> rows[i].id != rows[j].id
    ensures forall row <- rows :: RowOf(db, seen, keyOf, nameOf, row)
  {
    hide RowOf, Outranks, Lists, Sorting.Sort;
    SortedTable(order, table, values);
    var sorted := Sorting.Sort(values, Outranks);
    hide Capped;
    forall row <- rows ensures RowOf(db, seen, keyOf, nameOf, row) {
      var i :| 0 <= i < |rows| && rows[i] == row;
      assert row == sorted[i];
    }
  }

  lemma {:induction false} CutIsBreakdown(
    db: Db, seen: set<Id>, keyOf: Id -> Option<Id>, nameOf: Id -> Option<string>,
    order: seq<Option<Id>>, table: map<Option<Id>, Breakdown>, values: seq<Breakdown>, rows: seq<Breakdown>)
    requires Tallied(db, seen, keyOf, nameOf, table) && Lists(order, table.Keys)
    requires |values| == |order| && forall j :: 0 <= j < |order| ==> order[j] in table && values[j] == table[order[j]]
    requires rows == Capped(Sorting.Sort(values, Outranks))
    ensures IsBreakdown(db, seen, keyOf, nameOf, rows)
  {
    hide RowOf, Outranks;
    CutRows(db, seen, keyOf, nameOf, order, table, values, rows);
    SortedTable(order, table, values);
    var sorted := Sorting.Sort(values, Outranks);
    hide Lists, Kept, CutFor;
    forall l <- seen ensures Kept(rows, keyOf(l))
        || exists row: Breakdown :: row.id == keyOf(l) && CutFor(db, seen, keyOf, nameOf, rows, row)
    {
      KeptOrCut(db, seen, keyOf, nameOf, sorted, rows, table[keyOf(l)]);
    }
  }

  lemma KeptOrCut(
    db: Db, seen: set<Id>, keyOf: Id -> Option<Id>, nameOf: Id -> Option<string>,
    sorted: seq<Breakdown>, rows: seq<Breakdown>, row: Breakdown)
    requires Sorting.Sorted(sorted, Outranks) && row in sorted && RowOf(db, seen, keyOf, nameOf, row)
    requires rows == Capped(sorted)
    ensures Kept(rows, row.id) || CutFor(db, seen, keyOf, nameOf, rows, row)
  {
    hide RowOf, Outranks;
    var p :| 0 <= p < |sorted| && sorted[p] == row;
    if p < |rows| {
      assert rows[p].id == row.id;
    } else {
      forall kept <- rows ensures Outranks(kept, row) {
        var i :| 0 <= i < |rows| && rows[i] == kept;
        assert sorted[i] == kept && i < p;
      }
    }
  }

  function RowMinutes(row: Breakdown): int {
    row.minutes
  }

  function KeptOf(lessons: set<Id>, keyOf: Id -> Option<Id>, rows: seq<Breakdown>): set<Id> {
    set l | l in lessons && exists i :: 0 <= i < |rows| && rows[i].id == keyOf(l)
  }

  /** Row minutes never exceed what was taught, and account for all of it when no key was cut. */
  lemma BreakdownMinutes(db: Db, lessons: set<Id>, keyOf: Id -> Option<Id>, nameOf: Id -> Option<string>, rows: seq<Breakdown>)
    requires IsBreakdown(db, lessons, keyOf, nameOf, rows)
    ensures SumSeq(rows, RowMinutes) <= Sum(lessons, MinutesAt(db))
    ensures (forall l <- lessons :: Kept(rows, keyOf(l))) ==> SumSeq(rows, RowMinutes) == Sum(lessons, MinutesAt(db))
  {
    var kept := KeptOf(lessons, keyOf, rows);
    var cut := lessons - kept;
    RowsSumToKept(db, lessons, keyOf, nameOf, rows);
    SumUnion(kept, cut, MinutesAt(db));
    assert kept + cut == lessons;
    MinutesNatural(db, cut);
    if forall l <- lessons :: Kept(rows, keyOf(l)) {
      assert cut == {};
    }
    hide IsBreakdown;
  }

  /** The subjects, or tutors, that some lesson is counted under. */
  function KeysOf(lessons: set<Id>, keyOf: Id -> Option<Id>): set<Option<Id>> {
    set l | l in lessons :: keyOf(l)
  }

  function RowIds(rows: seq<Breakdown>): set<Option<Id>> {
    set i | 0 <= i < |rows| :: rows[i].id
  }

  lemma {:induction false} RowIdsCount(rows: seq<Breakdown>)
    requires forall i, j :: 0 <= i < j < |rows| ==> rows[i].id != rows[j].id
    ensures |RowIds(rows)| == |rows|
  {
    if rows == [] {
      assert RowIds(rows) == {};
    } else {
      var front, last := rows[..|rows| - 1], rows[|rows| - 1];
      RowIdsCount(front);
      forall id ensures id in RowIds(rows) <==> id in RowIds(front) || id == last.id {
        if id in RowIds(front) {
          var i :| 0 <= i < |front| && front[i].id == id;
          assert rows[i].id == id;
        }
        if i :| 0 <= i < |rows| && rows[i].id == id && i < |front| {
          assert front[i].id == id;
        }
      }
      assert RowIds(rows) == RowIds(front) + {last.id};
    }
  }

  lemma SmallerSet<T>(a: set<T>, b: set<T>)
    requires a <= b
    ensures |a| <= |b|
  {
    assert a + (b - a) == b;
  }

  lemma RowIdsAreKeys(db: Db, lessons: set<Id>, keyOf: Id -> Option<Id>, nameOf: Id -> Option<string>, rows: seq<Breakdown>)
    requires IsBreakdown(db, lessons, keyOf, nameOf, rows)
    ensures RowIds(rows) <= KeysOf(lessons, keyOf) && |RowIds(rows)| == |rows| <= MAX_BREAKDOWN_ROWS
  {
    RowIdsCount(rows);
    forall id <- RowIds(rows) ensures id in KeysOf(lessons, keyOf) {
      var i :| 0 <= i < |rows| && rows[i].id == id;
      assert RowOf(db, lessons, keyOf, nameOf, rows[i]);
      var l :| l in Having(lessons, keyOf, id);
    }
    hide CutFor;
  }

  lemma CutMeansFull(
    db: Db, lessons: set<Id>, keyOf: Id -> Option<Id>, nameOf: Id -> Option<string>, rows: seq<Breakdown>, l: Id)
    requires IsBreakdown(db, lessons, keyOf, nameOf, rows) && l in lessons && keyOf(l) !in RowIds(rows)
    ensures |rows| == MAX_BREAKDOWN_ROWS
  {
    hide RowOf, Outranks;
    assert forall i :: 0 <= i < |rows| ==> rows[i].id in RowIds(rows);
  }

  lemma KeptIsRowId(rows: seq<Breakdown>, id: Option<Id>)
    ensures Kept(rows, id) <==> id in RowIds(rows)
  {
  }

  /** No key is cut exactly when the cap has room for them all. */
  lemma NothingCutIff(db: Db, lessons: set<Id>, keyOf: Id -> Option<Id>, nameOf: Id -> Option<string>, rows: seq<Breakdown>)
    requires IsBreakdown(db, lessons, keyOf, nameOf, rows)
    ensures (forall l <- lessons :: Kept(rows, keyOf(l))) <==> |KeysOf(lessons, keyOf)| <= 20
  {
    var keys, ids := KeysOf(lessons, keyOf), RowIds(rows);
    RowIdsAreKeys(db, lessons, keyOf, nameOf, rows);
    forall l <- lessons ensures Kept(rows, keyOf(l)) <==> keyOf(l) in ids { KeptIsRowId(rows, keyOf(l)); }
    if !(keys <= ids) {
      var l :| l in lessons && keyOf(l) !in ids;
      CutMeansFull(db, lessons, keyOf, nameOf, rows, l);
    }
    hide IsBreakdown, Kept, RowIds;
    CoveredIff(keys, ids, MAX_BREAKDOWN_ROWS);
  }

  lemma CoveredIff(keys: set<Option<Id>>, ids: set<Option<Id>>, cap: nat)
    requires ids <= keys && |ids| <= cap && (keys <= ids || |ids| == cap)
    ensures keys <= ids <==> |keys| <= cap
  {
    if keys <= ids {
      assert keys == ids;
    } else {
      var k :| k in keys && k !in ids;
      SmallerSet(ids + {k}, keys);
    }
  }

  lemma {:induction false} MinutesNatural(db: Db, lessons: set<Id>)
    ensures Sum(lessons, MinutesAt(db)) >= 0
    decreases |lessons|
  {
    if lessons != {} {
      var l :| l in lessons;
      SumPick(lessons, MinutesAt(db), l);
      MinutesNatural(db, lessons - {l});
    }
  }

  lemma OneRowMore(lessons: set<Id>, keyOf: Id -> Option<Id>, rows: seq<Breakdown>)
    requires rows != [] && forall i, j :: 0 <= i < j < |rows| ==> rows[i].id != rows[j].id
    ensures var front, last := rows[..|rows| - 1], rows[|rows| - 1];
      && KeptOf(lessons, keyOf, rows) == KeptOf(lessons, keyOf, front) + Having(lessons, keyOf, last.id)
      && KeptOf(lessons, keyOf, front) !! Having(lessons, keyOf, last.id)
  {
    var front, last := rows[..|rows| - 1], rows[|rows| - 1];
    forall l <- lessons
      ensures l in KeptOf(lessons, keyOf, rows)
         <==> l in KeptOf(lessons, keyOf, front) || l in Having(lessons, keyOf, last.id)
    {
      if i :| 0 <= i < |front| && front[i].id == keyOf(l) { assert rows[i].id == keyOf(l); }
      if keyOf(l) == last.id { assert rows[|rows| - 1].id == keyOf(l); }
      if i :| 0 <= i < |rows| && rows[i].id == keyOf(l) && i < |front| { assert front[i].id == keyOf(l); }
    }
  }

  lemma RowMinutesAre(
    db: Db, lessons: set<Id>, keyOf: Id -> Option<Id>, nameOf: Id -> Option<string>, row: Breakdown)
    requires RowOf(db, lessons, keyOf, nameOf, row)
    ensures RowMinutes(row) == Sum(Having(lessons, keyOf, row.id), MinutesAt(db))
  {
  }

  lemma {:induction false} RowsSumToKept(
    db: Db, lessons: set<Id>, keyOf: Id -> Option<Id>, nameOf: Id -> Option<string>, rows: seq<Breakdown>)
    requires forall i, j :: 0 <= i < j < |rows| ==> rows[i].id != rows[j].id
    requires forall row <- rows :: RowOf(db, lessons, keyOf, nameOf, row)
    ensures SumSeq(rows, RowMinutes) == Sum(KeptOf(lessons, keyOf, rows), MinutesAt(db))
  {
    if rows == [] {
      assert KeptOf(lessons, keyOf, rows) == {};
    } else {
      hide RowOf, KeptOf, Having, Sum, RowMinutes;
      var front, last := rows[..|rows| - 1], rows[|rows| - 1];
      RowsSumToKept(db, lessons, keyOf, nameOf, front);
      OneRowMore(lessons, keyOf, rows);
      RowMinutesAre(db, lessons, keyOf, nameOf, last);
      SumUnion(KeptOf(lessons, keyOf, front), Having(lessons, keyOf, last.id), MinutesAt(db));
    }
  }

  // ----- The report -----

  function SubjectKey(db: Db): Id -> Option<Id> {
    (l: Id) => if l in db.lessons then db.lessons[l].subject else None
  }

  function SubjectName(db: Db): Id -> Option<string> {
    (l: Id) =>
      if l in db.lessons && db.lessons[l].subject.Some? && db.lessons[l].subject.value in db.subjects
      then Some(db.subjects[db.lessons[l].subject.value].name) else None
  }

  function TutorKey(db: Db): Id -> Option<Id> {
    (l: Id) => if l in db.lessons then Some(db.lessons[l].tutor) else None
  }

  function TutorName(db: Db): Id -> Option<string> {
    (l: Id) =>
      if l in db.lessons && db.lessons[l].tutor in db.users then Some(db.users[db.lessons[l].tutor].name) else None
  }

  function CountIn(average: Option<GradeAverage>): nat {
    if average.Some? then average.value.count else 0
  }

  function Read(report: Report, figure: Figure): int {
    match figure
    case Total => report.lessons.total
    case CompletedLessons => report.lessons.completed
    case CancelledLessons => report.lessons.cancelled
    case ScheduledLessons => report.lessons.scheduled
    case Unwritten => report.unwritten
    case Minutes => report.minutesTaught
    case Presents => report.attendance.present
    case Lates => report.attendance.late
    case Excused => report.attendance.absentExcused
    case Unexcused => report.attendance.absentUnexcused
    case MarkedSeats => report.attendance.marked
    case AllMarks => report.grades.count
    case ClassicMarks => CountIn(report.grades.classic)
    case PercentageMarks => CountIn(report.grades.percentage)
    case WordMarks => report.grades.descriptiveCount
  }

  /** The rate is the share of marked seats whose student turned up, and each average that of the marks selected. */
  ghost predicate IsMeasured(db: Db, school: Id, marks: set<Id>, report: Report) {
    && school in db.schools
    && IsRate(report.attendance.rate, report.attendance.present + report.attendance.late, report.attendance.marked)
    && IsAverageOf(db, marks, Classic, db.schools[school].gradeScaleMax, report.grades.classic)
    && IsAverageOf(db, marks, Percentage, 100, report.grades.percentage)
  }

  /** Every figure is the declared sum, the rate and the averages are those of the rows selected, students are counted once
      each, and the breakdowns account for the completed lessons by subject and, school-wide, by tutor. */
  ghost predicate IsReport(db: Db, school: Id, tutor: Option<Id>, w: Window, report: Report) {
    var lessons := LessonsIn(db, school, tutor, w);
    var completed := LessonsAt(db, lessons, Completed);
    && IsMeasured(db, school, MarksIn(db, school, tutor, w), report)
    && report.window == w && report.scope == tutor
    && (forall figure :: Read(report, figure) == Declared(db, school, tutor, w, figure))
    && report.studentsTaught == |TaughtIn(db, lessons)|
    && IsBreakdown(db, completed, SubjectKey(db), SubjectName(db), report.bySubject)
    && (report.byTutor.Some? <==> tutor.None?)
    && (tutor.None? ==> IsBreakdown(db, completed, TutorKey(db), TutorName(db), report.byTutor.value))
  }

  // ----- What the report says -----

  /** The lessons of a school, or of one of its tutors, that start in the window: its first moment in, its last one out. */
  function Held(db: Db, school: Id, tutor: Option<Id>, w: Window): set<Id> {
    set l | l in db.lessons && db.lessons[l].school == school && (tutor.Some? ==> db.lessons[l].tutor == tutor.value)
            && db.lessons[l].startsAt >= w.from && db.lessons[l].startsAt < w.to
  }

  /** The marks given to the school's students in the window, by anybody or by one tutor. */
  function Given(db: Db, school: Id, tutor: Option<Id>, w: Window): set<Id> {
    set g | g in db.grades && db.grades[g].student in db.students && db.students[db.grades[g].student].school == school
            && (tutor.Some? ==> db.grades[g].author == tutor.value)
            && db.grades[g].createdAt >= w.from && db.grades[g].createdAt < w.to
  }

  function Kind(db: Db, given: set<Id>, kind: GradeKind): set<Id> {
    set g | g in given && g in db.grades && db.grades[g].kind == kind
  }

  /** The lessons without a register row. */
  function Unmarked(db: Db, lessons: set<Id>): set<Id> {
    set l | l in lessons && l !in Lessons(db.register.Keys)
  }

  function Lessons(seats: set<Seat>): set<Id> {
    set k | k in seats :: k.lesson
  }

  ghost predicate LessonsSay(db: Db, held: set<Id>, report: Report) {
    var completed := LessonsAt(db, held, Completed);
    && report.lessons
       == LessonCounts(|held|, |completed|, |LessonsAt(db, held, Cancelled)|, |LessonsAt(db, held, Scheduled)|)
    && report.unwritten == |Unmarked(db, completed)|
    && report.minutesTaught == Sum(completed, MinutesAt(db))
  }

  ghost predicate SeatsSay(db: Db, held: set<Id>, report: Report) {
    var seats := set k | k in db.register && k.lesson in held;
    && report.attendance.present == |MarkedAs(db, seats, Present)|
    && report.attendance.late == |MarkedAs(db, seats, Late)|
    && report.attendance.absentExcused == |MarkedAs(db, seats, AbsentExcused)|
    && report.attendance.absentUnexcused == |MarkedAs(db, seats, AbsentUnexcused)|
    && report.attendance.marked == |seats|
  }

  ghost predicate MarksSay(db: Db, given: set<Id>, report: Report) {
    && report.grades.count == |given|
    && report.grades.descriptiveCount == |Kind(db, given, Descriptive)|
    && CountIn(report.grades.classic) == |Kind(db, given, Classic)|
    && CountIn(report.grades.percentage) == |Kind(db, given, Percentage)|
  }

  /** A row of a breakdown counts the completed lessons of one subject, or of one tutor, and carries their name; no row comes
      after one with fewer minutes, or with as many and fewer lessons. */
  ghost predicate RowsSay(db: Db, completed: set<Id>, bySubject: bool, rows: seq<Breakdown>) {
    && |rows| <= 20
    && (forall row <- rows ::
          var mine := CountedUnder(db, completed, bySubject, row.id);
          row.lessons == |mine| > 0 && row.minutes == Sum(mine, MinutesAt(db)) && row.name == NameOf(db, bySubject, row.id))
    && forall i, j :: 0 <= i < j < |rows| ==>
         rows[i].minutes >= rows[j].minutes && (rows[i].minutes == rows[j].minutes ==> rows[i].lessons >= rows[j].lessons)
  }

  function CountedUnder(db: Db, completed: set<Id>, bySubject: bool, id: Option<Id>): set<Id> {
    set l | l in completed && l in db.lessons && id == if bySubject then db.lessons[l].subject else Some(db.lessons[l].tutor)
  }

  function NameOf(db: Db, bySubject: bool, id: Option<Id>): Option<string> {
    if id.None? then None
    else if bySubject then if id.value in db.subjects then Some(db.subjects[id.value].name) else None
    else if id.value in db.users then Some(db.users[id.value].name) else None
  }

  /** The report in plain counts. */
  ghost predicate SaysSo(db: Db, school: Id, tutor: Option<Id>, w: Window, report: Report) {
    var held := Held(db, school, tutor, w);
    && report.window == w && report.scope == tutor
    && LessonsSay(db, held, report) && SeatsSay(db, held, report) && MarksSay(db, Given(db, school, tutor, w), report)
    && report.studentsTaught == |(set s | s in db.students
                                         && exists l :: l in held && l in db.lessons && Answers.Attends(db, db.lessons[l], s))|
    && RowsSay(db, LessonsAt(db, held, Completed), true, report.bySubject)
    && (report.byTutor.Some? <==> tutor.None?)
    && (report.byTutor.Some? ==> RowsSay(db, LessonsAt(db, held, Completed), false, report.byTutor.value))
  }

  lemma CountIs<T(!new)>(s: set<T>, f: T -> int, counted: set<T>)
    requires counted <= s && forall x <- s :: f(x) == if x in counted then 1 else 0
    ensures Sum(s, f) == |counted|
  {
    SumCounts(s, f, (x: T) => x in counted);
    assert Such(s, (x: T) => x in counted) == counted;
  }

  lemma ReadIs(db: Db, school: Id, tutor: Option<Id>, w: Window, report: Report, figure: Figure)
    requires IsReport(db, school, tutor, w, report)
    ensures Read(report, figure)
         == if OfLessons(figure) then Sum(LessonsIn(db, school, tutor, w), LessonWeight(db, figure))
            else if OfSeats(figure) then Sum(SeatsIn(db, school, tutor, w), SeatWeight(db, figure))
            else Sum(MarksIn(db, school, tutor, w), MarkWeight(db, figure))
  {
    OneQueryEach(db, school, tutor, w, figure);
    assert Read(report, figure) == Declared(db, school, tutor, w, figure);
    hide IsReport, Read, Declared, LessonsIn, SeatsIn, MarksIn, LessonWeight, SeatWeight, MarkWeight, OfLessons, OfSeats;
  }

  lemma StatusesAreSaid(db: Db, held: set<Id>)
    ensures Sum(held, LessonWeight(db, CompletedLessons)) == |LessonsAt(db, held, Completed)|
    ensures Sum(held, LessonWeight(db, CancelledLessons)) == |LessonsAt(db, held, Cancelled)|
    ensures Sum(held, LessonWeight(db, ScheduledLessons)) == |LessonsAt(db, held, Scheduled)|
    ensures Sum(held, LessonWeight(db, Total)) == |held|
  {
    CountIs(held, LessonWeight(db, CompletedLessons), LessonsAt(db, held, Completed));
    CountIs(held, LessonWeight(db, CancelledLessons), LessonsAt(db, held, Cancelled));
    CountIs(held, LessonWeight(db, ScheduledLessons), LessonsAt(db, held, Scheduled));
    CountIs(held, LessonWeight(db, Total), held);
  }

  lemma UnwrittenAreSaid(db: Db, held: set<Id>)
    ensures Sum(held, LessonWeight(db, Unwritten)) == |Unmarked(db, LessonsAt(db, held, Completed))|
  {
    var unmarked := Unmarked(db, LessonsAt(db, held, Completed));
    forall l ensures NobodyMarked(db, l) <==> l !in Lessons(db.register.Keys) {
      if l in Lessons(db.register.Keys) {
        var k :| k in db.register.Keys && k.lesson == l;
      } else {
        forall k <- db.register ensures k.lesson != l { assert k.lesson in Lessons(db.register.Keys); }
      }
    }
    hide NobodyMarked, Lessons;
    forall l <- held ensures LessonWeight(db, Unwritten)(l) == if l in unmarked then 1 else 0 { }
    hide LessonWeight, Unmarked;
    CountIs(held, LessonWeight(db, Unwritten), unmarked);
  }

  lemma AllAreSaid(db: Db, seats: set<Seat>, given: set<Id>)
    ensures Sum(seats, SeatWeight(db, MarkedSeats)) == |seats| && Sum(given, MarkWeight(db, AllMarks)) == |given|
  {
    SumOnes(seats, SeatWeight(db, MarkedSeats));
    SumOnes(given, MarkWeight(db, AllMarks));
  }

  lemma SelectionIsPlain(db: Db, school: Id, tutor: Option<Id>, w: Window)
    ensures LessonsIn(db, school, tutor, w) == Held(db, school, tutor, w)
    ensures SeatsIn(db, school, tutor, w) == set k | k in db.register && k.lesson in Held(db, school, tutor, w)
    ensures MarksIn(db, school, tutor, w) == Given(db, school, tutor, w)
  {
    assert LessonsIn(db, school, tutor, w) == Held(db, school, tutor, w);
  }

  lemma LessonsAreSaid(db: Db, school: Id, tutor: Option<Id>, w: Window, report: Report)
    requires IsReport(db, school, tutor, w, report)
    ensures LessonsSay(db, Held(db, school, tutor, w), report)
  {
    hide IsReport, IsMeasured, IsBreakdown, Declared, LessonsIn, SeatsIn, MarksIn, LessonWeight, SeatWeight, MarkWeight,
      LessonsAt, Unmarked, MinutesAt;
    SelectionIsPlain(db, school, tutor, w);
    hide Held;
    ReadIs(db, school, tutor, w, report, Total);
    ReadIs(db, school, tutor, w, report, CompletedLessons);
    ReadIs(db, school, tutor, w, report, CancelledLessons);
    ReadIs(db, school, tutor, w, report, ScheduledLessons);
    ReadIs(db, school, tutor, w, report, Unwritten);
    ReadIs(db, school, tutor, w, report, Minutes);
    StatusesAreSaid(db, Held(db, school, tutor, w));
    UnwrittenAreSaid(db, Held(db, school, tutor, w));
    MinutesAreCompleted(db, school, tutor, w);
    OneQueryEach(db, school, tutor, w, Minutes);
  }

  lemma SeatedAre(db: Db, seats: set<Seat>, figure: Figure, status: AttendanceStatus)
    requires || (figure == Presents && status == Present) || (figure == Lates && status == Late)
             || (figure == Excused && status == AbsentExcused) || (figure == Unexcused && status == AbsentUnexcused)
    ensures Sum(seats, SeatWeight(db, figure)) == |MarkedAs(db, seats, status)|
  {
    forall k <- seats ensures SeatWeight(db, figure)(k) == if k in MarkedAs(db, seats, status) then 1 else 0 {
      assert WithMark(db, status)(k) == (k in db.register && db.register[k].status == status);
    }
    hide SeatWeight, MarkedAs;
    CountIs(seats, SeatWeight(db, figure), MarkedAs(db, seats, status));
  }

  lemma SeatsAreSaid(db: Db, school: Id, tutor: Option<Id>, w: Window, report: Report)
    requires IsReport(db, school, tutor, w, report)
    ensures SeatsSay(db, Held(db, school, tutor, w), report)
  {
    hide IsReport, IsMeasured, IsBreakdown, Declared, LessonsIn, SeatsIn, MarksIn, LessonWeight, SeatWeight, MarkWeight,
      MarkedAs, Held;
    var seats := SeatsIn(db, school, tutor, w);
    SelectionIsPlain(db, school, tutor, w);
    ReadIs(db, school, tutor, w, report, Presents);
    ReadIs(db, school, tutor, w, report, Lates);
    ReadIs(db, school, tutor, w, report, Excused);
    ReadIs(db, school, tutor, w, report, Unexcused);
    ReadIs(db, school, tutor, w, report, MarkedSeats);
    AllAreSaid(db, seats, {});
    SeatedAre(db, seats, Presents, Present);
    SeatedAre(db, seats, Lates, Late);
    SeatedAre(db, seats, Excused, AbsentExcused);
    SeatedAre(db, seats, Unexcused, AbsentUnexcused);
  }

  lemma KindIsSaid(db: Db, given: set<Id>, figure: Figure, kind: GradeKind)
    requires || (figure == WordMarks && kind == Descriptive) || (figure == ClassicMarks && kind == Classic)
             || (figure == PercentageMarks && kind == Percentage)
    ensures Sum(given, MarkWeight(db, figure)) == |Kind(db, given, kind)|
  {
    forall g <- given ensures MarkWeight(db, figure)(g) == if g in Kind(db, given, kind) then 1 else 0 {
      assert OfKind(db, kind)(g) == (g in db.grades && db.grades[g].kind == kind);
    }
    hide MarkWeight, Kind;
    CountIs(given, MarkWeight(db, figure), Kind(db, given, kind));
  }

  lemma MarksAreSaid(db: Db, school: Id, tutor: Option<Id>, w: Window, report: Report)
    requires IsReport(db, school, tutor, w, report)
    ensures MarksSay(db, Given(db, school, tutor, w), report)
  {
    hide IsReport, IsMeasured, IsBreakdown, Declared, LessonsIn, SeatsIn, MarksIn, LessonWeight, SeatWeight, MarkWeight,
      Kind, Given;
    var given := Given(db, school, tutor, w);
    SelectionIsPlain(db, school, tutor, w);
    ReadIs(db, school, tutor, w, report, AllMarks);
    ReadIs(db, school, tutor, w, report, WordMarks);
    ReadIs(db, school, tutor, w, report, ClassicMarks);
    ReadIs(db, school, tutor, w, report, PercentageMarks);
    AllAreSaid(db, {}, given);
    KindIsSaid(db, given, WordMarks, Descriptive);
    KindIsSaid(db, given, ClassicMarks, Classic);
    KindIsSaid(db, given, PercentageMarks, Percentage);
  }

  /** One row, over the lessons with its key. */
  lemma RowIsSaid(db: Db, completed: set<Id>, bySubject: bool, row: Breakdown)
    requires completed <= db.lessons.Keys
    requires RowOf(db, completed, if bySubject then SubjectKey(db) else TutorKey(db),
                   if bySubject then SubjectName(db) else TutorName(db), row)
    ensures var mine := CountedUnder(db, completed, bySubject, row.id);
      row.lessons == |mine| > 0 && row.minutes == Sum(mine, MinutesAt(db)) && row.name == NameOf(db, bySubject, row.id)
  {
    var mine := CountedUnder(db, completed, bySubject, row.id);
    assert Having(completed, if bySubject then SubjectKey(db) else TutorKey(db), row.id) == mine;
    hide Sum;
  }

  lemma RowsAreSaid(db: Db, completed: set<Id>, bySubject: bool, rows: seq<Breakdown>)
    requires completed <= db.lessons.Keys
    requires IsBreakdown(db, completed, if bySubject then SubjectKey(db) else TutorKey(db),
                         if bySubject then SubjectName(db) else TutorName(db), rows)
    ensures RowsSay(db, completed, bySubject, rows)
  {
    forall i, j | 0 <= i < j < |rows|
      ensures rows[i].minutes >= rows[j].minutes && (rows[i].minutes == rows[j].minutes ==> rows[i].lessons >= rows[j].lessons)
    {
      assert Outranks(rows[i], rows[j]);
    }
    hide RowOf, CountedUnder, NameOf, MinutesAt, CutFor;
    forall row <- rows
      ensures var mine := CountedUnder(db, completed, bySubject, row.id);
        row.lessons == |mine| > 0 && row.minutes == Sum(mine, MinutesAt(db)) && row.name == NameOf(db, bySubject, row.id)
    {
      RowIsSaid(db, completed, bySubject, row);
    }
  }

  lemma TaughtIsSaid(db: Db, held: set<Id>)
    requires Closed(db) && held <= db.lessons.Keys
    ensures TaughtIn(db, held)
         == set s | s in db.students && exists l :: l in held && l in db.lessons && Answers.Attends(db, db.lessons[l], s)
  {
    forall l <- held, s ensures s in StudentsOf(db, db.lessons[l]) <==> Answers.Attends(db, db.lessons[l], s) {
      Answers.AttendsIffStudent(db, db.lessons[l], s);
    }
    forall l <- held, s | s in StudentsOf(db, db.lessons[l]) ensures s in db.students {
      EligibleSeat(db, l, s);
    }
    hide Closed, StudentsOf, Answers.Attends;
  }

  /** Every report says so, in plain counts of plain rows. */
  lemma ReportSays(db: Db, school: Id, tutor: Option<Id>, w: Window, report: Report)
    requires Closed(db) && IsReport(db, school, tutor, w, report)
    ensures SaysSo(db, school, tutor, w, report)
  {
    var held := Held(db, school, tutor, w);
    SelectionIsPlain(db, school, tutor, w);
    assert held <= db.lessons.Keys;
    LessonsAreSaid(db, school, tutor, w, report);
    SeatsAreSaid(db, school, tutor, w, report);
    MarksAreSaid(db, school, tutor, w, report);
    TaughtIsSaid(db, held);
    hide Held, LessonsIn, SeatsIn, MarksIn, Closed, LessonsSay, SeatsSay, MarksSay, RowsSay, IsMeasured, IsBreakdown, Declared, TaughtIn;
    var completed := LessonsAt(db, held, Completed);
    assert completed <= db.lessons.Keys;
    hide LessonsAt;
    RowsAreSaid(db, completed, true, report.bySubject);
    if tutor.None? { RowsAreSaid(db, completed, false, report.byTutor.value); }
  }

  lemma SumNothing<T(!new)>(s: set<T>, f: T -> int)
    requires forall x <- s :: f(x) == 0
    ensures Sum(s, f) == 0
  {
    SumAtMost(s, f, 0);
  }

  lemma SumOnes<T(!new)>(s: set<T>, f: T -> int)
    requires forall x <- s :: f(x) == 1
    ensures Sum(s, f) == |s|
  {
    SumCounts(s, f, (x: T) => true);
    assert Such(s, (x: T) => true) == s;
  }

  predicate OfLessons(figure: Figure) {
    figure.Total? || figure.CompletedLessons? || figure.CancelledLessons? || figure.ScheduledLessons?
    || figure.Unwritten? || figure.Minutes?
  }

  predicate OfSeats(figure: Figure) {
    figure.Presents? || figure.Lates? || figure.Excused? || figure.Unexcused? || figure.MarkedSeats?
  }

  /** A figure draws on one of the three queries only. */
  lemma OneQueryEach(db: Db, school: Id, tutor: Option<Id>, w: Window, figure: Figure)
    ensures Declared(db, school, tutor, w, figure)
         == if OfLessons(figure) then Sum(LessonsIn(db, school, tutor, w), LessonWeight(db, figure))
            else if OfSeats(figure) then Sum(SeatsIn(db, school, tutor, w), SeatWeight(db, figure))
            else Sum(MarksIn(db, school, tutor, w), MarkWeight(db, figure))
  {
    if !OfLessons(figure) { SumNothing(LessonsIn(db, school, tutor, w), LessonWeight(db, figure)); }
    if !OfSeats(figure) { SumNothing(SeatsIn(db, school, tutor, w), SeatWeight(db, figure)); }
    if OfLessons(figure) || OfSeats(figure) { SumNothing(MarksIn(db, school, tutor, w), MarkWeight(db, figure)); }
    hide LessonsIn, SeatsIn, MarksIn;
  }

  lemma StatusFigure(db: Db, s: set<Id>, figure: Figure, status: LessonStatus)
    requires (figure, status) in {
      (CompletedLessons, Completed), (CancelledLessons, Cancelled), (ScheduledLessons, Scheduled)}
    ensures Sum(s, LessonWeight(db, figure)) == |LessonsAt(db, s, status)|
  {
    SumCounts(s, LessonWeight(db, figure), WithLessonStatus(db, status));
    assert Such(s, WithLessonStatus(db, status)) == LessonsAt(db, s, status);
  }

  lemma MarkFigure(db: Db, s: set<Seat>, figure: Figure, status: AttendanceStatus)
    requires (figure, status) in {
      (Presents, Present), (Lates, Late), (Excused, AbsentExcused), (Unexcused, AbsentUnexcused)}
    ensures Sum(s, SeatWeight(db, figure)) == |MarkedAs(db, s, status)|
  {
    SumCounts(s, SeatWeight(db, figure), WithMark(db, status));
    assert Such(s, WithMark(db, status)) == MarkedAs(db, s, status);
  }

  function Unattended(db: Db): Id -> bool {
    (l: Id) => NobodyMarked(db, l)
  }

  lemma UnwrittenFigure(db: Db, s: set<Id>, completed: seq<Id>)
    requires Lists(completed, LessonsAt(db, s, Completed))
    ensures Sum(s, LessonWeight(db, Unwritten)) == |Filter(completed, Unattended(db))|
  {
    var done := LessonsAt(db, s, Completed);
    var both := (l: Id) => IsAt(db, l, Completed) && NobodyMarked(db, l);
    SumCounts(s, LessonWeight(db, Unwritten), both);
    CountOf(completed, done, Unattended(db));
    assert Such(s, both) == Such(done, Unattended(db));
  }

  lemma MinutesFigure(db: Db, s: set<Id>, completed: seq<Id>)
    requires Lists(completed, LessonsAt(db, s, Completed))
    ensures Sum(s, LessonWeight(db, Minutes)) == SumSeq(completed, MinutesAt(db))
  {
    var done := LessonsAt(db, s, Completed);
    SumSeqIsSum(completed, done, MinutesAt(db));
    SumSame(done, LessonWeight(db, Minutes), MinutesAt(db));
    SumNothing(s - done, LessonWeight(db, Minutes));
    SumUnion(done, s - done, LessonWeight(db, Minutes));
    assert done + (s - done) == s;
  }

  lemma CompletedRows(db: Db, lessons: seq<Id>, s: set<Id>)
    requires Lists(lessons, s)
    ensures Lists(Filter(lessons, WithLessonStatus(db, Completed)), LessonsAt(db, s, Completed))
  {
    FilterLists(lessons, s, WithLessonStatus(db, Completed));
    assert Such(s, WithLessonStatus(db, Completed)) == LessonsAt(db, s, Completed);
  }

  /** In a sound state every mark of a numeric kind takes part in that kind's average. */
  lemma KindFigure(db: Db, ids: seq<Id>, s: set<Id>, figure: Figure, kind: GradeKind)
    requires Sound(db) && Lists(ids, s) && forall g <- s :: g in db.grades
    requires (figure, kind) in {(ClassicMarks, Classic), (PercentageMarks, Percentage)}
    ensures Sum(s, MarkWeight(db, figure)) == CountIn(AverageOfKind(db, ids, kind))
  {
    NumericAreCounted(db, ids, kind);
    hide Sound, Counted;
    SumCounts(s, MarkWeight(db, figure), OfKind(db, kind));
    CountOf(ids, s, OfKind(db, kind));
    hide Lists, Such, OfKind;
    AllCounted(GradeRows(db, Filter(ids, OfKind(db, kind))));
  }

  lemma NumericAreCounted(db: Db, ids: seq<Id>, kind: GradeKind)
    requires Sound(db) && kind != Descriptive && forall g <- ids :: g in db.grades
    ensures var chosen := Filter(ids, OfKind(db, kind));
      && (forall g <- chosen :: g in db.grades)
      && forall i :: 0 <= i < |chosen| ==> Counted(db.grades[chosen[i]])
  {
    FilterKeeps(ids, OfKind(db, kind));
    forall g <- Filter(ids, OfKind(db, kind)) ensures Counted(db.grades[g]) { assert GradeFor(db, db.grades[g]); }
    hide Sound, Counted, GradeFor;
  }

  lemma AllCounted(rows: seq<Grade>)
    requires forall i :: 0 <= i < |rows| ==> Counted(rows[i])
    ensures CountIn(Average(rows)) == |rows|
  {
    AllFiltered(rows);
    AverageNoneIff(rows);
    assert rows != [] ==> rows[0] in rows;
  }

  /** The figures the summary reads off its three query results. */
  lemma FiguresAreDeclared(
    db: Db, school: Id, tutor: Option<Id>, w: Window, lessons: seq<Id>, seats: seq<Seat>, marks: seq<Id>,
    report: Report, figure: Figure)
    requires Sound(db)
    requires Lists(lessons, LessonsIn(db, school, tutor, w))
    requires Lists(seats, SeatsIn(db, school, tutor, w))
    requires Lists(marks, MarksIn(db, school, tutor, w))
    requires report.lessons == SummariseLessons(db, lessons)
    requires report.attendance == SummariseAttendance(db, seats)
    requires report.grades == SummariseGrades(db, marks)
    requires var completed := Filter(lessons, WithLessonStatus(db, Completed));
      && report.unwritten == |Filter(completed, Unattended(db))|
      && report.minutesTaught == SumSeq(completed, MinutesAt(db))
    ensures Read(report, figure) == Declared(db, school, tutor, w, figure)
  {
    OneQueryEach(db, school, tutor, w, figure);
    if OfLessons(figure) {
      LessonFigures(db, LessonsIn(db, school, tutor, w), lessons, report, figure);
    } else if OfSeats(figure) {
      SeatFigures(db, SeatsIn(db, school, tutor, w), seats, report, figure);
    } else {
      MarkFigures(db, MarksIn(db, school, tutor, w), marks, report, figure);
    }
  }

  lemma LessonFigures(db: Db, s: set<Id>, lessons: seq<Id>, report: Report, figure: Figure)
    requires Lists(lessons, s) && s <= db.lessons.Keys && OfLessons(figure)
    requires report.lessons == SummariseLessons(db, lessons)
    requires var completed := Filter(lessons, WithLessonStatus(db, Completed));
      && report.unwritten == |Filter(completed, Unattended(db))|
      && report.minutesTaught == SumSeq(completed, MinutesAt(db))
    ensures Read(report, figure) == Sum(s, LessonWeight(db, figure))
  {
    LessonsAddUp(db, lessons, s);
    CompletedRows(db, lessons, s);
    hide SummariseLessons, Lists, LessonsAt;
    match figure
    case Total => SumOnes(s, LessonWeight(db, figure));
    case CompletedLessons => StatusFigure(db, s, figure, Completed);
    case CancelledLessons => StatusFigure(db, s, figure, Cancelled);
    case ScheduledLessons => StatusFigure(db, s, figure, Scheduled);
    case Unwritten => UnwrittenFigure(db, s, Filter(lessons, WithLessonStatus(db, Completed)));
    case Minutes => MinutesFigure(db, s, Filter(lessons, WithLessonStatus(db, Completed)));
  }

  lemma SeatFigures(db: Db, s: set<Seat>, seats: seq<Seat>, report: Report, figure: Figure)
    requires Lists(seats, s) && s <= db.register.Keys && OfSeats(figure)
    requires report.attendance == SummariseAttendance(db, seats)
    ensures Read(report, figure) == Sum(s, SeatWeight(db, figure))
  {
    AttendanceAddsUp(db, seats, s);
    hide SummariseAttendance, Lists, MarkedAs, IsRate;
    match figure
    case Presents => MarkFigure(db, s, figure, Present);
    case Lates => MarkFigure(db, s, figure, Late);
    case Excused => MarkFigure(db, s, figure, AbsentExcused);
    case Unexcused => MarkFigure(db, s, figure, AbsentUnexcused);
    case MarkedSeats => SumOnes(s, SeatWeight(db, figure));
  }

  lemma MarkFigures(db: Db, s: set<Id>, marks: seq<Id>, report: Report, figure: Figure)
    requires Sound(db) && Lists(marks, s) && s <= db.grades.Keys && !OfLessons(figure) && !OfSeats(figure)
    requires report.grades == SummariseGrades(db, marks)
    ensures Read(report, figure) == Sum(s, MarkWeight(db, figure))
  {
    match figure
    case AllMarks =>
      SumOnes(s, MarkWeight(db, figure));
      ListsLength(marks, s);
    case ClassicMarks => KindFigure(db, marks, s, figure, Classic);
    case PercentageMarks => KindFigure(db, marks, s, figure, Percentage);
    case WordMarks =>
      SumCounts(s, MarkWeight(db, figure), OfKind(db, Descriptive));
      CountOf(marks, s, OfKind(db, Descriptive));
  }

  /** The rate and the averages the summary reads off its query results. */
  lemma SummaryIsMeasured(
    db: Db, me: Id, tutor: Option<Id>, w: Window, seats: seq<Seat>, marks: seq<Id>, report: Report)
    requires Sound(db) && me in db.users
    requires Lists(seats, SeatsIn(db, db.users[me].school, tutor, w))
    requires Lists(marks, MarksIn(db, db.users[me].school, tutor, w))
    requires report.attendance == SummariseAttendance(db, seats) && report.grades == SummariseGrades(db, marks)
    ensures IsMeasured(db, db.users[me].school, MarksIn(db, db.users[me].school, tutor, w), report)
  {
    hide Sound, SummariseAttendance, SeatsIn, MarksIn, IsRate, IsAverageOf, AverageOfKind, Lists, GradesIn;
    var school := db.users[me].school;
    CallersSchool(db, me);
    RateIsMeasured(db, school, tutor, w, seats);
    MarksAreOfSchool(db, school, tutor, w, marks);
    AveragesAreMeasured(db, school, MarksIn(db, school, tutor, w), marks);
  }

  lemma RateIsMeasured(db: Db, school: Id, tutor: Option<Id>, w: Window, seats: seq<Seat>)
    requires Lists(seats, SeatsIn(db, school, tutor, w))
    ensures var a := SummariseAttendance(db, seats); IsRate(a.rate, a.present + a.late, a.marked)
  {
    SeatsAreMarked(db, school, tutor, w);
    hide SummariseAttendance, SeatsIn, IsRate, Lists, MarkedAs;
    AttendanceAddsUp(db, seats, SeatsIn(db, school, tutor, w));
  }

  lemma AveragesAreMeasured(db: Db, school: Id, s: set<Id>, marks: seq<Id>)
    requires Sound(db) && school in db.schools && Lists(marks, s) && GradesIn(db, marks, school)
    ensures IsAverageOf(db, s, Classic, db.schools[school].gradeScaleMax, SummariseGrades(db, marks).classic)
    ensures IsAverageOf(db, s, Percentage, 100, SummariseGrades(db, marks).percentage)
  {
    hide Sound, IsAverageOf, AverageOfKind, Lists, GradesIn;
    SoundAveragesStayOnScale(db, marks, s, school, Classic);
    SoundAveragesStayOnScale(db, marks, s, school, Percentage);
  }

  lemma CallersSchool(db: Db, me: Id)
    requires Sound(db) && me in db.users
    ensures db.users[me].school in db.schools
  {
  }

  lemma SeatsAreMarked(db: Db, school: Id, tutor: Option<Id>, w: Window)
    ensures forall k <- SeatsIn(db, school, tutor, w) :: k in db.register
  {
  }

  lemma MarksAreOfSchool(db: Db, school: Id, tutor: Option<Id>, w: Window, marks: seq<Id>)
    requires Lists(marks, MarksIn(db, school, tutor, w))
    ensures GradesIn(db, marks, school)
  {
    forall g <- marks ensures g in MarksIn(db, school, tutor, w) { }
  }

  lemma SelectedExist(db: Db, school: Id, tutor: Option<Id>, w: Window)
    ensures LessonsIn(db, school, tutor, w) <= db.lessons.Keys
  {
  }

  lemma SelectedRows(db: Db, lessons: seq<Id>, s: set<Id>)
    requires Lists(lessons, s) && s <= db.lessons.Keys
    ensures var completed := Filter(lessons, WithLessonStatus(db, Completed));
      && SetOf(lessons) == s && SetOf(completed) == LessonsAt(db, s, Completed)
      && (forall l <- lessons :: l in db.lessons) && Known(db, completed)
      && Distinct(completed)
  {
    CompletedRows(db, lessons, s);
  }

  /** The summary endpoint, over its query results in whatever order they come. */
  method Summary(db: Db, me: Id, query: Query, now: Time, lessons: seq<Id>, seats: seq<Seat>, marks: seq<Id>)
    returns (r: Result<Report>)
    requires Sound(db) && me in db.users
    requires WindowOf(query, now).Ok? && !AsksForAnother(db, me, query.tutor) ==>
      var school, w := db.users[me].school, WindowOf(query, now).value;
      var tutor := if db.users[me].role == Admin then query.tutor else Some(me);
      && Lists(lessons, LessonsIn(db, school, tutor, w))
      && Lists(seats, SeatsIn(db, school, tutor, w))
      && Lists(marks, MarksIn(db, school, tutor, w))
    ensures WindowOf(query, now).Err? ==> r == Err(BadRequest)
    ensures WindowOf(query, now).Ok? ==> (r == Err(Forbidden) <==> AsksForAnother(db, me, query.tutor))
    ensures WindowOf(query, now).Ok? && !AsksForAnother(db, me, query.tutor) ==>
      && r.Ok?
      && var school, w := db.users[me].school, WindowOf(query, now).value;
      && (db.users[me].role == Admin ==>
            IsReport(db, school, query.tutor, w, r.value) && SaysSo(db, school, query.tutor, w, r.value))
      && (db.users[me].role == Tutor ==>
            IsReport(db, school, Some(me), w, r.value) && SaysSo(db, school, Some(me), w, r.value))
      && (db.users[me].role == Tutor ==> r.value.scope == Some(me) && r.value.byTutor.None?)
  {
    hide IsMeasured, LessonsAt, LessonsIn, SeatsIn, MarksIn, IsBreakdown, TaughtIn, Lists, SetOf, Declared, Filter, Closed, Retired,
      LessonsSay, SeatsSay, MarksSay, RowsSay, Held, Given, NamesApart, NamesTrimmed, IdsSpent;
    var w :- WindowOf(query, now);
    ScopeIs(db, me, query.tutor);
    hide WindowOf, TutorScope, AsksForAnother;
    var tutor :- TutorScope(db, me, query.tutor);
    ghost var school := db.users[me].school;
    ghost var selected := LessonsIn(db, school, tutor, w);
    var completed := Filter(lessons, WithLessonStatus(db, Completed));
    SelectedExist(db, school, tutor, w);
    SelectedRows(db, lessons, selected);
    var minutesTaught := SumSeq(completed, MinutesAt(db));
    var unwritten := |Filter(completed, Unattended(db))|;
    var studentsTaught := CountStudentsTaught(db, lessons);
    var bySubject := BreakdownOf(db, completed, SubjectKey(db), SubjectName(db));
    var byTutor := None;
    if tutor.None? {
      var rows := BreakdownOf(db, completed, TutorKey(db), TutorName(db));
      byTutor := Some(rows);
    }
    var report := Report(
      w, tutor, SummariseLessons(db, lessons), unwritten, minutesTaught, studentsTaught,
      SummariseAttendance(db, seats), SummariseGrades(db, marks), bySubject, byTutor);
    SummaryIsMeasured(db, me, tutor, w, seats, marks, report);
    forall figure ensures Read(report, figure) == Declared(db, school, tutor, w, figure) {
      FiguresAreDeclared(db, school, tutor, w, lessons, seats, marks, report, figure);
    }
    ReportSays(db, school, tutor, w, report);
    r := Ok(report);
  }

  // ----- Reports against one another -----

  function ReadFrom(parts: map<Id, Report>, figure: Figure): Id -> int {
    (u: Id) => if u in parts then Read(parts[u], figure) else 0
  }

  /** Every figure of a school's report is the sum of that figure over the reports of its members. */
  lemma MembersReportsAgree(db: Db, school: Id, w: Window, whole: Report, parts: map<Id, Report>, figure: Figure)
    requires Closed(db) && IsReport(db, school, None, w, whole)
    requires parts.Keys == MembersOf(db, school) && forall u <- parts :: IsReport(db, school, Some(u), w, parts[u])
    ensures Read(whole, figure) == Sum(parts.Keys, ReadFrom(parts, figure))
  {
    SchoolIsSumOfMembers(db, school, w, figure);
    hide Closed, IsBreakdown, IsMeasured, Declared, Read;
    SumSame(parts.Keys, (u: Id) => Declared(db, school, Some(u), w, figure), ReadFrom(parts, figure));
  }

  /** The reports of two adjoining windows add up to that of both, in every figure; students taught in both count once. */
  lemma WindowReportsAgree(
    db: Db, school: Id, tutor: Option<Id>, from: Time, mid: Time, to: Time,
    whole: Report, early: Report, late: Report, figure: Figure)
    requires Closed(db) && from <= mid <= to && IsReport(db, school, tutor, Window(from, to), whole)
    requires IsReport(db, school, tutor, Window(from, mid), early) && IsReport(db, school, tutor, Window(mid, to), late)
    ensures Read(whole, figure) == Read(early, figure) + Read(late, figure)
    ensures early.studentsTaught <= whole.studentsTaught && late.studentsTaught <= whole.studentsTaught
    ensures whole.studentsTaught <= early.studentsTaught + late.studentsTaught
  {
    WindowsAddUp(db, school, tutor, from, mid, to, figure);
    TaughtIsUnion(db, school, tutor, from, mid, to);
    hide Closed, IsBreakdown, IsMeasured, Declared, Read, TaughtIn, LessonsIn;
    var a := TaughtIn(db, LessonsIn(db, school, tutor, Window(from, mid)));
    var b := TaughtIn(db, LessonsIn(db, school, tutor, Window(mid, to)));
    SmallerSet(a, a + b);
    SmallerSet(b, a + b);
  }

  /** The rows by subject, and by tutor, account for minutes taught, and for all of them when no more than 20 are due. */
  lemma BreakdownsAgree(db: Db, school: Id, tutor: Option<Id>, w: Window, report: Report)
    requires IsReport(db, school, tutor, w, report)
    ensures var completed := LessonsAt(db, LessonsIn(db, school, tutor, w), Completed);
      && SumSeq(report.bySubject, RowMinutes) <= report.minutesTaught
      && (|KeysOf(completed, SubjectKey(db))| <= 20 ==>
            SumSeq(report.bySubject, RowMinutes) == report.minutesTaught)
      && (report.byTutor.Some? ==>
            && SumSeq(report.byTutor.value, RowMinutes) <= report.minutesTaught
            && (|KeysOf(completed, TutorKey(db))| <= 20 ==>
                  SumSeq(report.byTutor.value, RowMinutes) == report.minutesTaught))
  {
    var completed := LessonsAt(db, LessonsIn(db, school, tutor, w), Completed);
    assert Read(report, Minutes) == Declared(db, school, tutor, w, Minutes);
    MinutesAreCompleted(db, school, tutor, w);
    hide IsMeasured, LessonsAt, LessonsIn, Declared, IsBreakdown, SubjectKey, SubjectName, TutorKey, TutorName, KeysOf;
    BreakdownAccounts(db, completed, SubjectKey(db), SubjectName(db), report.bySubject);
    if report.byTutor.Some? {
      BreakdownAccounts(db, completed, TutorKey(db), TutorName(db), report.byTutor.value);
    }
  }

  lemma BreakdownAccounts(db: Db, lessons: set<Id>, keyOf: Id -> Option<Id>, nameOf: Id -> Option<string>, rows: seq<Breakdown>)
    requires IsBreakdown(db, lessons, keyOf, nameOf, rows)
    ensures SumSeq(rows, RowMinutes) <= Sum(lessons, MinutesAt(db))
    ensures |KeysOf(lessons, keyOf)| <= 20 ==> SumSeq(rows, RowMinutes) == Sum(lessons, MinutesAt(db))
  {
    BreakdownMinutes(db, lessons, keyOf, nameOf, rows);
    NothingCutIff(db, lessons, keyOf, nameOf, rows);
    hide IsBreakdown, KeysOf, Kept;
  }

  lemma MinutesAreCompleted(db: Db, school: Id, tutor: Option<Id>, w: Window)
    ensures Declared(db, school, tutor, w, Minutes)
         == Sum(LessonsAt(db, LessonsIn(db, school, tutor, w), Completed), MinutesAt(db))
  {
    var s := LessonsIn(db, school, tutor, w);
    var done := LessonsAt(db, s, Completed);
    OneQueryEach(db, school, tutor, w, Minutes);
    SumSame(done, LessonWeight(db, Minutes), MinutesAt(db));
    SumNothing(s - done, LessonWeight(db, Minutes));
    SumUnion(done, s - done, LessonWeight(db, Minutes));
    assert done + (s - done) == s;
  }
}

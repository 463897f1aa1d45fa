/** Who has run out of paid lessons, most urgent first. */
module Debtors {
  import opened Foundations
  import opened Books
  import opened Soundness
  import Answers
  import Ledger
  import Reports
  import Sorting

  const DEFAULT_AT_OR_BELOW := 0

  datatype Query = Query(tutor: Option<Id>, atOrBelow: Option<int>)
  datatype Debtor = Debtor(
    student: Id, name: string, tutor: Id, tutorName: Option<string>, paidLessonsLeft: int,
    lessonsOwed: nat, lessonsBooked: nat, lastTaughtAt: Option<Time>)

  // ----- What the queries select -----

  function InScope(db: Db, school: Id, tutor: Option<Id>, atOrBelow: int): set<Id> {
    set s | s in db.students && db.students[s].school == school
            && (tutor.None? || db.students[s].tutor == tutor.value)
            && db.students[s].paidLessonsLeft <= atOrBelow
  }

  predicate Upcoming(db: Db, lesson: Id, now: Time) {
    lesson in db.lessons && db.lessons[lesson].status == Scheduled && db.lessons[lesson].startsAt >= now
  }

  /** The lessons still to come that a student will be at, alone or in a group. */
  function BookedFor(db: Db, student: Id, now: Time): set<Id> {
    set l | l in db.lessons && Upcoming(db, l, now) && student in StudentsOf(db, db.lessons[l])
  }

  function OwnBooked(db: Db, student: Id, now: Time): set<Id> {
    set l | l in db.lessons && Upcoming(db, l, now) && db.lessons[l].student == Some(student)
  }

  predicate InRoom(db: Db, lesson: Id, student: Id) {
    lesson in db.lessons && db.lessons[lesson].group.Some? && Place(db.lessons[lesson].group.value, student) in db.members
  }

  /** Of some lessons, those whose group the student is in. */
  function RoomsOf(db: Db, lessons: set<Id>, student: Id): set<Id> {
    set l | l in lessons && InRoom(db, l, student)
  }

  /** Upcoming group lessons with at least one wanted member. */
  function GroupBooked(db: Db, ids: set<Id>, now: Time): set<Id> {
    set l | l in db.lessons && Upcoming(db, l, now) && exists s <- ids :: InRoom(db, l, s)
  }

  /** The grouped count: one row per wanted student with an upcoming lesson of their own. */
  ghost predicate GroupedOwn(db: Db, ids: set<Id>, now: Time, own: seq<(Id, nat)>) {
    && (forall i, j :: 0 <= i < j < |own| ==> own[i].0 != own[j].0)
    && (forall i :: 0 <= i < |own| ==> own[i].0 in ids && own[i].1 == |OwnBooked(db, own[i].0, now)|)
    && (forall s <- ids :: OwnBooked(db, s, now) != {} ==> exists i :: 0 <= i < |own| && own[i].0 == s)
  }

  function SeatsOf(db: Db, ids: set<Id>): set<Seat> {
    set k | k in db.register && k.student in ids
  }

  function StartOf(db: Db, seat: Seat): Time {
    if seat.lesson in db.lessons then db.lessons[seat.lesson].startsAt else 0
  }

  predicate NewestFirst(db: Db, seats: seq<Seat>) {
    forall i, j :: 0 <= i < j < |seats| ==> StartOf(db, seats[i]) >= StartOf(db, seats[j])
  }

  function At(counts: map<Id, nat>, student: Id): nat {
    if student in counts then counts[student] else 0
  }

  // ----- Lessons booked -----

  /** One group lesson: everybody in the room who is wanted counts one more. */
  method AddRoom(counts: map<Id, nat>, places: set<Place>, wanted: set<Id>) returns (more: map<Id, nat>)
    requires forall p, q | p in places && q in places :: p.student == q.student ==> p == q
    ensures forall s :: At(more, s) == At(counts, s) + if s in wanted && s in Reports.Students(places) then 1 else 0
  {
    more := counts;
    var left := places;
    while left != {}
      invariant left <= places
      invariant forall s :: At(more, s)
                         == At(counts, s) + if s in wanted && s in Reports.Students(places - left) then 1 else 0
      decreases |left|
    {
      var member :| member in left;
      assert places - (left - {member}) == (places - left) + {member};
      assert member.student !in Reports.Students(places - left);
      assert Reports.Students((places - left) + {member}) == Reports.Students(places - left) + {member.student};
      if member.student in wanted {
        more := more[member.student := At(more, member.student) + 1];
      }
      left := left - {member};
    }
    assert places - left == places;
  }

  /** A student's own upcoming lessons and those of their groups are together all of theirs, and none twice. */
  lemma BookedSplits(db: Db, ids: set<Id>, student: Id, now: Time)
    requires Closed(db) && student in ids
    ensures |BookedFor(db, student, now)|
         == |OwnBooked(db, student, now)| + |RoomsOf(db, GroupBooked(db, ids, now), student)|
  {
    var own, rooms := OwnBooked(db, student, now), RoomsOf(db, GroupBooked(db, ids, now), student);
    forall l <- BookedFor(db, student, now) ensures l in own || l in rooms {
      assert LessonFor(db, db.lessons[l]);
      if db.lessons[l].student.None? {
        var p :| p in db.members && db.lessons[l].group == Some(p.group) && p.student == student;
        assert p == Place(p.group, student);
        assert InRoom(db, l, student);
      }
    }
    forall l <- rooms ensures l in BookedFor(db, student, now) && l !in own {
      assert LessonFor(db, db.lessons[l]);
      assert Place(db.lessons[l].group.value, student) in db.members;
    }
    assert BookedFor(db, student, now) == own + rooms;
  }

  method OwnCounts(db: Db, ids: set<Id>, now: Time, own: seq<(Id, nat)>) returns (counts: map<Id, nat>)
    requires GroupedOwn(db, ids, now, own)
    ensures forall s <- ids :: At(counts, s) == |OwnBooked(db, s, now)|
  {
    counts := map[];
    var i := 0;
    while i < |own|
      invariant 0 <= i <= |own|
      invariant forall s :: s in counts <==> exists j :: 0 <= j < i && own[j].0 == s
      invariant forall j :: 0 <= j < i ==> counts[own[j].0] == own[j].1
    {
      counts := counts[own[i].0 := own[i].1];
      i := i + 1;
    }
    forall s <- ids ensures At(counts, s) == |OwnBooked(db, s, now)| {
      if j :| 0 <= j < |own| && own[j].0 == s {
        assert counts[s] == own[j].1;
      }
    }
  }

  lemma OneRoomMore(db: Db, seen: set<Id>, l: Id, group: Id, student: Id)
    requires l !in seen && l in db.lessons && db.lessons[l].group == Some(group)
    ensures student in Reports.Students(Reports.PlacesIn(db, {group})) <==> InRoom(db, l, student)
    ensures |RoomsOf(db, seen + {l}, student)| == |RoomsOf(db, seen, student)| + if InRoom(db, l, student) then 1 else 0
  {
    var before, after := RoomsOf(db, seen, student), RoomsOf(db, seen + {l}, student);
    assert after == if InRoom(db, l, student) then before + {l} else before;
    if InRoom(db, l, student) {
      assert Place(group, student) in Reports.PlacesIn(db, {group});
    }
    if p :| p in Reports.PlacesIn(db, {group}) && p.student == student {
      assert p == Place(group, student);
    }
  }

  /** Lessons still to come, per wanted student, counting group lessons for everybody in the room. */
  method BookedPerStudent(db: Db, ids: set<Id>, now: Time, own: seq<(Id, nat)>, inGroups: seq<Id>)
    returns (counts: map<Id, nat>)
    requires Closed(db) && GroupedOwn(db, ids, now, own) && Lists(inGroups, GroupBooked(db, ids, now))
    ensures forall s <- ids :: At(counts, s) == |BookedFor(db, s, now)|
  {
    counts := OwnCounts(db, ids, now, own);
    var i := 0;
    assert Reports.SetOf(inGroups[..0]) == {};
    while i < |inGroups|
      invariant 0 <= i <= |inGroups|
      invariant forall s <- ids ::
        At(counts, s) == |OwnBooked(db, s, now)| + |RoomsOf(db, Reports.SetOf(inGroups[..i]), s)|
    {
      assert inGroups[i] in GroupBooked(db, ids, now);
      assert inGroups[i] !in Reports.SetOf(inGroups[..i]);
      counts := AddLesson(db, ids, now, counts, Reports.SetOf(inGroups[..i]), inGroups[i]);
      Reports.SetOfMore(inGroups, i);
      i := i + 1;
    }
    assert inGroups[..|inGroups|] == inGroups;
    assert Reports.SetOf(inGroups) == GroupBooked(db, ids, now);
    forall s <- ids ensures At(counts, s) == |BookedFor(db, s, now)| {
      BookedSplits(db, ids, s, now);
    }
  }

  method AddLesson(db: Db, ids: set<Id>, now: Time, counts: map<Id, nat>, ghost seen: set<Id>, l: Id)
    returns (more: map<Id, nat>)
    requires l !in seen && l in db.lessons && db.lessons[l].group.Some?
    requires forall s <- ids :: At(counts, s) == |OwnBooked(db, s, now)| + |RoomsOf(db, seen, s)|
    ensures forall s <- ids :: At(more, s) == |OwnBooked(db, s, now)| + |RoomsOf(db, seen + {l}, s)|
  {
    var group := db.lessons[l].group.value;
    more := AddRoom(counts, Reports.PlacesIn(db, {group}), ids);
    forall s <- ids ensures At(more, s) == |OwnBooked(db, s, now)| + |RoomsOf(db, seen + {l}, s)| {
      OneRoomMore(db, seen, l, group, s);
    }
  }

  // ----- Last taught -----

  /** The latest start over a student's register rows, absences included; none when they were never marked. */
  ghost predicate IsLastTaught(db: Db, student: Id, last: Option<Time>) {
    match last
    case None => forall k <- db.register :: k.student != student
    case Some(t) =>
      && (exists k :: k in db.register && k.student == student && StartOf(db, k) == t)
      && (forall k <- db.register :: k.student == student ==> StartOf(db, k) <= t)
  }

  function Find(last: map<Id, Time>, student: Id): Option<Time> {
    if student in last then Some(last[student]) else None
  }

  /** A table that holds some row's start for each student, and none earlier than any row's, holds the latest. */
  lemma FirstIsLatest(db: Db, ids: set<Id>, rows: seq<Seat>, last: map<Id, Time>)
    requires Lists(rows, SeatsOf(db, ids))
    requires forall s <- last :: exists j :: 0 <= j < |rows| && rows[j].student == s && last[s] == StartOf(db, rows[j])
    requires forall j :: 0 <= j < |rows| ==> rows[j].student in last && StartOf(db, rows[j]) <= last[rows[j].student]
    ensures forall s <- ids :: IsLastTaught(db, s, Find(last, s))
  {
    hide StartOf;
    forall s <- ids ensures IsLastTaught(db, s, Find(last, s)) {
      forall k <- db.register | k.student == s ensures s in last && StartOf(db, k) <= last[s] {
        assert k in SeatsOf(db, ids);
        var j :| 0 <= j < |rows| && rows[j] == k;
      }
      if s in last {
        var j :| 0 <= j < |rows| && rows[j].student == s && last[s] == StartOf(db, rows[j]);
        assert rows[j] in SeatsOf(db, ids);
      }
    }
  }

  /** The first row met for each student, newest rows coming first. */
  method LastTaughtPerStudent(db: Db, ids: set<Id>, rows: seq<Seat>) returns (last: map<Id, Time>)
    requires Lists(rows, SeatsOf(db, ids)) && NewestFirst(db, rows)
    ensures forall s <- ids :: IsLastTaught(db, s, Find(last, s))
  {
    last := map[];
    var i := 0;
    while i < |rows|
      invariant 0 <= i <= |rows|
      invariant forall s :: s in last <==> exists j :: 0 <= j < i && rows[j].student == s
      invariant forall s <- last :: exists j :: 0 <= j < i && rows[j].student == s && last[s] == StartOf(db, rows[j])
      invariant forall j :: 0 <= j < i ==> StartOf(db, rows[j]) <= last[rows[j].student]
    {
      if rows[i].student !in last {
        last := last[rows[i].student := StartOf(db, rows[i])];
      }
      i := i + 1;
    }
    FirstIsLatest(db, ids, rows, last);
  }

  // ----- The list -----

  function Max(a: int, b: int): int {
    if a < b then b else a
  }

  /** A row says of its student what the tables say. */
  ghost predicate RowFor(db: Db, now: Time, row: Debtor) {
    && row.student in db.students
    && var student := db.students[row.student];
    && row.name == student.name && row.tutor == student.tutor
    && row.tutorName == (if student.tutor in db.users then Some(db.users[student.tutor].name) else None)
    && row.paidLessonsLeft == student.paidLessonsLeft
    && row.lessonsOwed == Max(0, -student.paidLessonsLeft)
    && row.lessonsBooked == |BookedFor(db, row.student, now)|
    && IsLastTaught(db, row.student, row.lastTaughtAt)
  }

  /** Deepest in debt first, then whoever has most booked, then by name. `rank` is the collation's order of names. */
  function ByUrgency(rank: string -> real): (Debtor, Debtor) -> bool {
    (a: Debtor, b: Debtor) =>
      a.lessonsOwed > b.lessonsOwed
      || (a.lessonsOwed == b.lessonsOwed
          && (a.lessonsBooked > b.lessonsBooked
              || (a.lessonsBooked == b.lessonsBooked && rank(a.name) <= rank(b.name))))
  }

  lemma ByUrgencyIsPreorder(rank: string -> real)
    ensures Sorting.TotalPreorder(ByUrgency(rank))
  {
  }

  /** Whether a student belongs on the list: they owe, or they have something booked. */
  ghost predicate Listed(db: Db, student: Id, now: Time) {
    student in db.students && (db.students[student].paidLessonsLeft < 0 || BookedFor(db, student, now) != {})
  }

  /** The list holds, exactly once each, the students in scope who owe or have a booking, most urgent first. */
  ghost predicate IsDebtorList(db: Db, scope: set<Id>, now: Time, rank: string -> real, rows: seq<Debtor>) {
    && (forall i, j :: 0 <= i < j < |rows| ==> rows[i].student != rows[j].student)
    && (forall s :: (s in scope && Listed(db, s, now)) <==> exists i :: 0 <= i < |rows| && rows[i].student == s)
    && (forall row <- rows :: RowFor(db, now, row))
    && Sorting.Sorted(rows, ByUrgency(rank))
  }

  predicate Worth(row: Debtor) {
    row.lessonsOwed > 0 || row.lessonsBooked > 0
  }

  function MakeRow(db: Db, student: Id, booked: map<Id, nat>, last: map<Id, Time>): Debtor
    requires student in db.students
  {
    var row := db.students[student];
    Debtor(student, row.name, row.tutor, if row.tutor in db.users then Some(db.users[row.tutor].name) else None,
           row.paidLessonsLeft, Max(0, -row.paidLessonsLeft), At(booked, student), Find(last, student))
  }

  function MakeRows(db: Db, students: seq<Id>, booked: map<Id, nat>, last: map<Id, Time>): (rows: seq<Debtor>)
    requires forall s <- students :: s in db.students
    ensures |rows| == |students|
    ensures forall i :: 0 <= i < |students| ==> rows[i] == MakeRow(db, students[i], booked, last)
  {
    seq(|students|, i requires 0 <= i < |students| => MakeRow(db, students[i], booked, last))
  }

  lemma {:induction false} FilterKeepsApart(rows: seq<Debtor>)
    requires forall i, j :: 0 <= i < j < |rows| ==> rows[i].student != rows[j].student
    ensures var kept := Filter(rows, Worth);
      && (forall row :: row in kept <==> row in rows && Worth(row))
      && (forall i, j :: 0 <= i < j < |kept| ==> kept[i].student != kept[j].student)
  {
    if rows != [] {
      var front, last := rows[..|rows| - 1], rows[|rows| - 1];
      FilterKeepsApart(front);
      forall row ensures row in rows <==> row in front || row == last {
        if row in rows && row != last {
          var i :| 0 <= i < |rows| && rows[i] == row;
          assert front[i] == row;
        }
      }
      forall row <- Filter(front, Worth) ensures row.student != last.student {
        var i :| 0 <= i < |front| && front[i] == row;
        assert rows[i] == row;
      }
    }
  }

  /** Sorting rows of distinct students keeps each student once. */
  lemma SortKeepsApart(rows: seq<Debtor>, rank: string -> real)
    requires forall i, j :: 0 <= i < j < |rows| ==> rows[i].student != rows[j].student
    ensures var sorted := Sorting.Sort(rows, ByUrgency(rank));
      && (forall row :: row in sorted <==> row in rows)
      && (forall i, j :: 0 <= i < j < |sorted| ==> sorted[i].student != sorted[j].student)
      && Sorting.Sorted(sorted, ByUrgency(rank))
  {
    ByUrgencyIsPreorder(rank);
    Sorting.SortSorts(rows, ByUrgency(rank));
    Sorting.SortKeepsElements(rows, ByUrgency(rank));
    var sorted := Sorting.Sort(rows, ByUrgency(rank));
    forall i, j | 0 <= i < j < |sorted| ensures sorted[i].student != sorted[j].student {
      assert sorted[i] in rows && sorted[j] in rows;
    }
    hide ByUrgency;
  }

  /** Whose debts a caller is answered about: a tutor's own students, or those of whoever an admin names, or the school's. */
  function Asked(db: Db, me: Id, query: Query): set<Id>
    requires me in db.users
  {
    InScope(db, db.users[me].school, if db.users[me].role == Admin then query.tutor else Some(me),
            query.atOrBelow.GetOr(DEFAULT_AT_OR_BELOW))
  }

  // ----- What the list says -----

  /** The lessons from now on that are still scheduled and name the student or their group. */
  function ToCome(db: Db, student: Id, now: Time): set<Id> {
    set l | l in db.lessons && db.lessons[l].status == Scheduled && db.lessons[l].startsAt >= now
            && Answers.Attends(db, db.lessons[l], student)
  }

  /** In reach of the caller, as far as the request narrows it, and at or below the threshold. */
  predicate Wanted(db: Db, me: Id, query: Query, student: Student)
    requires me in db.users
  {
    && Answers.Reaches(db, me, student.school, student.tutor)
    && (query.tutor.Some? ==> student.tutor == query.tutor.value)
    && student.paidLessonsLeft <= (if query.atOrBelow.Some? then query.atOrBelow.value else 0)
  }

  ghost predicate RowSays(db: Db, now: Time, row: Debtor) {
    && row.student in db.students
    && var student := db.students[row.student];
    && row.name == student.name && row.tutor == student.tutor && row.paidLessonsLeft == student.paidLessonsLeft
    && (row.tutorName.Some? <==> student.tutor in db.users)
    && (row.tutorName.Some? ==> row.tutorName.value == db.users[student.tutor].name)
    && row.lessonsOwed == (if student.paidLessonsLeft < 0 then -student.paidLessonsLeft else 0)
    && row.lessonsBooked == |ToCome(db, row.student, now)|
    && (row.lastTaughtAt.Some? <==> exists k :: k in db.register && k.student == row.student)
    && (row.lastTaughtAt.Some? ==> forall k <- db.register | k.student == row.student && k.lesson in db.lessons ::
          db.lessons[k.lesson].startsAt <= row.lastTaughtAt.value)
    && (row.lastTaughtAt.Some? ==>
          exists k :: (k in db.register && k.student == row.student && k.lesson in db.lessons
                       && db.lessons[k.lesson].startsAt == row.lastTaughtAt.value))
  }

  /** `a` owes more; or as much, with more to come; or as much of both, and is no later by name. */
  predicate NotAfter(rank: string -> real, a: Debtor, b: Debtor) {
    && a.lessonsOwed >= b.lessonsOwed
    && (a.lessonsOwed == b.lessonsOwed ==> a.lessonsBooked >= b.lessonsBooked)
    && (a.lessonsOwed == b.lessonsOwed && a.lessonsBooked == b.lessonsBooked ==> rank(a.name) <= rank(b.name))
  }

  /** A row for each wanted student who owes or has a lesson to come, and no other; each row faithful; the worst first. */
  ghost predicate SaysSo(db: Db, me: Id, query: Query, now: Time, rank: string -> real, rows: seq<Debtor>)
    requires me in db.users
  {
    && (forall row <- rows :: RowSays(db, now, row) && Wanted(db, me, query, db.students[row.student]))
    && (db.users[me].role == Tutor ==> forall row <- rows :: row.tutor == me)
    && (forall row <- rows :: row.lessonsOwed > 0 || row.lessonsBooked > 0)
    && (forall s <- db.students |
          Wanted(db, me, query, db.students[s]) && (db.students[s].paidLessonsLeft < 0 || ToCome(db, s, now) != {}) ::
          exists i :: 0 <= i < |rows| && rows[i].student == s)
    && (forall i, j :: 0 <= i < j < |rows| ==> NotAfter(rank, rows[i], rows[j]) && rows[i].student != rows[j].student)
  }

  lemma ComesToCome(db: Db, student: Id, now: Time)
    ensures ToCome(db, student, now) == BookedFor(db, student, now)
  {
    forall l <- db.lessons ensures student in StudentsOf(db, db.lessons[l]) <==> Answers.Attends(db, db.lessons[l], student) {
      Answers.AttendsIffStudent(db, db.lessons[l], student);
    }
    hide StudentsOf, Answers.Attends;
  }

  lemma LastTaughtSays(db: Db, now: Time, row: Debtor)
    requires Closed(db) && RowFor(db, now, row)
    ensures RowSays(db, now, row)
  {
    ComesToCome(db, row.student, now);
    forall k <- db.register ensures k.lesson in db.lessons && StartOf(db, k) == db.lessons[k.lesson].startsAt {
      assert SeatFor(db, k);
    }
    hide Closed, ToCome, BookedFor, StartOf, SeatFor;
  }

  lemma InScopeIsWanted(db: Db, me: Id, query: Query, student: Id)
    requires me in db.users && !Reports.AsksForAnother(db, me, query.tutor)
    ensures student in Asked(db, me, query) <==> student in db.students && Wanted(db, me, query, db.students[student])
  {
  }

  lemma ListSays(db: Db, me: Id, query: Query, now: Time, rank: string -> real, rows: seq<Debtor>)
    requires Closed(db) && me in db.users && !Reports.AsksForAnother(db, me, query.tutor)
    requires IsDebtorList(db, Asked(db, me, query), now, rank, rows)
    ensures SaysSo(db, me, query, now, rank, rows)
  {
    hide Closed, RowFor, IsLastTaught, BookedFor, ToCome, RowSays, Wanted, Asked, ByUrgency, Answers.Reaches;
    forall row <- rows
      ensures RowSays(db, now, row) && row.student in db.students && Wanted(db, me, query, db.students[row.student])
    {
      RowIsListed(db, Asked(db, me, query), now, rank, rows, row);
      LastTaughtSays(db, now, row);
      InScopeIsWanted(db, me, query, row.student);
    }
    forall s <- db.students
      | Wanted(db, me, query, db.students[s]) && (db.students[s].paidLessonsLeft < 0 || ToCome(db, s, now) != {})
      ensures exists i :: 0 <= i < |rows| && rows[i].student == s
    {
      InScopeIsWanted(db, me, query, s);
      ComesToCome(db, s, now);
    }
    RowsAreApart(db, me, query, now, rank, rows);
  }
  lemma RowIsListed(db: Db, scope: set<Id>, now: Time, rank: string -> real, rows: seq<Debtor>, row: Debtor)
    requires IsDebtorList(db, scope, now, rank, rows) && row in rows
    ensures row.student in scope && RowFor(db, now, row) && (row.lessonsOwed > 0 || row.lessonsBooked > 0)
  {
    var i :| 0 <= i < |rows| && rows[i] == row;
    assert row.student in scope && Listed(db, row.student, now);
    hide IsLastTaught;
  }

  lemma RowsAreApart(db: Db, me: Id, query: Query, now: Time, rank: string -> real, rows: seq<Debtor>)
    requires me in db.users && IsDebtorList(db, Asked(db, me, query), now, rank, rows)
    requires forall row <- rows :: row.student in db.students && Wanted(db, me, query, db.students[row.student])
    ensures forall i, j :: 0 <= i < j < |rows| ==> NotAfter(rank, rows[i], rows[j]) && rows[i].student != rows[j].student
    ensures db.users[me].role == Tutor ==> forall row <- rows :: row.tutor == me
    ensures forall row <- rows :: row.lessonsOwed > 0 || row.lessonsBooked > 0
  {
    hide Listed, Asked, IsLastTaught, BookedFor;
    forall i, j | 0 <= i < j < |rows| ensures NotAfter(rank, rows[i], rows[j]) {
      assert ByUrgency(rank)(rows[i], rows[j]);
    }
    forall row <- rows ensures row.lessonsOwed > 0 || row.lessonsBooked > 0 {
      RowIsListed(db, Asked(db, me, query), now, rank, rows, row);
    }
    hide IsDebtorList;
  }

  /** The debtors endpoint, over its query results. */
  method List(
    db: Db, me: Id, query: Query, now: Time, rank: string -> real,
    students: seq<Id>, own: seq<(Id, nat)>, inGroups: seq<Id>, register: seq<Seat>)
    returns (r: Result<seq<Debtor>>)
    requires Closed(db) && me in db.users
    requires !Reports.AsksForAnother(db, me, query.tutor) ==>
      var scope := Asked(db, me, query);
      && Lists(students, scope) && GroupedOwn(db, scope, now, own)
      && Lists(inGroups, GroupBooked(db, scope, now))
      && Lists(register, SeatsOf(db, scope)) && NewestFirst(db, register)
    ensures r == Err(Forbidden) <==> Reports.AsksForAnother(db, me, query.tutor)
    ensures !Reports.AsksForAnother(db, me, query.tutor) ==>
      && r.Ok?
      && IsDebtorList(db, Asked(db, me, query), now, rank, r.value)
      && SaysSo(db, me, query, now, rank, r.value)
  {
    Reports.ScopeIs(db, me, query.tutor);
    hide Reports.TutorScope;
    var tutor :- Reports.TutorScope(db, me, query.tutor);
    ghost var scope := InScope(db, db.users[me].school, tutor, query.atOrBelow.GetOr(DEFAULT_AT_OR_BELOW));
    if |students| == 0 {
      assert scope == {};
      ListSays(db, me, query, now, rank, []);
      return Ok([]);
    }
    var ids := Reports.SetOf(students);
    assert ids == scope;
    var booked := BookedPerStudent(db, ids, now, own, inGroups);
    var last := LastTaughtPerStudent(db, ids, register);
    var rows := MakeRows(db, students, booked, last);
    var sorted := Sorting.Sort(Filter(rows, Worth), ByUrgency(rank));
    RowsMakeList(db, scope, now, rank, students, booked, last);
    ListSays(db, me, query, now, rank, sorted);
    return Ok(sorted);
  }

  /** Every row made is faithful, and is worth listing exactly when its student is. */
  lemma RowsAreFaithful(
    db: Db, scope: set<Id>, now: Time, students: seq<Id>, booked: map<Id, nat>, last: map<Id, Time>)
    requires Lists(students, scope) && forall s <- students :: s in db.students
    requires forall s <- scope :: At(booked, s) == |BookedFor(db, s, now)| && IsLastTaught(db, s, Find(last, s))
    ensures forall row <- MakeRows(db, students, booked, last) ::
      row.student in scope && RowFor(db, now, row) && (Worth(row) <==> Listed(db, row.student, now))
    ensures forall s <- scope :: exists row :: row in MakeRows(db, students, booked, last) && row.student == s
  {
    hide IsLastTaught;
    var rows := MakeRows(db, students, booked, last);
    forall row <- rows
      ensures row.student in scope && RowFor(db, now, row) && (Worth(row) <==> Listed(db, row.student, now))
    {
      var i :| 0 <= i < |rows| && rows[i] == row;
      assert students[i] in scope;
    }
    forall s <- scope ensures exists row :: row in rows && row.student == s {
      var j :| 0 <= j < |students| && students[j] == s;
      assert rows[j] in rows && rows[j].student == s;
    }
  }

  lemma {:induction false} RowsMakeList(
    db: Db, scope: set<Id>, now: Time, rank: string -> real, students: seq<Id>, booked: map<Id, nat>, last: map<Id, Time>)
    requires Lists(students, scope) && forall s <- students :: s in db.students
    requires forall s <- scope :: At(booked, s) == |BookedFor(db, s, now)| && IsLastTaught(db, s, Find(last, s))
    ensures IsDebtorList(db, scope, now, rank,
              Sorting.Sort(Filter(MakeRows(db, students, booked, last), Worth), ByUrgency(rank)))
  {
    var rows := MakeRows(db, students, booked, last);
    var sorted := Sorting.Sort(Filter(rows, Worth), ByUrgency(rank));
    RowsAreFaithful(db, scope, now, students, booked, last);
    FilterKeepsApart(rows);
    SortKeepsApart(Filter(rows, Worth), rank);
    hide IsLastTaught, ByUrgency, RowFor, Listed, Worth, Filter, Lists, At, Find, BookedFor, IsDebtorList;
    WorthyRowsMakeList(db, scope, now, rank, rows, sorted);
  }

  lemma WorthyRowsMakeList(
    db: Db, scope: set<Id>, now: Time, rank: string -> real, rows: seq<Debtor>, sorted: seq<Debtor>)
    requires forall row <- rows ::
      row.student in scope && RowFor(db, now, row) && (Worth(row) <==> Listed(db, row.student, now))
    requires forall s <- scope :: exists row :: row in rows && row.student == s
    requires forall row :: row in sorted <==> row in rows && Worth(row)
    requires forall i, j :: 0 <= i < j < |sorted| ==> sorted[i].student != sorted[j].student
    requires Sorting.Sorted(sorted, ByUrgency(rank))
    ensures IsDebtorList(db, scope, now, rank, sorted)
  {
    hide ByUrgency, RowFor, Listed, Worth;
    forall s ensures (s in scope && Listed(db, s, now)) <==> exists i :: 0 <= i < |sorted| && sorted[i].student == s {
      if s in scope && Listed(db, s, now) {
        var row :| row in rows && row.student == s;
        assert row in sorted;
      }
      if i :| 0 <= i < |sorted| && sorted[i].student == s {
        assert sorted[i] in rows;
      }
    }
  }

  /** In every reachable state, what a listed student owes is what the register charged and never gave back, beyond
      everything credited to them by hand. */
  lemma OwedIsTheLedger(steps: seq<Step>, now: Time, row: Debtor)
    requires RowFor(Run(steps), now, row)
    ensures row.lessonsOwed
         == Max(0, |Ledger.ChargedRows(Run(steps), row.student)| + Ledger.Lost(steps, row.student)
                   - Ledger.Credited(steps, row.student))
  {
    hide IsLastTaught, BookedFor, Run, Ledger.ChargedRows, Ledger.Lost, Ledger.Credited;
    Ledger.LedgerConservation(steps, row.student);
  }
}

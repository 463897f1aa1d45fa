/** How a student is doing: attendance, averages, lesson counts, and what those numbers promise. */
module Progress {
  import opened Foundations
  import opened Books
  import opened Soundness
  import Ledger

  datatype GradeAverage = GradeAverage(average: real, count: nat)
  datatype GradeSummary = GradeSummary(
    count: nat, classic: Option<GradeAverage>, percentage: Option<GradeAverage>, descriptiveCount: nat)
  datatype AttendanceSummary = AttendanceSummary(
    present: nat, late: nat, absentExcused: nat, absentUnexcused: nat, marked: nat, rate: Option<real>)
  datatype LessonCounts = LessonCounts(total: nat, completed: nat, cancelled: nat, scheduled: nat)
  datatype ProgressSummary = ProgressSummary(
    lessons: LessonCounts, attendance: AttendanceSummary, grades: GradeSummary)

  // ----- Averages -----

  /** Two decimal places; `Math.round` rounds halves up. */
  function Round2(value: real): real {
    (value * 100.0 + 0.5).Floor as real / 100.0
  }

  lemma Round2IsNear(value: real)
    ensures value - 0.005 < Round2(value) <= value + 0.005
    ensures (Round2(value) * 100.0).Floor as real == Round2(value) * 100.0
  {
    assert Round2(value) * 100.0 == (value * 100.0 + 0.5).Floor as real;
  }

  /** Rounding stays between whole bounds. */
  lemma Round2InBounds(value: real, low: int, high: int)
    requires low as real <= value <= high as real
    ensures low as real <= Round2(value) <= high as real
  {
    var scaled := value * 100.0 + 0.5;
    assert (low * 100) as real == low as real * 100.0;
    assert (high * 100) as real == high as real * 100.0;
    assert low * 100 <= scaled.Floor <= high * 100;
  }

  /** Whether a mark takes part in an average. */
  predicate Counted(grade: Grade) {
    grade.value.Some? && grade.weight > 0
  }

  function Weight(grade: Grade): real {
    if Counted(grade) then grade.weight as real else 0.0
  }

  function Weighted(grade: Grade): real {
    if Counted(grade) then grade.value.value * grade.weight as real else 0.0
  }

  function RealSum<T>(rows: seq<T>, f: T -> real): real {
    if rows == [] then 0.0 else RealSum(rows[..|rows| - 1], f) + f(rows[|rows| - 1])
  }

  function Mean(grades: seq<Grade>): real
    requires RealSum(grades, Weight) != 0.0
  {
    RealSum(grades, Weighted) / RealSum(grades, Weight)
  }

  function Average(grades: seq<Grade>): Option<GradeAverage> {
    if RealSum(grades, Weight) == 0.0 then None
    else Some(GradeAverage(Round2(Mean(grades)), |Filter(grades, Counted)|))
  }

  /** The weighted mean of one kind of mark, in one pass over three accumulators. */
  method AverageOf(grades: seq<Grade>) returns (r: Option<GradeAverage>)
    ensures r == Average(grades)
  {
    var weighted, weight, count := 0.0, 0.0, 0;
    var i := 0;
    while i < |grades|
      invariant 0 <= i <= |grades|
      invariant weighted == RealSum(grades[..i], Weighted)
      invariant weight == RealSum(grades[..i], Weight)
      invariant count == |Filter(grades[..i], Counted)|
    {
      var grade := grades[i];
      assert grades[..i + 1][..i] == grades[..i];
      if grade.value.Some? && grade.weight > 0 {
        weighted := weighted + grade.value.value * grade.weight as real;
        weight := weight + grade.weight as real;
        count := count + 1;
      }
      i := i + 1;
    }
    assert grades[..|grades|] == grades;
    if weight == 0.0 {
      return None;
    }
    return Some(GradeAverage(Round2(weighted / weight), count));
  }

  lemma {:induction false} WeightsAreNatural(grades: seq<Grade>)
    ensures RealSum(grades, Weight) >= |Filter(grades, Counted)| as real
    ensures (forall g <- grades :: !Counted(g)) ==> RealSum(grades, Weight) == 0.0
    ensures (exists g <- grades :: Counted(g)) ==> RealSum(grades, Weight) >= 1.0
  {
    if grades != [] {
      var front, last := grades[..|grades| - 1], grades[|grades| - 1];
      WeightsAreNatural(front);
      if g :| g in grades && Counted(g) && g != last {
        assert g in front;
      }
    }
  }

  /** There is no average exactly when no mark takes part in it. */
  lemma AverageNoneIff(grades: seq<Grade>)
    ensures Average(grades).None? <==> forall g <- grades :: !Counted(g)
  {
    WeightsAreNatural(grades);
  }

  lemma {:induction false} WeightedWithin(grades: seq<Grade>, max: int)
    requires forall g <- grades :: Counted(g) ==> 0.0 <= g.value.value <= max as real
    ensures 0.0 <= RealSum(grades, Weighted) <= max as real * RealSum(grades, Weight)
  {
    if grades != [] {
      var front, last := grades[..|grades| - 1], grades[|grades| - 1];
      WeightedWithin(front, max);
      if Counted(last) {
        ScaleByWeight(last.value.value, last.weight as real, max as real);
      }
      assert max as real * RealSum(grades, Weight) == max as real * RealSum(front, Weight) + max as real * Weight(last);
    }
  }

  lemma ScaleByWeight(value: real, weight: real, max: real)
    requires 0.0 <= value <= max && weight > 0.0
    ensures 0.0 <= value * weight <= max * weight
  {
  }

  lemma QuotientWithin(x: real, w: real, max: real)
    requires w > 0.0 && 0.0 <= x <= max * w
    ensures 0.0 <= x / w <= max
  {
    assert x / w * w == x;
  }

  /** An average is within half a hundredth of the exact weighted mean, and stays on its scale. */
  lemma AverageStaysOnScale(grades: seq<Grade>, max: int)
    requires forall g <- grades :: Counted(g) ==> 0.0 <= g.value.value <= max as real
    requires Average(grades).Some?
    ensures var a := Average(grades).value.average;
      && Mean(grades) - 0.005 < a <= Mean(grades) + 0.005
      && 0.0 <= a <= max as real
    ensures Average(grades).value.count == |Filter(grades, Counted)| > 0
  {
    WeightsAreNatural(grades);
    WeightedWithin(grades, max);
    QuotientWithin(RealSum(grades, Weighted), RealSum(grades, Weight), max as real);
    Round2IsNear(Mean(grades));
    Round2InBounds(Mean(grades), 0, max);
    if forall g <- grades :: !Counted(g) {
      AverageNoneIff(grades);
      assert false;
    }
    var g :| g in grades && Counted(g);
    InFilter(grades, g);
  }

  lemma {:induction false} InFilter(grades: seq<Grade>, g: Grade)
    requires g in grades && Counted(g)
    ensures |Filter(grades, Counted)| > 0
  {
    var front := grades[..|grades| - 1];
    if g in front {
      InFilter(front, g);
    }
  }

  /** An average is the rounded sum of value times weight over the sum of weights, of the marks that have a value and weigh
      something, and counts those. */
  lemma AverageIs(grades: seq<Grade>, takesPart: Grade -> bool, weight: Grade -> real, weighted: Grade -> real)
    requires forall g :: takesPart(g) == (g.value.Some? && g.weight > 0)
    requires forall g :: weight(g) == if takesPart(g) then g.weight as real else 0.0
    requires forall g :: weighted(g) == if takesPart(g) then g.weight as real * g.value.value else 0.0
    ensures (RealSum(grades, weight) == 0.0 <==> forall g <- grades :: !takesPart(g))
    ensures Average(grades)
         == if RealSum(grades, weight) == 0.0 then None
            else Some(GradeAverage(
                   Round2(RealSum(grades, weighted) / RealSum(grades, weight)), |Filter(grades, takesPart)|))
  {
    SameTerms(grades, Weight, weight);
    forall g ensures Weighted(g) == weighted(g) { }
    SameTerms(grades, Weighted, weighted);
    SameFilter(grades, Counted, takesPart);
    AverageNoneIff(grades);
    hide RealSum, Filter, Weight, Weighted;
  }

  lemma {:induction false} SameTerms(grades: seq<Grade>, f: Grade -> real, g: Grade -> real)
    requires forall x :: f(x) == g(x)
    ensures RealSum(grades, f) == RealSum(grades, g)
  {
    if grades != [] { SameTerms(grades[..|grades| - 1], f, g); }
  }

  lemma {:induction false} SameFilter(grades: seq<Grade>, p: Grade -> bool, q: Grade -> bool)
    requires forall x :: p(x) == q(x)
    ensures Filter(grades, p) == Filter(grades, q)
  {
    if grades != [] { SameFilter(grades[..|grades| - 1], p, q); }
  }

  // ----- Order of rows -----

  lemma {:induction false} RealSumSplit<T>(a: seq<T>, b: seq<T>, f: T -> real)
    ensures RealSum(a + b, f) == RealSum(a, f) + RealSum(b, f)
  {
    if b == [] {
      assert a + b == a;
    } else {
      assert (a + b)[..|a + b| - 1] == a + b[..|b| - 1];
      RealSumSplit(a, b[..|b| - 1], f);
    }
  }

  /** Taking one element out of a list takes exactly its own term out of the sum. */
  lemma RealSumWithout<T>(rows: seq<T>, i: nat, f: T -> real)
    requires i < |rows|
    ensures RealSum(rows, f) == RealSum(rows[..i] + rows[i + 1..], f) + f(rows[i])
  {
    hide RealSum;
    assert rows == rows[..i] + [rows[i]] + rows[i + 1..];
    RealSumSplit(rows[..i] + [rows[i]], rows[i + 1..], f);
    RealSumSplit(rows[..i], [rows[i]], f);
    RealSumSplit(rows[..i], rows[i + 1..], f);
    RealSumOne(rows[i], f);
  }

  lemma RealSumOne<T>(x: T, f: T -> real)
    ensures RealSum([x], f) == f(x)
  {
    assert [x][..0] == [];
  }

  lemma {:induction false} RealSumAnyOrder<T>(a: seq<T>, b: seq<T>, f: T -> real)
    requires multiset(a) == multiset(b)
    ensures RealSum(a, f) == RealSum(b, f)
  {
    if a == [] {
      assert |multiset(b)| == 0;
    } else {
      var last, front := a[|a| - 1], a[..|a| - 1];
      assert a == front + [last];
      assert last in multiset(b);
      var i :| 0 <= i < |b| && b[i] == last;
      assert b == b[..i] + [b[i]] + b[i + 1..];
      RealSumWithout(b, i, f);
      assert multiset(b[..i] + b[i + 1..]) == multiset(b) - multiset{last};
      RealSumAnyOrder(front, b[..i] + b[i + 1..], f);
    }
  }

  /** The order in which the marks come back from a query does not show in their average. */
  lemma AverageAnyOrder(a: seq<Grade>, b: seq<Grade>)
    requires multiset(a) == multiset(b)
    ensures Average(a) == Average(b)
  {
    RealSumAnyOrder(a, b, Weighted);
    RealSumAnyOrder(a, b, Weight);
    var one := (g: Grade) => if Counted(g) then 1.0 else 0.0;
    RealSumAnyOrder(a, b, one);
    CountedAsSum(a, one);
    CountedAsSum(b, one);
  }

  lemma {:induction false} CountedAsSum(grades: seq<Grade>, one: Grade -> real)
    requires forall g :: one(g) == if Counted(g) then 1.0 else 0.0
    ensures RealSum(grades, one) == |Filter(grades, Counted)| as real
  {
    if grades != [] {
      CountedAsSum(grades[..|grades| - 1], one);
    }
  }

  // ----- Summaries over query results -----

  function WithLessonStatus(db: Db, status: LessonStatus): Id -> bool {
    l => l in db.lessons && db.lessons[l].status == status
  }

  function WithMark(db: Db, status: AttendanceStatus): Seat -> bool {
    k => k in db.register && db.register[k].status == status
  }

  function OfKind(db: Db, kind: GradeKind): Id -> bool {
    g => g in db.grades && db.grades[g].kind == kind
  }

  function GradeRows(db: Db, ids: seq<Id>): (rows: seq<Grade>)
    requires forall g <- ids :: g in db.grades
    ensures |rows| == |ids| && forall i :: 0 <= i < |ids| ==> rows[i] == db.grades[ids[i]]
  {
    seq(|ids|, i requires 0 <= i < |ids| => db.grades[ids[i]])
  }

  lemma {:induction false} FilterKeeps<T>(rows: seq<T>, p: T -> bool)
    ensures forall x <- Filter(rows, p) :: x in rows && p(x)
  {
    if rows != [] {
      FilterKeeps(rows[..|rows| - 1], p);
    }
  }

  function AverageOfKind(db: Db, ids: seq<Id>, kind: GradeKind): Option<GradeAverage> {
    FilterKeeps(ids, OfKind(db, kind));
    Average(GradeRows(db, Filter(ids, OfKind(db, kind))))
  }

  function SummariseGrades(db: Db, ids: seq<Id>): GradeSummary {
    GradeSummary(|ids|, AverageOfKind(db, ids, Classic), AverageOfKind(db, ids, Percentage),
                 |Filter(ids, OfKind(db, Descriptive))|)
  }

  function SummariseAttendance(db: Db, seats: seq<Seat>): AttendanceSummary {
    var present := |Filter(seats, WithMark(db, Present))|;
    var late := |Filter(seats, WithMark(db, Late))|;
    var absentExcused := |Filter(seats, WithMark(db, AbsentExcused))|;
    var absentUnexcused := |Filter(seats, WithMark(db, AbsentUnexcused))|;
    var marked := present + late + absentExcused + absentUnexcused;
    AttendanceSummary(present, late, absentExcused, absentUnexcused, marked,
                      if marked == 0 then None else Some(Round2((present + late) as real / marked as real)))
  }

  function SummariseLessons(db: Db, lessons: seq<Id>): LessonCounts {
    LessonCounts(|lessons|, |Filter(lessons, WithLessonStatus(db, Completed))|,
                 |Filter(lessons, WithLessonStatus(db, Cancelled))|, |Filter(lessons, WithLessonStatus(db, Scheduled))|)
  }

  /** A count over query rows is the number of rows of the queried set, whatever order they came in. */
  lemma CountOf<T(!new)>(rows: seq<T>, s: set<T>, p: T -> bool)
    requires Lists(rows, s)
    ensures |Filter(rows, p)| == |Such(s, p)|
  {
    FilterLists(rows, s, p);
    ListsLength(Filter(rows, p), Such(s, p));
  }

  function MarkedAs(db: Db, s: set<Seat>, status: AttendanceStatus): set<Seat> {
    set k | k in s && k in db.register && db.register[k].status == status
  }

  lemma CountMarks(db: Db, seats: seq<Seat>, s: set<Seat>, status: AttendanceStatus)
    requires Lists(seats, s)
    ensures |Filter(seats, WithMark(db, status))| == |MarkedAs(db, s, status)|
  {
    CountOf(seats, s, WithMark(db, status));
    assert Such(s, WithMark(db, status)) == MarkedAs(db, s, status);
  }

  lemma FourKindsOfMark(db: Db, s: set<Seat>)
    requires forall k <- s :: k in db.register
    ensures |s| == |MarkedAs(db, s, Present)| + |MarkedAs(db, s, Late)|
                   + |MarkedAs(db, s, AbsentExcused)| + |MarkedAs(db, s, AbsentUnexcused)|
  {
    var p, l := MarkedAs(db, s, Present), MarkedAs(db, s, Late);
    var e, u := MarkedAs(db, s, AbsentExcused), MarkedAs(db, s, AbsentUnexcused);
    var cameToIt, excused := p + l, p + l + e;
    assert p !! l && cameToIt !! e && excused !! u;
    assert |cameToIt| == |p| + |l|;
    assert |excused| == |cameToIt| + |e|;
    assert |excused + u| == |excused| + |u|;
    assert s == excused + u;
  }

  /** A share, when there is anything to take a share of: between 0 and 1, within half a hundredth of the exact one. */
  ghost predicate IsRate(rate: Option<real>, part: nat, whole: nat) {
    if whole == 0 then rate.None?
    else
      && rate.Some? && 0.0 <= rate.value <= 1.0
      && part as real / whole as real - 0.005 < rate.value <= part as real / whole as real + 0.005
  }

  lemma RoundedShare(part: nat, whole: nat)
    requires 0 < whole && part <= whole
    ensures IsRate(Some(Round2(part as real / whole as real)), part, whole)
  {
    QuotientWithin(part as real, whole as real, 1.0);
    Round2InBounds(part as real / whole as real, 0, 1);
    Round2IsNear(part as real / whole as real);
  }

  /** Every marked seat is of one of the four kinds, so the four counts add up to the rows; the rate is missing exactly
      when there are none, and is otherwise the share of seats whose student turned up. */
  lemma AttendanceAddsUp(db: Db, seats: seq<Seat>, s: set<Seat>)
    requires Lists(seats, s) && forall k <- s :: k in db.register
    ensures var a := SummariseAttendance(db, seats);
      && a.marked == |s|
      && a.present == |MarkedAs(db, s, Present)|
      && a.late == |MarkedAs(db, s, Late)|
      && a.absentExcused == |MarkedAs(db, s, AbsentExcused)|
      && a.absentUnexcused == |MarkedAs(db, s, AbsentUnexcused)|
      && IsRate(a.rate, a.present + a.late, a.marked)
  {
    CountMarks(db, seats, s, Present);
    CountMarks(db, seats, s, Late);
    CountMarks(db, seats, s, AbsentExcused);
    CountMarks(db, seats, s, AbsentUnexcused);
    FourKindsOfMark(db, s);
    hide MarkedAs, WithMark, Lists, IsRate;
    var a := SummariseAttendance(db, seats);
    if a.marked > 0 {
      RoundedShare(a.present + a.late, a.marked);
    } else {
      assert IsRate(None, 0, 0) by { NoRate(); }
    }
  }

  lemma NoRate()
    ensures IsRate(None, 0, 0)
  {
  }

  function LessonsAt(db: Db, s: set<Id>, status: LessonStatus): set<Id> {
    set l | l in s && l in db.lessons && db.lessons[l].status == status
  }

  lemma CountLessons(db: Db, lessons: seq<Id>, s: set<Id>, status: LessonStatus)
    requires Lists(lessons, s)
    ensures |Filter(lessons, WithLessonStatus(db, status))| == |LessonsAt(db, s, status)|
  {
    CountOf(lessons, s, WithLessonStatus(db, status));
    assert Such(s, WithLessonStatus(db, status)) == LessonsAt(db, s, status);
  }

  lemma LessonsAddUp(db: Db, lessons: seq<Id>, s: set<Id>)
    requires Lists(lessons, s) && forall l <- s :: l in db.lessons
    ensures var c := SummariseLessons(db, lessons);
      && c.total == |s| == c.completed + c.cancelled + c.scheduled
      && c.completed == |LessonsAt(db, s, Completed)|
      && c.cancelled == |LessonsAt(db, s, Cancelled)|
      && c.scheduled == |LessonsAt(db, s, Scheduled)|
  {
    ListsLength(lessons, s);
    CountLessons(db, lessons, s, Completed);
    CountLessons(db, lessons, s, Cancelled);
    CountLessons(db, lessons, s, Scheduled);
    ThreeStatuses(db, s);
    hide LessonsAt, WithLessonStatus, Lists;
  }

  lemma ThreeStatuses(db: Db, s: set<Id>)
    requires forall l <- s :: l in db.lessons
    ensures |s| == |LessonsAt(db, s, Completed)| + |LessonsAt(db, s, Cancelled)| + |LessonsAt(db, s, Scheduled)|
  {
    var d, x, p := LessonsAt(db, s, Completed), LessonsAt(db, s, Cancelled), LessonsAt(db, s, Scheduled);
    var over := d + x;
    assert d !! x && over !! p;
    assert |over| == |d| + |x|;
    assert |over + p| == |over| + |p|;
    assert s == over + p;
  }

  // ----- Averages in every reachable state -----

  function ScaleMax(db: Db, school: Id, kind: GradeKind): int
    requires school in db.schools
  {
    if kind == Percentage then 100 else db.schools[school].gradeScaleMax
  }

  /** Marks of one school: what both the progress screen and the report average over. */
  ghost predicate GradesIn(db: Db, ids: seq<Id>, school: Id) {
    forall g <- ids :: g in db.grades && StudentOf(db, school, db.grades[g].student)
  }

  ghost function RealTotal<T(!new)>(s: set<T>, f: T -> real): real
    decreases |s|
  {
    if s == {} then 0.0 else var x :| x in s; f(x) + RealTotal(s - {x}, f)
  }

  lemma {:induction false} RealTotalPick<T(!new)>(s: set<T>, f: T -> real, x: T)
    requires x in s
    ensures RealTotal(s, f) == f(x) + RealTotal(s - {x}, f)
    decreases |s|
  {
    var y :| y in s && RealTotal(s, f) == f(y) + RealTotal(s - {y}, f);
    if y != x {
      RealTotalPick(s - {y}, f, x);
      RealTotalPick(s - {x}, f, y);
      assert s - {y} - {x} == s - {x} - {y};
    }
  }

  lemma {:induction false} RealSumIsTotal<T(!new)>(rows: seq<T>, s: set<T>, f: T -> real)
    requires Lists(rows, s)
    ensures RealSum(rows, f) == RealTotal(s, f)
    decreases |rows|
  {
    if rows == [] {
      assert s == {};
    } else {
      ListsFront(rows, s);
      RealSumIsTotal(rows[..|rows| - 1], s - {rows[|rows| - 1]}, f);
      RealTotalPick(s, f, rows[|rows| - 1]);
    }
  }

  /** What a mark weighs in the average of a kind: nothing, if it is of another. */
  function WeightAt(db: Db, kind: GradeKind): Id -> real {
    (g: Id) => if OfKind(db, kind)(g) then Weight(db.grades[g]) else 0.0
  }

  function WeightedAt(db: Db, kind: GradeKind): Id -> real {
    (g: Id) => if OfKind(db, kind)(g) then Weighted(db.grades[g]) else 0.0
  }

  /** A rounded mean of values between 0 and `max`: within half a hundredth of the exact one, and between the same bounds. */
  ghost predicate IsMean(total: real, weight: real, max: int, mean: real) {
    weight > 0.0 && 0.0 <= mean <= max as real && total / weight - 0.005 < mean <= total / weight + 0.005
  }

  /** The average of the marks of one kind among `s`: missing exactly when there are none, otherwise counting each of them
      once, and their weighted mean. */
  ghost predicate IsAverageOf(db: Db, s: set<Id>, kind: GradeKind, max: int, average: Option<GradeAverage>) {
    && (average.None? <==> forall g <- s :: !OfKind(db, kind)(g))
    && (average.Some? ==>
          && average.value.count == |Such(s, OfKind(db, kind))|
          && IsMean(RealTotal(s, WeightedAt(db, kind)), RealTotal(s, WeightAt(db, kind)), max, average.value.average))
  }

  /** The rows of one kind weigh what all rows weigh, those of other kinds weighing nothing. */
  lemma {:induction false} KindTotals(db: Db, ids: seq<Id>, kind: GradeKind)
    requires forall g <- ids :: g in db.grades
    requires forall g <- Filter(ids, OfKind(db, kind)) :: g in db.grades
    ensures var rows := GradeRows(db, Filter(ids, OfKind(db, kind)));
      RealSum(rows, Weight) == RealSum(ids, WeightAt(db, kind)) && RealSum(rows, Weighted) == RealSum(ids, WeightedAt(db, kind))
  {
    if ids != [] {
      var front, last := ids[..|ids| - 1], ids[|ids| - 1];
      FilterKeeps(front, OfKind(db, kind));
      KindTotals(db, front, kind);
      hide Weight, Weighted;
      var rows := GradeRows(db, Filter(ids, OfKind(db, kind)));
      if OfKind(db, kind)(last) {
        assert rows[..|rows| - 1] == GradeRows(db, Filter(front, OfKind(db, kind)));
        assert rows[|rows| - 1] == db.grades[last];
      }
    }
  }

  /** In every reachable state, for any marks of one school: an average is missing exactly when there is no mark of that
      kind, and is otherwise their weighted mean, on the school's scale, or between 0 and 100 for percentages. */
  lemma AveragesStayOnScale(steps: seq<Step>, ids: seq<Id>, s: set<Id>, school: Id, kind: GradeKind)
    requires school in Run(steps).schools && Lists(ids, s) && GradesIn(Run(steps), ids, school)
    requires kind != Descriptive
    ensures IsAverageOf(Run(steps), s, kind, ScaleMax(Run(steps), school, kind), AverageOfKind(Run(steps), ids, kind))
  {
    RunIsSound(steps);
    SoundAveragesStayOnScale(Run(steps), ids, s, school, kind);
  }

  lemma SoundAveragesStayOnScale(db: Db, ids: seq<Id>, s: set<Id>, school: Id, kind: GradeKind)
    requires Sound(db) && school in db.schools && Lists(ids, s) && GradesIn(db, ids, school) && kind != Descriptive
    ensures IsAverageOf(db, s, kind, ScaleMax(db, school, kind), AverageOfKind(db, ids, kind))
  {
    SoundRowsCount(db, ids, school, kind);
    NoneOfKind(db, ids, s, kind);
    if AverageOfKind(db, ids, kind).Some? {
      AverageIsAccurate(db, ids, s, school, kind);
    }
    hide Sound, AverageOfKind, IsMean, GradesIn, Lists, Counted, OfKind;
  }

  lemma NoneOfKind(db: Db, ids: seq<Id>, s: set<Id>, kind: GradeKind)
    requires Lists(ids, s) && forall g <- ids :: g in db.grades
    requires forall g <- Filter(ids, OfKind(db, kind)) :: g in db.grades && Counted(db.grades[g])
    ensures AverageOfKind(db, ids, kind).None? <==> forall g <- s :: !OfKind(db, kind)(g)
  {
    var chosen := Filter(ids, OfKind(db, kind));
    FilterKeeps(ids, OfKind(db, kind));
    FilterFinds(ids, OfKind(db, kind));
    var rows := GradeRows(db, chosen);
    AverageNoneIff(rows);
    assert chosen != [] ==> chosen[0] in chosen && rows[0] in rows && Counted(rows[0]);
    hide Filter, Average, Counted;
  }

  lemma AverageIsAccurate(db: Db, ids: seq<Id>, s: set<Id>, school: Id, kind: GradeKind)
    requires Sound(db) && school in db.schools && Lists(ids, s) && GradesIn(db, ids, school) && kind != Descriptive
    requires AverageOfKind(db, ids, kind).Some?
    ensures var a := AverageOfKind(db, ids, kind).value;
      && a.count == |Such(s, OfKind(db, kind))|
      && IsMean(RealTotal(s, WeightedAt(db, kind)), RealTotal(s, WeightAt(db, kind)), ScaleMax(db, school, kind), a.average)
  {
    FilterKeeps(ids, OfKind(db, kind));
    var chosen := Filter(ids, OfKind(db, kind));
    var rows := GradeRows(db, chosen);
    SoundRowsCount(db, ids, school, kind);
    hide Sound, GradesIn, Counted, Weight, Weighted, OfKind;
    AllFiltered(rows);
    CountOf(ids, s, OfKind(db, kind));
    KindTotals(db, ids, kind);
    RealSumIsTotal(ids, s, WeightAt(db, kind));
    RealSumIsTotal(ids, s, WeightedAt(db, kind));
    hide Filter, Lists, RealSum, RealTotal, Such;
    MeanIsAccurate(rows, ScaleMax(db, school, kind));
  }

  lemma MeanIsAccurate(rows: seq<Grade>, max: int)
    requires Average(rows).Some? && forall g <- rows :: Counted(g) && 0.0 <= g.value.value <= max as real
    ensures IsMean(RealSum(rows, Weighted), RealSum(rows, Weight), max, Average(rows).value.average)
    ensures Average(rows).value.count == |Filter(rows, Counted)|
  {
    WeightsAreNatural(rows);
    AverageStaysOnScale(rows, max);
  }

  lemma {:induction false} AllFiltered(rows: seq<Grade>)
    requires forall g <- rows :: Counted(g)
    ensures |Filter(rows, Counted)| == |rows|
  {
    if rows != [] {
      AllFiltered(rows[..|rows| - 1]);
    }
  }

  /** In a sound state every mark of a numeric kind has a value on its scale, and weighs something. */
  lemma SoundRowsCount(db: Db, ids: seq<Id>, school: Id, kind: GradeKind)
    requires Sound(db) && school in db.schools && GradesIn(db, ids, school) && kind != Descriptive
    ensures var chosen := Filter(ids, OfKind(db, kind));
      && (forall g <- chosen :: g in db.grades && Counted(db.grades[g]))
      && forall g <- GradeRows(db, chosen) ::
           Counted(g) && 0.0 <= g.value.value <= ScaleMax(db, school, kind) as real
  {
    var chosen := Filter(ids, OfKind(db, kind));
    FilterKeeps(ids, OfKind(db, kind));
    hide Filter;
    forall g <- chosen
      ensures g in db.grades && Counted(db.grades[g])
              && 0.0 <= db.grades[g].value.value <= ScaleMax(db, school, kind) as real
    {
      assert GradeFor(db, db.grades[g]);
    }
    hide Sound, GradeFor, Counted, GradesIn, OfKind;
    var rows := GradeRows(db, chosen);
    forall g <- rows ensures Counted(g) && 0.0 <= g.value.value <= ScaleMax(db, school, kind) as real {
      var i :| 0 <= i < |rows| && rows[i] == g;
      assert chosen[i] in chosen;
    }
  }

  lemma {:induction false} FilterFinds<T>(rows: seq<T>, p: T -> bool)
    ensures forall x <- rows :: p(x) ==> x in Filter(rows, p)
  {
    if rows != [] {
      FilterFinds(rows[..|rows| - 1], p);
    }
  }

  // ----- One student's progress -----

  /** A student's lessons: their own, and those of every group they are in. */
  function LessonsFor(db: Db, student: Id): set<Id> {
    set l | l in db.lessons && student in StudentsOf(db, db.lessons[l])
  }

  function GradesOf(db: Db, student: Id): set<Id> {
    set g | g in db.grades && db.grades[g].student == student
  }

  function SeatsOf(db: Db, student: Id): set<Seat> {
    set k | k in db.register && k.student == student
  }

  /** The progress screen, over the three query results in whatever order they came. */
  function ProgressForStudent(
    db: Db, me: Id, student: Id, lessons: seq<Id>, grades: seq<Id>, seats: seq<Seat>): Result<ProgressSummary>
    requires me in db.users
  {
    var _ :- FindStudent(db, me, student);
    Ok(ProgressSummary(SummariseLessons(db, lessons), SummariseAttendance(db, seats), SummariseGrades(db, grades)))
  }

  lemma TheirGradesIn(db: Db, student: Id, school: Id, grades: seq<Id>)
    requires Lists(grades, GradesOf(db, student)) && StudentOf(db, school, student)
    ensures GradesIn(db, grades, school)
  {
    forall g <- grades ensures g in GradesOf(db, student) { }
  }

  lemma ProgressAveragesFaithful(db: Db, me: Id, student: Id, grades: seq<Id>, kind: GradeKind)
    requires Sound(db) && me in db.users && FindStudent(db, me, student).Ok? && kind != Descriptive
    requires Lists(grades, GradesOf(db, student))
    ensures db.users[me].school in db.schools
    ensures IsAverageOf(db, GradesOf(db, student), kind, ScaleMax(db, db.users[me].school, kind), AverageOfKind(db, grades, kind))
  {
    TheirGradesIn(db, student, db.users[me].school, grades);
    hide IsAverageOf, GradesOf, AverageOfKind;
    SoundAveragesStayOnScale(db, grades, GradesOf(db, student), db.users[me].school, kind);
  }

  /** What the screen shows, in a sound state: counts that partition the student's own rows and agree with what the ledger
      charges, a rate that is the share of marked seats the student turned up for, and the averages of their marks. */
  lemma ProgressIsFaithful(db: Db, me: Id, student: Id, lessons: seq<Id>, grades: seq<Id>, seats: seq<Seat>)
    requires Sound(db) && me in db.users && FindStudent(db, me, student).Ok?
    requires Lists(lessons, LessonsFor(db, student))
    requires Lists(grades, GradesOf(db, student))
    requires Lists(seats, SeatsOf(db, student))
    ensures db.users[me].school in db.schools
    ensures var p := ProgressForStudent(db, me, student, lessons, grades, seats).value;
      var marks := GradesOf(db, student);
      && p.lessons.total == |LessonsFor(db, student)| == p.lessons.completed + p.lessons.cancelled + p.lessons.scheduled
      && p.attendance.marked == |SeatsOf(db, student)|
      && p.attendance.present + p.attendance.late + p.attendance.absentUnexcused == |Ledger.ChargedRows(db, student)|
      && IsRate(p.attendance.rate, p.attendance.present + p.attendance.late, p.attendance.marked)
      && p.grades.count == |marks| && p.grades.descriptiveCount == |Such(marks, OfKind(db, Descriptive))|
      && IsAverageOf(db, marks, Classic, db.schools[db.users[me].school].gradeScaleMax, p.grades.classic)
      && IsAverageOf(db, marks, Percentage, 100, p.grades.percentage)
  {
    SelectedAreStored(db, student);
    hide Sound, FindStudent, SummariseAttendance, SummariseLessons, AverageOfKind, MarkedAs, Lists, IsRate, IsAverageOf;
    hide Ledger.ChargedRows, LessonsFor, SeatsOf, LessonsAt, GradesOf, OfKind, Such;
    CountOf(grades, GradesOf(db, student), OfKind(db, Descriptive));
    LessonsAddUp(db, lessons, LessonsFor(db, student));
    AttendanceAddsUp(db, seats, SeatsOf(db, student));
    ChargedAreThreeKinds(db, student);
    ListsLength(grades, GradesOf(db, student));
    ProgressAveragesFaithful(db, me, student, grades, Classic);
    ProgressAveragesFaithful(db, me, student, grades, Percentage);
  }

  lemma SelectedAreStored(db: Db, student: Id)
    ensures (forall l <- LessonsFor(db, student) :: l in db.lessons) && (forall g <- GradesOf(db, student) :: g in db.grades)
    ensures forall k <- SeatsOf(db, student) :: k in db.register
  {
  }

  /** The register's three charged kinds are what the ledger charges for. */
  lemma ChargedAreThreeKinds(db: Db, student: Id)
    ensures var s := SeatsOf(db, student);
      |Ledger.ChargedRows(db, student)|
      == |MarkedAs(db, s, Present)| + |MarkedAs(db, s, Late)| + |MarkedAs(db, s, AbsentUnexcused)|
  {
    var s := SeatsOf(db, student);
    var p, l, u := MarkedAs(db, s, Present), MarkedAs(db, s, Late), MarkedAs(db, s, AbsentUnexcused);
    assert Ledger.ChargedRows(db, student) == p + l + u;
    assert |p + l + u| == |p + l| + |u| && |p + l| == |p| + |l|;
  }
}

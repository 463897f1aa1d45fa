/** Turning the subject strings of three tables into rows of a fourth, and pointing the three at it. */
module Backfill {
  import opened Foundations
  import opened Text

  /** A student, group or lesson before the migration: its school, and what somebody typed. */
  datatype Named = Named(school: string, subject: string)

  /** The same row afterwards: the string is gone, and a key stands in for it. */
  datatype Pointed = Pointed(school: string, subjectId: Option<string>)

  datatype Subject = Subject(name: string, school: string)

  datatype Before = Before(students: map<Id, Named>, groups: map<Id, Named>, lessons: map<Id, Named>)
  datatype After = After(
    students: map<Id, Pointed>, groups: map<Id, Pointed>, lessons: map<Id, Pointed>, subjects: map<string, Subject>)

  /** Spaces at both ends go, and no other white space. */
  function Btrim(s: string): string {
    TrimBy(s, {' '})
  }

  /** `hash` stands for md5. */
  function SubjectId(hash: string -> string, school: string, name: string): string {
    hash(school + ":" + name)
  }

  function Mentioned(rows: map<Id, Named>): set<Subject> {
    set id | id in rows && Btrim(rows[id].subject) != "" :: Subject(Btrim(rows[id].subject), rows[id].school)
  }

  /** Every subject a school mentions anywhere, once. */
  function Collected(db: Before): set<Subject> {
    Mentioned(db.students) + Mentioned(db.groups) + Mentioned(db.lessons)
  }

  function IdOf(hash: string -> string, s: Subject): string {
    SubjectId(hash, s.school, s.name)
  }

  predicate CollisionFree(hash: string -> string, collected: set<Subject>) {
    forall s, t | s in collected && t in collected :: IdOf(hash, s) == IdOf(hash, t) ==> s == t
  }

  /** Row by row, in the order the query gives them; None as soon as a row's id is taken. */
  function Insert(hash: string -> string, rows: seq<Subject>): Option<map<string, Subject>> {
    if rows == [] then Some(map[])
    else
      var so, last := Insert(hash, rows[..|rows| - 1]), rows[|rows| - 1];
      if so.None? || IdOf(hash, last) in so.value then None else Some(so.value[IdOf(hash, last) := last])
  }

  function Repoint(hash: string -> string, rows: map<Id, Named>): map<Id, Pointed> {
    map id | id in rows ::
      Pointed(rows[id].school,
              if Btrim(rows[id].subject) != "" then Some(SubjectId(hash, rows[id].school, Btrim(rows[id].subject))) else None)
  }

  /** The whole migration: all of its statements, or none where the insertion is refused. `rows` is what the union query
      returns. */
  function Migrate(hash: string -> string, db: Before, rows: seq<Subject>): Option<After> {
    match Insert(hash, rows)
    case None => None
    case Some(subjects) =>
      Some(After(Repoint(hash, db.students), Repoint(hash, db.groups), Repoint(hash, db.lessons), subjects))
  }

  // ----- The insertion -----

  /** The table holds every row inserted under its own id, and nothing else. */
  ghost predicate Holds(hash: string -> string, rows: seq<Subject>, subjects: map<string, Subject>) {
    && (forall s <- rows :: IdOf(hash, s) in subjects && subjects[IdOf(hash, s)] == s)
    && (forall k <- subjects :: subjects[k] in rows && IdOf(hash, subjects[k]) == k)
  }

  lemma {:induction false} InsertHolds(hash: string -> string, rows: seq<Subject>)
    requires Insert(hash, rows).Some?
    ensures Holds(hash, rows, Insert(hash, rows).value)
  {
    hide IdOf;
    if rows != [] {
      var front, last := rows[..|rows| - 1], rows[|rows| - 1];
      InsertHolds(hash, front);
      assert forall s :: s in rows <==> s in front || s == last;
    }
  }

  lemma {:induction false} InsertsIff(hash: string -> string, rows: seq<Subject>)
    requires forall i, j :: 0 <= i < j < |rows| ==> rows[i] != rows[j]
    ensures Insert(hash, rows).Some? <==> forall s <- rows, t <- rows :: IdOf(hash, s) == IdOf(hash, t) ==> s == t
  {
    hide IdOf;
    if rows != [] {
      var front, last := rows[..|rows| - 1], rows[|rows| - 1];
      InsertsIff(hash, front);
      assert forall s :: s in rows <==> s in front || s == last;
      assert last !in front;
      if Insert(hash, front).Some? { InsertHolds(hash, front); }
    }
  }

  /** The migration goes through if and only if no two of the subjects collected are given one id, whatever order they are
      inserted in; and the tables it leaves do not depend on that order. */
  lemma MigratesIff(hash: string -> string, db: Before, rows: seq<Subject>, others: seq<Subject>)
    requires Lists(rows, Collected(db)) && Lists(others, Collected(db))
    ensures Migrate(hash, db, rows).Some? <==> CollisionFree(hash, Collected(db))
    ensures Migrate(hash, db, rows) == Migrate(hash, db, others)
  {
    hide IdOf, Mentioned, Repoint;
    InsertsIff(hash, rows);
    InsertsIff(hash, others);
    if Insert(hash, rows).Some? {
      InsertHolds(hash, rows);
      InsertHolds(hash, others);
      SameRowsSameTable(hash, rows, others, Insert(hash, rows).value, Insert(hash, others).value);
    }
  }

  lemma SameRowsSameTable(
    hash: string -> string, rows: seq<Subject>, others: seq<Subject>, a: map<string, Subject>, b: map<string, Subject>)
    requires Holds(hash, rows, a) && Holds(hash, others, b) && forall s :: s in rows <==> s in others
    ensures a == b
  {
    hide IdOf;
    forall k ensures k in a <==> k in b {
      if k in a { assert a[k] in others; }
      if k in b { assert b[k] in rows; }
    }
    forall k <- a ensures a[k] == b[k] { assert a[k] in others; }
  }

  // ----- What it means -----

  /** What the old column said: the typed subject without surrounding spaces, or nothing. */
  function Said(row: Named): Option<string> {
    if Btrim(row.subject) == "" then None else Some(Btrim(row.subject))
  }

  /** What the new column says, read through the key; None also where the key leads nowhere. */
  function Says(subjects: map<string, Subject>, row: Pointed): Option<string> {
    if row.subjectId.Some? && row.subjectId.value in subjects then Some(subjects[row.subjectId.value].name) else None
  }

  /** Every row of a table keeps its school and says what it said, through a key that leads to a subject of that school. */
  ghost predicate SaysWhatItSaid(old_: map<Id, Named>, new_: map<Id, Pointed>, subjects: map<string, Subject>) {
    && new_.Keys == old_.Keys
    && forall id <- old_ ::
         && new_[id].school == old_[id].school
         && Says(subjects, new_[id]) == Said(old_[id])
         && (new_[id].subjectId.Some? ==>
               new_[id].subjectId.value in subjects && subjects[new_[id].subjectId.value].school == new_[id].school)
  }

  lemma TableSaysWhatItSaid(hash: string -> string, table: map<Id, Named>, rows: seq<Subject>)
    requires (forall s <- Mentioned(table) :: s in rows) && Insert(hash, rows).Some?
    ensures SaysWhatItSaid(table, Repoint(hash, table), Insert(hash, rows).value)
  {
    InsertHolds(hash, rows);
    var subjects := Insert(hash, rows).value;
    hide Btrim, Insert;
    forall id <- table
      ensures Says(subjects, Repoint(hash, table)[id]) == Said(table[id])
      ensures Said(table[id]).Some? ==>
          var key := SubjectId(hash, table[id].school, Said(table[id]).value);
          key in subjects && subjects[key].school == table[id].school
    {
      if Said(table[id]).Some? {
        var s := Subject(Said(table[id]).value, table[id].school);
        assert s in Mentioned(table);
        assert subjects[IdOf(hash, s)] == s;
      }
    }
  }

  /** Whenever the migration goes through, every student, group and lesson says through its key exactly what it said as a
      string, or nothing if that was blank; and the key of a subject is the digest of its school and name. */
  lemma MigrationKeepsMeaning(hash: string -> string, db: Before, rows: seq<Subject>)
    requires Lists(rows, Collected(db)) && Migrate(hash, db, rows).Some?
    ensures var after := Migrate(hash, db, rows).value;
      && SaysWhatItSaid(db.students, after.students, after.subjects)
      && SaysWhatItSaid(db.groups, after.groups, after.subjects)
      && SaysWhatItSaid(db.lessons, after.lessons, after.subjects)
      && forall k <- after.subjects :: k == hash(after.subjects[k].school + ":" + after.subjects[k].name)
  {
    InsertHolds(hash, rows);
    hide SaysWhatItSaid, Repoint, Mentioned;
    TableSaysWhatItSaid(hash, db.students, rows);
    TableSaysWhatItSaid(hash, db.groups, rows);
    TableSaysWhatItSaid(hash, db.lessons, rows);
  }

  function RowsFor(subjects: map<string, Subject>, s: Subject): set<string> {
    set id | id in subjects && subjects[id] == s
  }

  predicate Speaks(rows: map<Id, Named>, s: Subject) {
    exists id <- rows :: rows[id].school == s.school && Said(rows[id]) == Some(s.name)
  }

  lemma SpeaksIsMentioned(rows: map<Id, Named>, s: Subject)
    ensures Speaks(rows, s) <==> s in Mentioned(rows)
  {
    hide Btrim;
  }

  lemma CollectedIsSpoken(db: Before, s: Subject)
    ensures s in Collected(db) <==> Speaks(db.students, s) || Speaks(db.groups, s) || Speaks(db.lessons, s)
  {
    SpeaksIsMentioned(db.students, s);
    SpeaksIsMentioned(db.groups, s);
    SpeaksIsMentioned(db.lessons, s);
    hide Mentioned, Speaks;
  }

  /** One row for each school and name that some row mentions, and none for any other: nothing is invented, nothing is
      doubled, and the unique index on school and name holds. */
  lemma OneSubjectPerName(hash: string -> string, db: Before, rows: seq<Subject>, s: Subject)
    requires Lists(rows, Collected(db)) && Migrate(hash, db, rows).Some?
    ensures |RowsFor(Migrate(hash, db, rows).value.subjects, s)|
         == if Speaks(db.students, s) || Speaks(db.groups, s) || Speaks(db.lessons, s) then 1 else 0
  {
    CollectedIsSpoken(db, s);
    InsertHolds(hash, rows);
    hide Mentioned, Speaks, Repoint, Collected, IdOf;
    var subjects := Migrate(hash, db, rows).value.subjects;
    if s in Collected(db) {
      assert RowsFor(subjects, s) == {IdOf(hash, s)};
    } else {
      assert RowsFor(subjects, s) == {};
    }
  }

  /** No two subjects of a school read the same, case aside. */
  ghost predicate NamesApart(subjects: map<string, Subject>) {
    forall k <- subjects, j <- subjects ::
      subjects[k].school == subjects[j].school && Lower(subjects[k].name) == Lower(subjects[j].name) ==> k == j
  }

  /** The tables start as the application keeps them, no two subjects of a school equal up to case, if and only if no school
      had mentioned one name in two cases. */
  lemma NamesApartAfterIff(hash: string -> string, db: Before, rows: seq<Subject>)
    requires Lists(rows, Collected(db)) && Migrate(hash, db, rows).Some?
    ensures NamesApart(Migrate(hash, db, rows).value.subjects)
       <==> forall s <- Collected(db), t <- Collected(db) ::
              s.school == t.school && Lower(s.name) == Lower(t.name) ==> s == t
  {
    InsertHolds(hash, rows);
    hide Collected, Repoint, IdOf, Lower, Insert;
    var subjects := Migrate(hash, db, rows).value.subjects;
    forall s <- rows ensures IdOf(hash, s) in subjects && subjects[IdOf(hash, s)] == s { }
    if NamesApart(subjects) {
      forall s <- Collected(db), t <- Collected(db) | s.school == t.school && Lower(s.name) == Lower(t.name) ensures s == t {
        assert subjects[IdOf(hash, s)] == s && subjects[IdOf(hash, t)] == t;
      }
    } else {
      var k, j :| k in subjects && j in subjects && k != j
        && subjects[k].school == subjects[j].school && Lower(subjects[k].name) == Lower(subjects[j].name);
      assert subjects[k] in rows && subjects[j] in rows && subjects[k] != subjects[j];
    }
  }

  /** A school that had typed "a" for one student and "A" for another keeps both. */
  lemma TwoSpellingsAreKept(hash: string -> string, school: string, rows: seq<Subject>)
    requires Injective(hash) && ':' !in school
    requires Lists(rows, Collected(Before(map[0 := Named(school, "a"), 1 := Named(school, "A")], map[], map[])))
    ensures var migrated := Migrate(hash, Before(map[0 := Named(school, "a"), 1 := Named(school, "A")], map[], map[]), rows);
      migrated.Some? && !NamesApart(migrated.value.subjects)
  {
    var db := Before(map[0 := Named(school, "a"), 1 := Named(school, "A")], map[], map[]);
    TrimByFixes("a", {' '});
    TrimByFixes("A", {' '});
    assert db.students[0].subject == "a" && db.students[1].subject == "A";
    hide TrimBy;
    var s, t := Subject("a", school), Subject("A", school);
    assert s in Mentioned(db.students) && t in Mentioned(db.students);
    assert "a"[0] != "A"[0] && Lower("a") == Lower("A");
    assert s.name != t.name;
    forall u <- Collected(db) ensures ':' !in u.school { }
    CollisionFreeDigestMigrates(hash, db, rows);
    NamesApartAfterIff(hash, db, rows);
  }

  ghost predicate Injective(hash: string -> string) {
    forall a, b :: hash(a) == hash(b) ==> a == b
  }

  lemma ColonSplitsOnce(a: Subject, b: Subject)
    requires ':' !in a.school && ':' !in b.school
    requires a.school + ":" + a.name == b.school + ":" + b.name
    ensures a == b
  {
    ColonComesNoLater(a, b);
    ColonComesNoLater(b, a);
    var k := a.school + ":" + a.name;
    assert a.school == k[..|a.school|] && b.school == k[..|b.school|];
    assert a.name == k[|a.school| + 1..] && b.name == k[|b.school| + 1..];
  }

  lemma ColonComesNoLater(a: Subject, b: Subject)
    requires ':' !in b.school && a.school + ":" + a.name == b.school + ":" + b.name
    ensures |b.school| <= |a.school|
  {
    var k := a.school + ":" + a.name;
    assert b.school == k[..|b.school|];
    assert forall n :: 0 <= n < |b.school| ==> k[n] == b.school[n] && b.school[n] in b.school;
    assert k[|a.school|] == ':';
  }

  /** A digest without collisions, and school ids without a colon, always let it through. */
  lemma CollisionFreeDigestMigrates(hash: string -> string, db: Before, rows: seq<Subject>)
    requires Injective(hash) && Lists(rows, Collected(db)) && forall s <- Collected(db) :: ':' !in s.school
    ensures Migrate(hash, db, rows).Some?
  {
    var collected := Collected(db);
    hide Mentioned;
    forall s <- collected, t <- collected | IdOf(hash, s) == IdOf(hash, t) ensures s == t {
      ColonSplitsOnce(s, t);
    }
    MigratesIff(hash, db, rows, rows);
  }

  /** What counts as blank: nothing but spaces. A lone tab, blank everywhere else in the application, becomes a subject. */
  lemma BlankIsSpaces(school: string, subject: string)
    ensures Said(Named(school, subject)).None? <==> forall c <- subject :: c == ' '
    ensures Said(Named(school, subject)).Some? ==> Trimmed(subject, Said(Named(school, subject)).value, {' '})
  {
    TrimByIs(subject, {' '});
  }

  lemma LoneTabBecomesASubject(school: string)
    ensures Said(Named(school, "\t")) == Some("\t") && BlankToNull(Some("\t")) == None
  {
    assert "\t"[1..] == "";
  }

  // ----- The statements, in order -----

  class Database {
    var students: map<Id, Named>
    var groups: map<Id, Named>
    var lessons: map<Id, Named>
    var subjects: map<string, Subject>
    var studentSubject: map<Id, string>
    var groupSubject: map<Id, string>
    var lessonSubject: map<Id, string>

    function Strings(): Before
      reads this
    {
      Before(students, groups, lessons)
    }

    constructor (db: Before)
      ensures Strings() == db
    {
      students, groups, lessons := db.students, db.groups, db.lessons;
      subjects, studentSubject, groupSubject, lessonSubject := map[], map[], map[], map[];
    }

    /** The new columns beside the rows they belong to: a row without an entry has NULL. */
    static function WithColumn(rows: map<Id, Named>, column: map<Id, string>): map<Id, Pointed> {
      map id | id in rows :: Pointed(rows[id].school, if id in column then Some(column[id]) else None)
    }

    ghost function Keys(): After
      reads this
    {
      After(WithColumn(students, studentSubject), WithColumn(groups, groupSubject), WithColumn(lessons, lessonSubject),
            subjects)
    }

    static function Assigned(hash: string -> string, rows: map<Id, Named>): map<Id, string> {
      map id | id in rows && Btrim(rows[id].subject) != "" :: SubjectId(hash, rows[id].school, Btrim(rows[id].subject))
    }

    static lemma AssignedRepoints(hash: string -> string, rows: map<Id, Named>)
      ensures WithColumn(rows, Assigned(hash, rows)) == Repoint(hash, rows)
    {
      hide Btrim, SubjectId;
    }

    /** The statements in order; the first one inserts row by row and is undone where a key is taken. `listing` is what the
        union query returns. */
    method Deploy(hash: string -> string, listing: seq<Subject>) returns (ok: bool)
      requires Lists(listing, Collected(Strings()))
      modifies this
      ensures ok <==> old(CollisionFree(hash, Collected(Strings())))
      ensures ok ==> Some(Keys()) == Migrate(hash, old(Strings()), listing)
      ensures !ok ==> subjects == map[] && studentSubject == old(studentSubject)
      ensures !ok ==> groupSubject == old(groupSubject) && lessonSubject == old(lessonSubject)
      ensures Strings() == old(Strings())
    {
      ghost var db := Strings();
      MigratesIff(hash, db, listing, listing);
      hide Btrim, CollisionFree, SubjectId, Mentioned, IdOf, Assigned, WithColumn, Repoint, Collected, Lists;
      ok := InsertAll(hash, listing);
      if !ok {
        return false;
      }
      AssignedRepoints(hash, students);
      AssignedRepoints(hash, groups);
      AssignedRepoints(hash, lessons);
      studentSubject := Assigned(hash, students);
      groupSubject := Assigned(hash, groups);
      lessonSubject := Assigned(hash, lessons);
    }

    /** The insertion, or an empty table where it is refused. */
    method InsertAll(hash: string -> string, listing: seq<Subject>) returns (ok: bool)
      modifies this`subjects
      ensures ok <==> Insert(hash, listing).Some?
      ensures subjects == Insert(hash, listing).GetOr(map[])
    {
      hide IdOf;
      subjects := map[];
      var i := 0;
      while i < |listing|
        invariant 0 <= i <= |listing|
        invariant Insert(hash, listing[..i]) == Some(subjects)
      {
        var key := IdOf(hash, listing[i]);
        assert listing[..i + 1][..i] == listing[..i];
        if key in subjects {
          RefusedForGood(hash, listing, i + 1);
          subjects := map[];
          return false;
        }
        subjects := subjects[key := listing[i]];
        i := i + 1;
      }
      assert listing[..|listing|] == listing;
      return true;
    }
  }

  /** An insertion refused part of the way is refused altogether. */
  lemma {:induction false} RefusedForGood(hash: string -> string, rows: seq<Subject>, n: nat)
    requires n <= |rows| && Insert(hash, rows[..n]).None?
    ensures Insert(hash, rows).None?
    decreases |rows| - n
  {
    if n == |rows| {
      assert rows[..n] == rows;
    } else {
      assert rows[..n + 1][..n] == rows[..n];
      RefusedForGood(hash, rows, n + 1);
    }
  }
}

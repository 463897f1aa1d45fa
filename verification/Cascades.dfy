/** What removing a student or a group takes along, and what survives it. */
module Cascades {
  import opened Foundations
  import opened Books
  import opened Soundness
  import opened Ledger
  import Scenes

  /** Removing a student takes their lessons, places, register rows and marks, and nothing of anybody else's. Other
      students' marks survive whole: none of them was given in a lesson that goes. */
  lemma RemoveStudentTakesOnlyTheirs(db: Db, me: Id, id: Id)
    requires Sound(db) && me in db.users && RemoveStudent(db, me, id).Ok?
    ensures var after := RemoveStudent(db, me, id).value;
      && after.students == db.students - {id}
      && after.groups == db.groups && after.subjects == db.subjects && after.users == db.users
      && after.members == (set p | p in db.members && p.student != id)
      && after.lessons == db.lessons - LessonsOfStudent(db, id)
      && after.register == (map k | k in db.register && k.student != id :: db.register[k])
      && after.grades == (map g | g in db.grades && db.grades[g].student != id :: db.grades[g])
  {
    TheirRowsAlone(db, id);
    hide Sound;
    var rest := DropLessons(db, LessonsOfStudent(db, id));
    var after := RemoveStudent(db, me, id).value;
    assert after.register == map k | k in rest.register && k.student != id :: rest.register[k];
    assert after.grades == map g | g in rest.grades && rest.grades[g].student != id :: rest.grades[g];
    hide RemoveStudent, DropLessons;
  }

  /** The lessons of a student hold register rows and marks of that student only. */
  lemma TheirRowsAlone(db: Db, id: Id)
    requires Closed(db)
    ensures var rest := DropLessons(db, LessonsOfStudent(db, id));
      && (map k | k in rest.register && k.student != id :: rest.register[k])
         == (map k | k in db.register && k.student != id :: db.register[k])
      && (map g | g in rest.grades && rest.grades[g].student != id :: rest.grades[g])
         == (map g | g in db.grades && db.grades[g].student != id :: db.grades[g])
  {
    TheirMarksAlone(db, id);
    forall k <- db.register | k.student != id ensures k.lesson !in LessonsOfStudent(db, id) {
      assert SeatFor(db, k);
    }
    hide Closed, SeatFor, Detached;
  }

  lemma TheirMarksAlone(db: Db, id: Id)
    requires Closed(db)
    ensures var rest := DropLessons(db, LessonsOfStudent(db, id));
      (map g | g in rest.grades && rest.grades[g].student != id :: rest.grades[g])
      == (map g | g in db.grades && db.grades[g].student != id :: db.grades[g])
  {
    forall g <- db.grades | db.grades[g].student != id
      ensures Detached(db.grades[g], LessonsOfStudent(db, id)) == db.grades[g]
    {
      assert GradeFor(db, db.grades[g]);
    }
    hide Closed, GradeFor;
  }

  /** The tables after a group's removal, one by one. */
  lemma RemoveGroupTakesItsLessons(db: Db, me: Id, id: Id)
    requires me in db.users && RemoveGroup(db, me, id).Ok?
    ensures var after := RemoveGroup(db, me, id).value;
      && after.students == db.students && after.subjects == db.subjects && after.users == db.users
      && after.groups == db.groups - {id}
      && after.members == (set p | p in db.members && p.group != id)
      && after.lessons == db.lessons - LessonsOfGroup(db, id)
      && after.register == (map k | k in db.register && k.lesson !in LessonsOfGroup(db, id) :: db.register[k])
      && after.grades.Keys == db.grades.Keys
      && (forall g <- db.grades ::
            after.grades[g] == db.grades[g].(lesson := after.grades[g].lesson)
            && after.grades[g].lesson
               == if db.grades[g].lesson.Some? && db.grades[g].lesson.value in LessonsOfGroup(db, id)
                  then None else db.grades[g].lesson)
  {
    hide FindGroup;
  }

  /** A lesson is for a student or a group and never both, so a group's removal spares every one-to-one lesson with its
      register rows, and the marks given in it whole; and every other group with its lessons and places. */
  lemma RemoveGroupSparesTheRest(db: Db, me: Id, id: Id)
    requires Sound(db) && me in db.users && RemoveGroup(db, me, id).Ok?
    ensures var after := RemoveGroup(db, me, id).value;
      && (forall l <- db.lessons :: db.lessons[l].student.Some? ==> l in after.lessons && after.lessons[l] == db.lessons[l])
      && (forall k <- db.register :: db.lessons[k.lesson].student.Some? ==>
            k in after.register && after.register[k] == db.register[k])
      && (forall g <- db.grades :: db.grades[g].lesson.Some? && db.lessons[db.grades[g].lesson.value].student.Some? ==>
            g in after.grades && after.grades[g] == db.grades[g])
      && (forall l <- db.lessons :: db.lessons[l].group.Some? && db.lessons[l].group != Some(id) ==>
            l in after.lessons && db.lessons[l].group.value in after.groups)
      && (forall p <- db.members :: p.group != id ==> p in after.members && p.group in after.groups)
  {
    RowsHaveLessons(db);
    hide Sound;
    RemoveGroupTakesItsLessons(db, me, id);
    hide RemoveGroup;
  }

  /** Of the group itself nothing is left: no lesson, place or register row leads to it, and no mark to one of its lessons. */
  lemma RemoveGroupLeavesNothing(db: Db, me: Id, id: Id)
    requires Sound(db) && me in db.users && RemoveGroup(db, me, id).Ok?
    ensures var after := RemoveGroup(db, me, id).value;
      && (forall l <- after.lessons :: after.lessons[l].group != Some(id))
      && (forall p <- after.members :: p.group != id)
      && (forall k <- after.register :: k.lesson in after.lessons)
      && (forall g <- after.grades :: after.grades[g].lesson.Some? ==> after.grades[g].lesson.value in after.lessons)
  {
    RowsHaveLessons(db);
    hide Sound;
    RemoveGroupTakesItsLessons(db, me, id);
    hide RemoveGroup;
  }

  lemma RowsHaveLessons(db: Db)
    requires Closed(db)
    ensures forall k <- db.register :: k.lesson in db.lessons
    ensures forall g <- db.grades :: db.grades[g].lesson.Some? ==> db.grades[g].lesson.value in db.lessons
    ensures forall l <- db.lessons :: db.lessons[l].student.Some? <==> db.lessons[l].group.None?
    ensures forall l <- db.lessons :: db.lessons[l].group.Some? ==> db.lessons[l].group.value in db.groups
    ensures forall p <- db.members :: p.group in db.groups
  {
    forall k <- db.register ensures k.lesson in db.lessons { assert SeatFor(db, k); }
    forall g <- db.grades | db.grades[g].lesson.Some? ensures db.grades[g].lesson.value in db.lessons {
      assert GradeFor(db, db.grades[g]);
    }
    forall l <- db.lessons
      ensures db.lessons[l].student.Some? <==> db.lessons[l].group.None?
      ensures db.lessons[l].group.Some? ==> db.lessons[l].group.value in db.groups
    {
      assert LessonFor(db, db.lessons[l]);
    }
    forall p <- db.members ensures p.group in db.groups { assert PlaceFor(db, p); }
  }

  /** Attendance does not survive a group's removal: the register is unchanged exactly when nobody was ever marked at
      one of its lessons. */
  lemma RemoveGroupKeepsRegisterIff(db: Db, me: Id, id: Id)
    requires me in db.users && RemoveGroup(db, me, id).Ok?
    ensures RemoveGroup(db, me, id).value.register == db.register
       <==> forall k <- db.register :: k.lesson !in LessonsOfGroup(db, id)
  {
    RemoveGroupTakesItsLessons(db, me, id);
    hide RemoveGroup;
    var after := map k | k in db.register && k.lesson !in LessonsOfGroup(db, id) :: db.register[k];
    if k :| k in db.register && k.lesson in LessonsOfGroup(db, id) {
      assert k !in after;
    } else {
      assert after == db.register;
    }
  }

  /** A student stays square with the register through a group's removal exactly when no row they were charged for
      goes with it; otherwise the lessons stay paid for. */
  lemma RemoveGroupSquareIff(db: Db, me: Id, id: Id, student: Id)
    requires me in db.users && RemoveGroup(db, me, id).Ok? && student in db.students
    ensures var after := RemoveGroup(db, me, id).value;
      && student in after.students
      && Balance(after, student) == Balance(db, student)
      && (Balance(after, student) + |ChargedRows(after, student)| == Balance(db, student) + |ChargedRows(db, student)|
          <==> forall k <- ChargedRows(db, student) :: k.lesson !in LessonsOfGroup(db, id))
  {
    RemoveGroupRows(db, me, id, student);
    CascadesSpareBalances(db, me, id, student);
    var lost := RowsLost(db, id, student);
    assert lost == {} <==> forall k <- ChargedRows(db, student) :: k.lesson !in LessonsOfGroup(db, id);
    assert |lost| == 0 <==> lost == {};
    hide RemoveGroup, ChargedRows, RowsLost;
  }

  /** A group of two, one of them charged for its lesson: the group's removal takes the charged row, and the lesson stays
      paid for. */
  lemma RemoveGroupCanLoseRows()
    ensures var before, after := Run(Scenes.TAUGHT), Run(Scenes.TAUGHT + [Ask(1, AskRemoveGroup(5))]);
      && Seat(6, 3) in ChargedRows(before, 3) && ChargedRows(after, 3) == {}
      && 3 in before.students && 3 in after.students && Balance(after, 3) == Balance(before, 3)
  {
    Scenes.PairIsTaught();
    Scenes.RunOneMore(Scenes.TAUGHT, Ask(1, AskRemoveGroup(5)));
    var db := Run(Scenes.TAUGHT);
    assert RemoveGroup(db, 1, 5).Ok? by { hide Run, DropLessons; }
    Scenes.Accepted(db, 1, AskRemoveGroup(5));
    OneRowIsLost(db);
    hide Run, RemoveGroup, Next, ChargedRows, RowsLost;
    RemoveGroupRows(db, 1, 5, 3);
    CascadesSpareBalances(db, 1, 5, 3);
  }

  lemma OneRowIsLost(db: Db)
    requires db == Scenes.ONE_CHARGED
    ensures Seat(6, 3) in ChargedRows(db, 3) && ChargedRows(db, 3) == RowsLost(db, 5, 3)
  {
    assert Charged(Present);
    assert 6 in LessonsOfGroup(db, 5);
  }
}

/** Whether a group can lose its subject: the one payload that blanks it, and what that means for every run. */
module GroupSubjects {
  import opened Foundations
  import opened Books
  import opened Soundness
  import Ledger
  import Scenes

  /** An accepted edit leaves a group without a subject if and only if it sends an explicit null, or mentions no subject and
      there was none. */
  lemma UpdateBlanksIff(db: Db, me: Id, id: Id, patch: GroupPatch)
    requires me in db.users && UpdateGroup(db, me, id, patch).Ok?
    ensures id in db.groups && id in UpdateGroup(db, me, id, patch).value.groups
    ensures UpdateGroup(db, me, id, patch).value.groups[id].subject.None?
       <==> patch.subject == Some(None) || (patch.subject.None? && db.groups[id].subject.None?)
    ensures forall g <- db.groups | g != id :: UpdateGroup(db, me, id, patch).value.groups[g] == db.groups[g]
    ensures UpdateGroup(db, me, id, patch).value.groups.Keys == db.groups.Keys
  {
  }

  // ----- One step -----

  /** The step edits the group, is accepted, and says something about its subject. */
  predicate Resubjects(db: Db, step: Step, group: Id) {
    && step.Ask? && step.request.AskUpdateGroup? && step.request.id == group
    && step.request.groupPatch.subject.Some? && Exec(db, step).Ok?
  }

  /** Every group there was there before, with the same subject. */
  ghost predicate KeepsSubjects(db: Db, after: Db) {
    forall g <- after.groups :: g in db.groups && after.groups[g].subject == db.groups[g].subject
  }

  lemma RemovalsKeepSubjects(db: Db, me: Id, request: Request)
    requires me in db.users && Serve(db, me, request).Ok?
    requires request.AskRemoveStudent? || request.AskRemoveGroup?
    ensures KeepsSubjects(db, Serve(db, me, request).value)
  {
    hide FindStudent, FindGroup;
  }

  lemma PeopleKeepSubjects(db: Db, me: Id, request: Request)
    requires me in db.users && Serve(db, me, request).Ok?
    requires request.AskCreateStudent? || request.AskUpdateStudent? || request.AskAddMember? || request.AskRemoveMember?
    ensures KeepsSubjects(db, Serve(db, me, request).value)
  {
    hide FindStudent, FindGroup, ResolveSubject;
  }

  lemma LessonsKeepSubjects(db: Db, me: Id, request: Request)
    requires me in db.users && Serve(db, me, request).Ok?
    requires request.AskBookLesson? || request.AskSetStatus? || request.AskWriteJournal?
    ensures KeepsSubjects(db, Serve(db, me, request).value)
  {
    if request.AskWriteJournal? { WriteMarksFrame(db, request.id, request.journal.attendance); }
    hide FindStudent, FindGroup, FindLesson, ResolveSubject, WriteMarks, StudentsOf, Described, OnePerStudent;
  }

  lemma GradesKeepSubjects(db: Db, me: Id, request: Request)
    requires me in db.users && Serve(db, me, request).Ok?
    requires request.AskGradeStudent? || request.AskGradeInLesson? || request.AskCorrectGrade? || request.AskRemoveGrade?
    ensures KeepsSubjects(db, Serve(db, me, request).value)
  {
    hide FindStudent, FindLesson, FindWritableGrade, InScale, ResolveMarked;
  }

  lemma SubjectListKeepsSubjects(db: Db, me: Id, request: Request)
    requires me in db.users && Serve(db, me, request).Ok?
    requires request.AskCreateSubject? || request.AskRenameSubject? || request.AskHideSubject? || request.AskRestoreSubject?
    ensures KeepsSubjects(db, Serve(db, me, request).value)
  {
    hide Namesakes, NameTaken, UsageOf;
  }

  lemma OthersKeepSubjects(db: Db, me: Id, request: Request)
    requires me in db.users && Serve(db, me, request).Ok? && !request.AskCreateGroup? && !request.AskUpdateGroup?
    ensures KeepsSubjects(db, Serve(db, me, request).value)
  {
    hide KeepsSubjects, Serve;
    if request.AskRemoveStudent? || request.AskRemoveGroup? {
      RemovalsKeepSubjects(db, me, request);
    } else if request.AskCreateStudent? || request.AskUpdateStudent? || request.AskAddMember? || request.AskRemoveMember? {
      PeopleKeepSubjects(db, me, request);
    } else if request.AskBookLesson? || request.AskSetStatus? || request.AskWriteJournal? {
      LessonsKeepSubjects(db, me, request);
    } else if request.AskGradeStudent? || request.AskGradeInLesson? || request.AskCorrectGrade? || request.AskRemoveGrade? {
      GradesKeepSubjects(db, me, request);
    } else {
      SubjectListKeepsSubjects(db, me, request);
    }
  }

  /** One step of any kind: a group that is there afterwards has no subject if and only if the step is an edit that blanked
      it, or it had none and the step is not an edit that says otherwise. */
  lemma StepBlanksIff(db: Db, step: Step, group: Id)
    requires IdsSpent(db) && group in Next(db, step).groups
    ensures group in db.groups || group >= db.nextId
    ensures Next(db, step).groups[group].subject.None? <==>
              if Resubjects(db, step, group) then step.request.groupPatch.subject == Some(None)
              else group in db.groups && db.groups[group].subject.None?
  {
    if step.Ask? && Exec(db, step).Ok? {
      var me, request := step.me, step.request;
      assert Next(db, step) == Serve(db, me, request).value;
      if request.AskUpdateGroup? {
        assert Serve(db, me, request) == UpdateGroup(db, me, request.id, request.groupPatch);
        UpdateBlanksIff(db, me, request.id, request.groupPatch);
        hide Serve, UpdateGroup, Next;
      } else if request.AskCreateGroup? {
        assert Serve(db, me, request) == CreateGroup(db, me, request.newGroup);
        hide Serve, Next;
      } else {
        OthersKeepSubjects(db, me, request);
        hide Serve, Next;
      }
    } else {
      hide Serve;
    }
  }

  // ----- Every run -----

  /** The last accepted edit of the run that says anything about the group's subject sends an explicit null. */
  predicate Blanked(steps: seq<Step>, group: Id) {
    steps != [] &&
    var front, last := steps[..|steps| - 1], steps[|steps| - 1];
    if Resubjects(Run(front), last, group) then last.request.groupPatch.subject == Some(None) else Blanked(front, group)
  }

  /** Only a group that has been there can have been blanked. */
  lemma {:induction false} BlankedIsSpent(steps: seq<Step>, group: Id)
    requires Blanked(steps, group)
    ensures group < Run(steps).nextId
  {
    var front, last := steps[..|steps| - 1], steps[|steps| - 1];
    RunIsSound(front);
    Ledger.NextIdGrows(Run(front), last);
    if Resubjects(Run(front), last, group) {
      assert group in Run(front).groups;
    } else {
      BlankedIsSpent(front, group);
    }
  }

  /** Over every run: a group has no subject if and only if the last accepted edit that mentions its subject sends null. */
  lemma {:induction false} NoSubjectIff(steps: seq<Step>, group: Id)
    requires group in Run(steps).groups
    ensures Run(steps).groups[group].subject.None? <==> Blanked(steps, group)
  {
    if steps != [] {
      var front, last := steps[..|steps| - 1], steps[|steps| - 1];
      RunIsSound(front);
      StepBlanksIff(Run(front), last, group);
      hide Next, Closed, Retired, NamesApart, NamesTrimmed, Resubjects;
      if group in Run(front).groups {
        NoSubjectIff(front, group);
      } else if Blanked(front, group) {
        BlankedIsSpent(front, group);
      }
    }
  }

  /** Every group has a subject if and only if no group still there was left blanked. */
  lemma EveryGroupHasASubjectIff(steps: seq<Step>)
    ensures (forall g <- Run(steps).groups :: Run(steps).groups[g].subject.Some?)
       <==> (forall g <- Run(steps).groups :: !Blanked(steps, g))
  {
    hide Run, Blanked;
    forall g <- Run(steps).groups ensures Run(steps).groups[g].subject.None? <==> Blanked(steps, g) {
      NoSubjectIff(steps, g);
    }
  }

  /** It does happen: one accepted edit that carries an explicit null. */
  lemma NullBlanksAGroup()
    ensures var blanking := Ask(1, AskUpdateGroup(5, GroupPatch(None, Some(None), None)));
      && 5 in Run(Scenes.TAUGHT).groups && Run(Scenes.TAUGHT).groups[5].subject == Some(2)
      && 5 in Run(Scenes.TAUGHT + [blanking]).groups && Run(Scenes.TAUGHT + [blanking]).groups[5].subject.None?
  {
    var patch := GroupPatch(None, Some(None), None);
    Scenes.PairIsTaught();
    Scenes.RunOneMore(Scenes.TAUGHT, Ask(1, AskUpdateGroup(5, patch)));
    Scenes.Accepted(Scenes.ONE_CHARGED, 1, AskUpdateGroup(5, patch));
    UpdateBlanksIff(Scenes.ONE_CHARGED, 1, 5, patch);
    hide Run, Next;
  }
}

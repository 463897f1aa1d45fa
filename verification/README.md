# A verified model of the tutoring school's books

The application keeps a tutoring school's records: who is taught by whom, which lessons are booked, who came, how many
paid lessons each student has left, what marks were given. This project models that behaviour in Dafny 4.11 and proves
what the records promise. `dafny verify dfyconfig.toml` checks all of it.

## How it is laid out

- `Foundations`, `Sorting`, `Text`: sums over finite sets, query results as row lists, sorting, trimming.
- `Books`: the tables, every service call as a function from one state to the next, and runs of requests.
- `SchoolTables`: the same calls as methods that update the tables in place, each proved to be its step.
- `Answers`, `Stored`: for every request, when it is accepted, how it is refused, and what it leaves in the tables, said of the
  rows and payloads themselves; `Screens`: from a request to what is shown next.
- `Soundness`: the invariants every request keeps. `Ledger`: the balance as a ledger. `WriteUps`: order, repetition and
  status of write-ups. `Cascades`: removals. `Undoing`: which request takes back which. `Tenancy`: who can touch what.
  `Subjects`: retirement. `Races`: retirement and names with checks and writes interleaved. `GroupSubjects`: what a group
  studies. `Scenes`: the short runs that concrete examples of the books start from.
- `Progress`, `Reports`, `Debtors`: the reads over those tables, against declared sums and counts.
- `Invitations`, `Uploads`, `MeetingAccounts`: three protocols as database steps that interleave, or meet a partner that
  may fail at any point.
- `MeetingProviders`, `UserConfig`, `Backfill`: room addresses, the settings column, and the migration of subjects.

A query is a parameter: a list of the rows it selects, each exactly once, in any order the query does not fix. Digests,
URL parsing, number coercion, the collation of names, clocks and random names are parameters too.

## Where the code and its comments part

The model follows the code.

- The comment on removing a group (src/groups/groups.service.ts:116-122) says attendance survives. The schema deletes
  register rows with their lesson (prisma/schema.prisma:487-494), so it survives exactly when nobody was marked
  (`Cascades.RemoveGroupKeepsRegisterIff`), and a charge can be lost with it (`Cascades.RemoveGroupSquareIff`).
- The status derived from a write-up looks at its payload only, not at the stored register
  (`WriteUps.DerivedStatusAgrees`).
- The name check and the write that follows it are separate (src/subjects/subjects.service.ts:64-73). A name typed twice at
  once in two cases passes both the check and the index, be it two creations, two renames or one of each
  (`Races.RacingNamesIff`, `Races.NamesApartThroughoutIff`, `Races.RenameCanRace`).
- A cancelled lesson of a hidden subject can be put back on, by a status move or a write-up (`Subjects.RetirementKeptIff`).
- Hiding is refused while a subject is in use or ahead, but here too the check and the write are separate. Nobody studies a
  hidden subject exactly as long as every write happens while its check would still pass (`Races.RetiredThroughoutIff`,
  `Races.HidingCanRace`), and no hidden subject has a lesson ahead exactly as long as the same holds of bookings and
  hidings (`Races.QuietThroughoutIff`, `Races.BookingCanRace`).
- The comment on a group's correction (src/groups/groups.service.ts:96-98) says nothing a client could send blanks its
  subject. An explicit null passes the validation of an optional field and does: a group has no subject exactly when the
  last accepted correction that mentions it sends null (`GroupSubjects.StepBlanksIff`, `GroupSubjects.NoSubjectIff`,
  `GroupSubjects.EveryGroupHasASubjectIff`), and a short run gets there (`GroupSubjects.NullBlanksAGroup`).
- An address with an account is refused an invitation (src/invitations/invitations.service.ts:51-57), but the check and the
  upsert are separate, and so are the two of a new account. An open invitation to an account is avoided exactly as long as
  `Invitations.ClearThroughoutIff` says, and `Invitations.ReinvitingCanRace` reaches one.
- A failed upload is meant to leave only a row that can be found later (src/files/files.service.ts:75-83). That row
  holds the one placeholder key, so it stops every later upload until it is removed (`Uploads.BreakingOffBlocksTheNext`,
  `Uploads.EveryBreakBlocksTheNext`).
- Counted before the write, the quota is meant as a limit (src/files/files.service.ts:211-212). It is one for uploads one
  at a time (`Uploads.QuotaBound`, `Uploads.QuotaBoundIsReached`).
- A blank room address is accepted and handed out as a link (`MeetingProviders.LinkJoinableIff`).
- The migration leaves blanks blank, but trims spaces only (`Backfill.BlankIsSpaces`), and keeps two spellings of one name
  as two subjects (`Backfill.NamesApartAfterIff`).

## Model

| member | source | states |
|---|---|---|
| `Soundness.RunIsSound` | prisma/schema.prisma:351-359 | After every run of requests from an empty database: no reference dangles or leaves its school, a lesson is for exactly one student or one group, a register row on a one-to-one lesson is its own student's, every mark is on its scale, nobody studies a hidden subject, and no two subjects of a school read the same up to case |
| `Soundness.NextKeeps` | src/gradebook/gradebook.service.ts:78-161 | Every single request, accepted or refused, keeps all of that |
| `Soundness.CreateStudentKeeps` | src/students/students.service.ts:111-122 | Creating a student keeps every invariant: tutor and subject of one school, the subject on offer |
| `Soundness.UpdateStudentKeeps` | src/students/students.service.ts:73-97 | Correcting a student, whatever fields are named, keeps every invariant: same school, and no move onto a hidden subject |
| `Soundness.CreateGroupKeeps` | src/groups/groups.service.ts:76-87 | Creating a group keeps every invariant: tutor and subject of one school, the subject on offer |
| `Soundness.AddMemberKeeps` | src/groups/groups.service.ts:139-152 | A place joins a group and a student of the same school |
| `Soundness.BookLessonKeeps` | src/lessons/lessons.service.ts:183-226 | A booked lesson names exactly one of student and group, and tutor, student, group and subject of its own school |
| `Soundness.EligibleSeat` | src/lessons/lessons.service.ts:341-353 | Everybody a lesson is for is a student of its school, and on a one-to-one lesson is its own student |
| `Soundness.WriteJournalKeeps` | src/gradebook/gradebook.service.ts:78-161 | A write-up leaves register rows only for students the lesson is for, and every invariant standing |
| `Soundness.ResolvedMarked` | src/gradebook/gradebook.service.ts:252-275 | A mark filed against a lesson is about a student that lesson is for |
| `Soundness.GradeOnScale` | src/gradebook/gradebook.service.ts:375-395 | A payload that passes the scale check becomes a row on the scale of the school: 0 to 100 for percentages, 0 to the school's maximum for classic marks, no value for words, weight 1 to 20 |
| `Soundness.AddGradeForLessonKeeps` | src/gradebook/gradebook.service.ts:225-243 | A mark given in a lesson keeps student, lesson and author within one school |
| `Soundness.CorrectGradeKeeps` | src/gradebook/gradebook.service.ts:284-297 | A corrected mark stays on its scale and within its school |
| `Soundness.RenameSubjectKeeps` | src/subjects/subjects.service.ts:110-133 | Renaming never gives two subjects of a school one name up to case |
| `Soundness.HideSubjectKeeps` | src/subjects/subjects.service.ts:199-218 | Hiding leaves no student and no group on the hidden subject |
| `Soundness.RemoveStudentKeeps` | src/students/students.service.ts:106-109 | All nested cascades of a removed student leave no dangling reference |
| `Soundness.RemoveGroupKeeps` | src/groups/groups.service.ts:123-126 | All nested cascades and set-nulls of a removed group leave no dangling reference |
| `SchoolTables.Tables.CreateStudent` | src/students/students.service.ts:111-122 | In place: the one new row and a refusal that changes nothing, as the step the invariants are proved about |
| `SchoolTables.Tables.UpdateStudent` | src/students/students.service.ts:73-97 | In place: only the fields the patch names move; a balance may be set outright |
| `SchoolTables.Tables.DeleteLessons` | prisma/schema.prisma:487-494 | In place: the foreign keys of deleted lessons: register rows go, marks stay without a lesson |
| `SchoolTables.Tables.DeleteStudent` | prisma/schema.prisma:568-574 | In place: the foreign keys of a deleted student: places, register rows and marks go |
| `SchoolTables.Tables.RemoveStudent` | src/students/students.service.ts:106-109 | In place: removal with both levels of cascade, or a refusal that changes nothing |
| `SchoolTables.Tables.CreateGroup` | src/groups/groups.service.ts:76-87 | In place: the one new row, or a refusal that changes nothing |
| `SchoolTables.Tables.UpdateGroup` | src/groups/groups.service.ts:89-114 | In place: only the fields the patch names move |
| `SchoolTables.Tables.RemoveGroup` | src/groups/groups.service.ts:123-126 | In place: removal of the group, its places, its lessons and their register rows |
| `SchoolTables.Tables.AddMember` | src/groups/groups.service.ts:139-152 | In place: adding somebody twice leaves one place |
| `SchoolTables.Tables.RemoveMember` | src/groups/groups.service.ts:161-169 | In place: taking away somebody who is not there changes nothing |
| `SchoolTables.Tables.BookLesson` | src/lessons/lessons.service.ts:183-226 | In place: neither or both of student and group is refused; otherwise one scheduled lesson |
| `SchoolTables.Tables.SetLessonStatus` | src/lessons/lessons.service.ts:324-332 | In place: the status of one reachable lesson and nothing else |
| `SchoolTables.Tables.WriteOneMark` | src/gradebook/gradebook.service.ts:100-145 | In place: one turn of the loop: the old mark compared with the new, the balance settled, the row written |
| `SchoolTables.Tables.WriteEveryMark` | src/gradebook/gradebook.service.ts:100-145 | In place: the loop over the marks, one after another |
| `SchoolTables.Tables.WriteJournal` | src/gradebook/gradebook.service.ts:78-161 | In place: eligibility, the loop over the marks and then the lesson row make exactly the write-up step; an ineligible or repeated student refuses everything |
| `SchoolTables.Tables.AddGradeForStudent` | src/gradebook/gradebook.service.ts:202-214 | In place: one new mark of the caller's, or a refusal that changes nothing |
| `SchoolTables.Tables.AddGradeForLesson` | src/gradebook/gradebook.service.ts:225-243 | In place: one new mark tied to the lesson and to the resolved student |
| `SchoolTables.Tables.CorrectGrade` | src/gradebook/gradebook.service.ts:284-297 | In place: the mark's columns, its student, lesson, author and date kept |
| `SchoolTables.Tables.RemoveGrade` | src/gradebook/gradebook.service.ts:299-302 | In place: one mark the caller may write, and no other |
| `SchoolTables.Tables.CreateSubject` | src/subjects/subjects.service.ts:80-101 | In place: one new subject on offer, or the conflict that names the row in the way |
| `SchoolTables.Tables.RenameSubject` | src/subjects/subjects.service.ts:110-133 | In place: the name of one subject; its own row is never in its own way |
| `SchoolTables.Tables.HideSubject` | src/subjects/subjects.service.ts:199-218 | In place: the hidden date of an unused subject; a second hide keeps the first date |
| `SchoolTables.Tables.RestoreSubject` | src/subjects/subjects.service.ts:221-228 | In place: the hidden date cleared |
| `Answers.ServedIff` | src/students/students.service.ts:48-66 | Every request of every caller: served if and only if the rows it names are within reach, the subject it takes up is on offer or was there, its marks fit the lesson and the scale, and its name is free; and the refusal for the first thing wrong: forbidden for a colleague's student or mark, not found for whatever is not there for this caller, then the conflict or the bad payload |
| `Answers.NextIsAccepted` | src/lessons/lessons.service.ts:183-226 | After every run: the next request is accepted if and only if it comes from an account, keeps to the bounds of its payload, and is allowed; and the refusal otherwise |
| `Stored.AccountsAreStored` | src/schools/schools.service.ts:45-84 | A school opens with its scale and its admin; anybody else joins a school that is there in the role and under the name given |
| `Stored.NewStudentIsStored` | src/students/students.service.ts:111-122 | One more row: the caller's, in the caller's school, with the trimmed name, the subject given, and no lessons left where none are given |
| `Stored.EditedStudentIsStored` | src/students/students.service.ts:73-97 | The columns the patch names have its values, a null subject clears, and every other column and row is as it was |
| `Stored.RemovedStudentIsGone` | src/students/students.service.ts:106-109 | The student, their one-to-one lessons, places, register rows and marks go, and no other row goes or changes |
| `Stored.NewGroupIsStored` | src/groups/groups.service.ts:76-87 | One more row: the caller's, in the caller's school, with the trimmed name, the subject given, and the level, none if blank |
| `Stored.EditedGroupIsStored` | src/groups/groups.service.ts:89-114 | The columns the patch names have its values, and every other column and row is as it was |
| `Stored.RemovedGroupIsGone` | src/groups/groups.service.ts:123-126 | The group, its places, its lessons and their register rows go; marks given in those lessons lose the lesson; no other row goes or changes |
| `Stored.PlacesAreStored` | src/groups/groups.service.ts:139-170 | Adding leaves exactly one place more, or the one there was; removing takes that place and no other |
| `Stored.BookingIsStored` | src/lessons/lessons.service.ts:183-226 | One more row: the caller's, scheduled, with the student or group, subject, start, minutes and link given, and nothing written about it |
| `Stored.StatusIsStored` | src/lessons/lessons.service.ts:324-332 | The status asked for, of that lesson, and nothing else |
| `Stored.WriteUpIsStored` | src/gradebook/gradebook.service.ts:98-157 | Topic and homework are the payload's own where it mentions them, none if blank, and stay where it does not; the status is the one stated whatever the marks say, else what the marks imply, else the old one |
| `Stored.MarksAreStored` | src/gradebook/gradebook.service.ts:100-145 | Each mark is in the register with its own status and homework check, a check it does not mention staying as it was; no other row of the register moves |
| `Stored.WriteUpIsCharged` | src/gradebook/gradebook.service.ts:41-45 | Each balance falls by what its student's seat costs now and rises by what it cost before: a lesson for present, late and unexcused, nothing otherwise |
| `Stored.NewGradeIsStored` | src/gradebook/gradebook.service.ts:202-216 | One more mark: about that student, the caller's, made now, with the kind, value, weight and texts of the payload; no value if it is in words |
| `Stored.LessonGradeIsStored` | src/gradebook/gradebook.service.ts:225-243 | The same in a lesson, about its own student or the one named |
| `Stored.CorrectionIsStored` | src/gradebook/gradebook.service.ts:284-297 | A correction takes every column of the payload, and student, lesson, author and date stay |
| `Stored.NewSubjectIsStored` | src/subjects/subjects.service.ts:80-101 | One more subject of the caller's school, on offer, with the trimmed name |
| `Stored.NewNameIsStored` | src/subjects/subjects.service.ts:110-133 | The trimmed name on that subject, and nothing else |
| `Stored.OfferIsStored` | src/subjects/subjects.service.ts:199-228 | Hiding stamps a subject on offer with the moment and leaves one hidden before with its own date; restoring clears the date |
| `Screens.ProgressSays` | src/gradebook/gradebook.service.ts:312-352 | Who may look, and what they see: the student's lessons by status, their seats by mark, their marks counted |
| `Screens.FirstMarkShows` | src/gradebook/gradebook.service.ts:405-415 | A first mark of its kind, of any weight, is at once the student's average of that kind, rounded to hundredths |
| `Screens.BookingShows` | src/lessons/lessons.service.ts:183-226 | A booking is one more lesson to come for exactly those it is for, if it is not in the past |
| `Screens.StatusShows` | src/lessons/lessons.service.ts:324-332 | A status move puts a lesson among those to come, or takes it out, and leaves the others there |
| `Text.BlankToNull` | src/gradebook/gradebook.service.ts:439-442 | A text of nothing but blanks becomes nothing; any other loses the blanks around it and no more |
| `Ledger.WriteMarkBalances` | src/gradebook/gradebook.service.ts:100-145 | One mark moves its student's balance by exactly what the register changed, and nobody else's |
| `Ledger.WriteJournalBalances` | src/gradebook/gradebook.service.ts:91-145 | A write-up moves each balance by charged-before minus charged-after |
| `Ledger.OtherRequestsLeaveLedger` | src/lessons/lessons.service.ts:324-332 | Booking, status moves, membership, marks and subject changes touch neither a balance nor a register row |
| `Ledger.OnlyTwoRequestsMoveABalance` | src/students/students.service.ts:73-97 | Only a write-up and a hand-set balance ever move a balance |
| `Ledger.RemoveGroupRows` | src/groups/groups.service.ts:123-126 | A removed group takes away exactly the charged rows of its own lessons |
| `Ledger.RemoveStudentSparesRows` | src/students/students.service.ts:106-109 | Removing one student leaves every other student's charged rows |
| `Ledger.StepBalances` | src/gradebook/gradebook.service.ts:41-45 | Across any one request: balance, charged rows and rows lost to a group removal move together with what was credited by hand |
| `Ledger.LedgerConservation` | src/gradebook/gradebook.service.ts:100-145 | Over every run: balance = credited by hand, less charged rows present, less charged rows lost with removed groups |
| `WriteUps.WriteMarksMarks` | src/gradebook/gradebook.service.ts:100-145 | The register after the loop: each marked seat holds its mark and keeps its homework check when the mark is silent; every other seat is as it was |
| `WriteUps.WriteJournalAnyOrder` | src/gradebook/gradebook.service.ts:78-161 | Two payloads with the same marks in different orders are the same write-up, status and balances included |
| `WriteUps.WriteJournalTwice` | src/gradebook/gradebook.service.ts:78-161 | Replaying a write-up is accepted and changes nothing |
| `WriteUps.WriteUpsBalance` | src/gradebook/gradebook.service.ts:91-145 | Any sequence of write-ups keeps balance plus charged rows |
| `WriteUps.PathIndependence` | src/gradebook/gradebook.service.ts:91-145 | Any two sequences of write-ups that end in the same register give every student the same balance |
| `WriteUps.DerivedStatusAgrees` | src/gradebook/gradebook.service.ts:428-436 | The derived status agrees with the stored register if and only if the payload charges somebody or nobody outside it is charged |
| `WriteUps.DerivedStatusAgreesOneToOne` | src/gradebook/gradebook.service.ts:428-436 | On a one-to-one lesson the two never disagree |
| `WriteUps.PartialWriteUpCanDisagree` | src/gradebook/gradebook.service.ts:98-98 | A run from an empty database in which a write-up of half a group calls a lesson cancelled that somebody was charged for |
| `Cascades.RemoveStudentTakesOnlyTheirs` | src/students/students.service.ts:106-109 | What a removed student takes along, table by table; every other student's rows and marks survive whole |
| `Cascades.RemoveGroupSparesTheRest` | prisma/schema.prisma:344-359 | In every sound state a group's removal spares every one-to-one lesson with its register rows, the marks given in it whole, and every other group with its lessons and places |
| `Cascades.RemoveGroupLeavesNothing` | src/groups/groups.service.ts:123-126 | Nothing left leads to the removed group: no lesson, no place, no register row, no mark to one of its lessons |
| `Cascades.RemoveGroupKeepsRegisterIff` | src/groups/groups.service.ts:116-126 | Attendance survives a group's removal if and only if nobody was ever marked at one of its lessons |
| `Cascades.RemoveGroupSquareIff` | src/groups/groups.service.ts:123-126 | A student stays square with the register through the removal if and only if no row they were charged for goes with it |
| `Cascades.RemoveGroupCanLoseRows` | src/groups/groups.service.ts:116-126 | A run from an empty database in which a removal takes the charged row of a student and leaves the lesson paid for |
| `Undoing.RenameUndoesRename` | src/subjects/subjects.service.ts:110-133 | In every sound state a rename can be taken back: the old name is free again, and the tables are as they were |
| `Undoing.RemoveUndoesCreateStudent` | src/students/students.service.ts:106-122 | A student just created is removed without a trace: no cascade finds a row of anybody else's |
| `Undoing.RemoveUndoesCreateGroup` | src/groups/groups.service.ts:76-126 | A group just created is removed without a trace |
| `Undoing.OldMarkUndoesNewIff` | src/gradebook/gradebook.service.ts:100-145 | Writing the old status again undoes a new mark, balance included, if and only if the homework check comes back: named outright, an explicit null included, or never changed |
| `Undoing.ExcusingGivesBack` | src/gradebook/gradebook.service.ts:100-145 | A first mark leaves its row for good, and excusing it gives every balance back |
| `Tenancy.ServeElsewhere` | src/students/students.service.ts:48-64 | No accepted request changes a student, group, subject, lesson, place, register row or mark of another school |
| `Tenancy.OtherSchoolsCannotTouch` | src/groups/groups.service.ts:60-74 | Over any run of requests made by other schools, a school's rows stay exactly as they were |
| `Tenancy.ServeKeepsColleagues` | src/students/students.service.ts:48-64 | Whatever a tutor who is no admin asks for, another tutor's students (balances aside), groups, own lessons, and their places, register rows and marks stay as they were |
| `Tenancy.TutorsKeepToTheirOwn` | src/lessons/lessons.service.ts:299-313 | The same over any run of requests by other tutors |
| `Tenancy.CorrectGradeKeepsColleagues` | src/gradebook/gradebook.service.ts:284-297 | A mark a tutor gave to a student of theirs is corrected by no colleague |
| `Tenancy.RemoveGradeKeepsColleagues` | src/gradebook/gradebook.service.ts:354-365 | A mark a tutor gave to a student of theirs is removed by no colleague |
| `Subjects.UsageCountsEveryLesson` | src/subjects/subjects.service.ts:142-187 | Upcoming and past lessons together count every lesson of the subject once |
| `Subjects.CreateSubjectIff` | src/subjects/subjects.service.ts:80-101 | A name is accepted if and only if no subject of the school reads the same, and the refusal says whether the row in the way is hidden |
| `Subjects.RacingCreatesIff` | src/subjects/subjects.service.ts:64-78 | When two creations both pass their check first, the unique index stops the second if and only if the spelling is the same to the letter |
| `Subjects.RacingCreatesCanMeet` | src/subjects/subjects.service.ts:64-78 | A school just registered in which "A" and "a" both pass their check and both go in |
| `Subjects.HideSubjectIff` | src/subjects/subjects.service.ts:199-218 | Hiding succeeds if and only if nobody studies the subject and nothing in it is upcoming; afterwards nothing in it ever becomes upcoming by the clock |
| `Subjects.RetirementKeptIff` | src/lessons/lessons.service.ts:324-332 | Over every request: a hidden subject with nothing upcoming stays so if and only if the request is no accepted status move or write-up that leaves one of its own lessons to come on |
| `Subjects.MovesKeepRetirementIff` | src/gradebook/gradebook.service.ts:98-157 | A status move or a write-up keeps a retired subject free of upcoming lessons if and only if it leaves none of its lessons to come on, by the status it names or the one its marks imply |
| `Subjects.HiddenUntilRestored` | src/subjects/subjects.service.ts:221-228 | A hidden subject stays hidden until it is restored |
| `Subjects.RetirementLasts` | src/subjects/subjects.service.ts:199-218 | Over any run without a restore and without a lesson put back on, the subject stays hidden and nothing in it becomes upcoming |
| `Subjects.CancelledLessonCanReturn` | src/gradebook/gradebook.service.ts:98-157 | A run from an empty database in which a cancelled lesson of a hidden subject goes back on: by a status move, by a write-up that names the status, and by one whose marks imply it |
| `Races.CheckThenWriteIsTheRequest` | src/subjects/subjects.service.ts:244-258 | A subject check and the write that follows it are the request, when nothing comes between |
| `Races.WriteStores` | src/subjects/subjects.service.ts:80-133 | Whatever has changed since its check, a write stores what the request asks for, and comes to nothing only where its row, or the one its lesson is for, has gone, or another subject has the very name |
| `Races.WriteKeepsRetiredIff` | src/subjects/subjects.service.ts:199-258 | One write, checked earlier: nobody is left on a hidden subject if and only if, now, the subject taken up is on offer or the one hidden is used by nobody |
| `Races.StepKeepsRetiredIff` | src/subjects/subjects.service.ts:199-258 | One step of an interleaving, of any kind, keeps everybody off hidden subjects if and only if it is no write whose check would fail now |
| `Races.RetiredThroughoutIff` | src/subjects/subjects.service.ts:199-258 | Over every interleaving of checks, writes and whole requests: nobody studies a hidden subject at any moment if and only if every write happens while its check would still pass |
| `Races.HidingCanRace` | src/subjects/subjects.service.ts:199-218 | An interleaving from a reachable state that leaves a student on a hidden subject |
| `Races.WriteKeepsQuietIff` | src/lessons/lessons.service.ts:183-226 | One write: no hidden subject gets a lesson ahead if and only if a booking lands in a subject on offer now, or in the past, and a hiding lands while nothing in the subject is ahead |
| `Races.StepKeepsQuietIff` | src/lessons/lessons.service.ts:183-332 | The same for every step, with the status moves and write-ups that put a lesson ahead back on |
| `Races.QuietThroughoutIff` | src/lessons/lessons.service.ts:183-332 | Over every interleaving: no hidden subject has a lesson ahead at any moment if and only if every step meets that condition at its own moment |
| `Races.BookingCanRace` | src/lessons/lessons.service.ts:183-226 | An interleaving from a reachable state that leaves a hidden subject with a lesson ahead |
| `Races.NamingKeepsTidyIff` | src/subjects/subjects.service.ts:64-133 | One write of a name, new or changed: the names of a school stay apart if and only if nobody reads like it now or the index refuses it |
| `Races.NamesApartThroughoutIff` | src/subjects/subjects.service.ts:64-133 | Over every interleaving: no two subjects of a school read the same at any moment if and only if every name is written while nobody reads like it, or is refused by the index |
| `Races.RacingNamesIff` | src/subjects/subjects.service.ts:64-133 | Two creations, two renames or one of each, both checked first: two subjects read the same afterwards if and only if the names are alike up to case, not to the letter, and given to different subjects of one school |
| `Races.RenameCanRace` | src/subjects/subjects.service.ts:110-133 | A school with one subject in which a creation and a rename leave two that read the same |
| `Races.ApartStaysRetired` | src/subjects/subjects.service.ts:199-218 | Something a caller can arrange: while no subject is being hidden by one request and taken up by another, every checked request may still rely on its check, and nobody studies a hidden subject |
| `GroupSubjects.StepBlanksIff` | src/groups/groups.service.ts:89-114 | Over every request: a group is without a subject afterwards if and only if an accepted correction sent an explicit null, or it had none and no accepted correction gave it one |
| `GroupSubjects.NoSubjectIff` | src/groups/groups.service.ts:94-107 | Over every run: a group has no subject if and only if the last accepted correction that mentions its subject sent null |
| `GroupSubjects.EveryGroupHasASubjectIff` | src/groups/groups.service.ts:94-107 | Every group has a subject if and only if no group still there was left blanked |
| `GroupSubjects.NullBlanksAGroup` | src/groups/groups.service.ts:94-107 | A run from an empty database in which one correction leaves a group without its subject |
| `Subjects.BookedOnOffer` | src/subjects/subjects.service.ts:244-258 | A lesson is booked in a subject of the caller's school that is on offer at that moment |
| `Subjects.StepKeepsBookings` | src/subjects/subjects.service.ts:110-133 | One request never changes what an existing lesson is about, for whom, when or at which link; a lesson that appears is in a subject on offer |
| `Subjects.RunKeepsBookings` | src/subjects/subjects.service.ts:199-228 | Through any run of hides, renames and restores, a lesson still there is about what it was booked as |
| `Progress.Round2IsNear` | src/gradebook/progress.ts:88-90 | Rounding gives whole hundredths, and moves a number by at most half of one, halves going up |
| `Progress.AverageOf` | src/gradebook/progress.ts:100-114 | The loop over three accumulators gives the weighted mean of the marks that count, rounded, or nothing |
| `Progress.AverageIs` | src/gradebook/progress.ts:88-126 | The rounded sum of value times weight over the sum of weights, of the marks that have a value and weigh something, with their count |
| `Progress.AverageNoneIff` | src/gradebook/progress.ts:100-114 | There is no average if and only if no mark takes part |
| `Progress.AverageStaysOnScale` | src/gradebook/progress.ts:100-114 | An average lies between 0 and any bound on its marks, within half a hundredth of the exact weighted mean |
| `Progress.AverageAnyOrder` | src/gradebook/progress.ts:100-114 | The order of the marks does not show in the average |
| `Progress.AttendanceAddsUp` | src/gradebook/progress.ts:128-150 | Four counts that add up to the rows, and a rate that is missing exactly when there are none and is otherwise the rounded share of those who came |
| `Progress.LessonsAddUp` | src/gradebook/progress.ts:152-170 | Completed, cancelled and scheduled partition the lessons |
| `Progress.AveragesStayOnScale` | src/gradebook/gradebook.service.ts:375-415 | In every reachable state an average of a kind is missing if and only if no mark of that kind exists, and otherwise counts each such mark once, is on the school's scale and within half a hundredth of the exact weighted mean |
| `Progress.ProgressIsFaithful` | src/gradebook/gradebook.service.ts:312-344 | The progress screen partitions the student's own rows, agrees with what the ledger charges, and shows the rate of those who came and the accurate averages of the student's marks |
| `Reports.WindowOf` | src/reports/reports.service.ts:201-218 | The window ends where asked or now, and begins where asked or 30 days before; it is refused if and only if what was asked for is empty or longer than 400 days |
| `Reports.SchoolIsSumOfMembers` | src/reports/reports.service.ts:105-185 | Every figure of the school's report is the sum of that figure over its members' reports |
| `Reports.WindowsAddUp` | src/reports/reports.service.ts:105-185 | A report over [a, c) is the sum of those over [a, b) and [b, c) |
| `Reports.TaughtIsUnion` | src/reports/reports.service.ts:244-264 | Students taught are a union over windows and over members, so a student counts once |
| `Reports.RoomIsNamedOrMember` | src/reports/reports.service.ts:244-264 | Named students and group members between them are exactly the people in the rooms |
| `Reports.CountStudentsTaught` | src/reports/reports.service.ts:244-264 | The loops over two sets give the number of distinct students in the lessons, whatever the lessons' status |
| `Reports.Tally` | src/reports/reports.service.ts:293-303 | One pass over distinct lessons gives, for every key met, its count and minutes |
| `Reports.BreakdownOf` | src/reports/reports.service.ts:293-311 | Distinct keys, exact counts and minutes, busiest first, at most 20, and no dropped row outranks a kept one |
| `Reports.BreakdownMinutes` | src/reports/reports.service.ts:293-311 | Row minutes never exceed the minutes of the lessons and equal them when no key is cut |
| `Reports.NothingCutIff` | src/reports/reports.service.ts:293-311 | No key is cut if and only if there are at most 20 of them |
| `Reports.FiguresAreDeclared` | src/reports/reports.service.ts:105-185 | Every figure the endpoint reads off its query results is the declared sum over the selected rows |
| `Reports.Summary` | src/reports/reports.service.ts:105-185 | The whole report: declared figures, the attendance rate and the averages of the rows selected, students counted once, breakdowns by subject and, school-wide, by tutor; a bad window or a colleague's figures are refused |
| `Reports.ReportSays` | src/reports/reports.service.ts:105-185 | Every report in plain counts: the lessons that start in the window by status, the unwritten ones, minutes taught, seats by mark, marks by kind, distinct students, and rows by subject and tutor with their names, busiest first |
| `Reports.SummaryIsMeasured` | src/reports/reports.service.ts:146-170 | The rate is the share of marked seats whose student came; each average is missing if and only if no such mark was selected, and otherwise on scale and within half a hundredth of the exact weighted mean |
| `Reports.MembersReportsAgree` | src/reports/reports.service.ts:105-185 | Given the reports of a school and of each of its members, every figure of the first is the sum over the others |
| `Reports.WindowReportsAgree` | src/reports/reports.service.ts:105-185 | Given the reports of two adjoining windows and of both together, every figure adds up, and students taught lie between the larger and the sum |
| `Reports.BreakdownsAgree` | src/reports/reports.service.ts:171-184 | The rows by subject, and by tutor, account for all minutes taught whenever no more than 20 are due, and never for more |
| `Debtors.BookedSplits` | src/reports/debtors.service.ts:128-169 | Own bookings and group bookings are together all of a student's upcoming lessons, none twice |
| `Debtors.BookedPerStudent` | src/reports/debtors.service.ts:128-169 | For every wanted student, the number of upcoming scheduled lessons naming them or a group they are in |
| `Debtors.LastTaughtPerStudent` | src/reports/debtors.service.ts:172-191 | For every wanted student, the latest start over their register rows, absences included, or nothing |
| `Debtors.ByUrgencyIsPreorder` | src/reports/debtors.service.ts:201-207 | Owed, then booked, then name is a consistent order |
| `Debtors.List` | src/reports/debtors.service.ts:50-97 | Exactly once each, the students in scope who owe or have a booking, with their figures, most urgent first; a colleague's list is refused |
| `Debtors.ListSays` | src/reports/debtors.service.ts:50-97 | Every list in plain terms: exactly the wanted students who owe or have a lesson to come, a tutor's own only, each with what they owe, what is to come and when they last sat in a lesson, whoever owes most first, then most booked, then by name |
| `Debtors.OwedIsTheLedger` | src/reports/debtors.service.ts:74-97 | In every reachable state what a listed student owes is what the register charged beyond everything credited |
| `Invitations.NormaliseTwice` | src/invitations/invitations.service.ts:49-57 | Normalising an address twice is normalising it once |
| `Invitations.TakeKeeps` | src/invitations/invitations.service.ts:164-187 | Every database step of every request keeps the unique keys, and an account behind every accepted invitation |
| `Invitations.RunIsSafe` | prisma/schema.prisma:721-735 | Under every interleaving of invite, accept, revoke and account creation: one account per email, unique tokens, one invitation per school and email, an account behind every accepted invitation |
| `Invitations.OneAccountHoweverTyped` | src/invitations/invitations.service.ts:49-76 | Case and surrounding blanks never make a second account |
| `Invitations.NormaliseIs` | src/invitations/invitations.service.ts:49-57 | Two addresses are one if and only if they read the same in lower case without the blanks around them |
| `Invitations.LinkOpensIff` | src/invitations/invitations.service.ts:202-222 | A link opens an accept if and only if its row is there with that very token, unaccepted, and not past its term; every other link is not found and changes nothing |
| `Invitations.AcceptedInTime` | src/invitations/invitations.service.ts:164-187 | Over every interleaving: an account made by an accept goes back to a step of the same request that found the invitation open, with its token, and in time |
| `Invitations.CheckPassesIff` | src/invitations/invitations.service.ts:49-57 | An invitation or a new account passes its check if and only if nobody has the address, however it was typed |
| `Invitations.InvitationIsStored` | src/invitations/invitations.service.ts:63-76 | The written invitation is open, with the new token and term, for a tutor if it is the first; no other row moves; refused if and only if another row holds the token |
| `Invitations.OtherStepsAnswer` | src/invitations/invitations.service.ts:134-139 | A revoked invitation goes and it alone; a new account is added and it alone; an abandoned request leaves nothing |
| `Invitations.AcceptIff` | src/invitations/invitations.service.ts:164-187 | The accept transaction commits if and only if its row is there, unclaimed, and nobody has the email; it then adds one account with the row's email, school and role and claims that row alone; a failed one changes nothing |
| `Invitations.OneAccountPerEmail` | src/invitations/invitations.service.ts:164-187 | In a whole run an email is given an account at most once, and its accounts are exactly those it was given |
| `Invitations.StepKeepsClearIff` | src/invitations/invitations.service.ts:49-76 | One database step: no open invitation is addressed to somebody with an account if and only if an invitation is written while its address has none, and an account is made while no other open invitation is addressed to it |
| `Invitations.ClearThroughoutIff` | src/invitations/invitations.service.ts:49-76 | The same over every interleaving from the empty tables, at every moment of it |
| `Invitations.ReinvitingCanRace` | src/invitations/invitations.service.ts:63-76 | A run in which an invitation is accepted between the check and the write of the next, which opens it again |
| `Invitations.Tables.UpsertInvitation` | src/invitations/invitations.service.ts:63-76 | In place: the row of that school and email is replaced, acceptance included, or made; a taken token changes nothing |
| `Invitations.Tables.RevokeInvitation` | src/invitations/invitations.service.ts:134-139 | In place: one invitation of the caller's school, or a refusal that changes nothing |
| `Invitations.Tables.CreateAccount` | src/schools/schools.service.ts:133-150 | In place: one account, or a refusal when the email is taken |
| `Invitations.Tables.AcceptTransaction` | src/invitations/invitations.service.ts:164-187 | In place: the conditional claim and the account, the claim undone when the account fails |
| `Uploads.KeyForIsInjective` | src/files/storage.service.ts:35-37 | Two files never share a storage key |
| `Uploads.RunIsSafe` | src/files/files.service.ts:84-115 | Every interleaving of uploads and removals keeps rows, store and requests in step |
| `Uploads.BeginsIff` | src/files/files.service.ts:214-255 | An upload begins if and only if the file is not empty, no larger than allowed, of an allowed type and looks like it, and fits what is left to the school |
| `Uploads.StoredAddsUp` | src/files/files.service.ts:214-229 | The bytes counted against a quota grow and shrink by the size of each row of the school, waiting ones included |
| `Uploads.FinalisedAreReadable` | src/files/files.service.ts:93-114 | Over every interleaving, interrupted uploads and failed deletions included: a row with an upload date has its own key and its bytes at their recorded length, and no two rows share a key |
| `Uploads.QuotaBound` | src/files/files.service.ts:214-229 | With at most k uploads of a school between check and row, its rows never hold more than the quota plus k - 1 files; with one at a time the quota is exact |
| `Uploads.QuotaBoundIsReached` | src/files/files.service.ts:84-104 | For every limit and every k, some run with at most k in flight takes a school to exactly the quota plus k - 1 files |
| `Uploads.BreakingOffBlocksTheNext` | src/files/files.service.ts:84-115 | At any moment of any interleaving: an upload that has its row and breaks off, by a failed save or by being lost before or after it, leaves the row stuck if and only if it is still there and nobody is removing it, and until a stuck row is removed no upload of any school gets a row |
| `Uploads.EveryBreakBlocksTheNext` | src/files/files.service.ts:84-109 | Begun while nothing waits, an upload that breaks off in any of these ways leaves such a row where there was none |
| `Uploads.SchoolForIs` | src/files/files.service.ts:84-90 | A file is put with a student or lesson if and only if the caller reaches it, and counts towards the caller's school |
| `Uploads.MayRemoveIff` | src/files/files.service.ts:189-200 | A file is there for a caller if and only if it is of their school and its student or lesson is within reach, or its shelf theirs or theirs to oversee; it is theirs to remove if and only if they also uploaded it or are an admin, and forbidden otherwise |
| `Uploads.RemovalIsForOwners` | src/files/files.service.ts:189-200 | A tutor removes only what they uploaded themselves, and only while its student or lesson is still theirs |
| `Uploads.BrokenUploadBlocksTheNext` | src/files/files.service.ts:93-104 | While an interrupted upload's row keeps the placeholder key, no further row is created for any school |
| `Uploads.Shelf.Upload` | src/files/files.service.ts:84-168 | In place: refused where the student or lesson is out of reach; otherwise its four steps, and it succeeds if and only if the file is acceptable, fits the quota, no row is waiting and the bytes are written |
| `Uploads.Shelf.Keep` | src/files/files.service.ts:93-114 | In place: the row, the bytes, the row finalised; broken off, the row under the placeholder |
| `Uploads.Shelf.Remove` | src/files/files.service.ts:189-200 | In place: refused to whoever does not see the file, or neither uploaded it nor is an admin; otherwise the row, then the bytes, which may be left behind |
| `MeetingAccounts.RowHoldsLatestIff` | src/meetings/meeting-accounts.service.ts:264-320 | After every run a stored row holds the provider's latest refresh token if and only if its seat is not stranded by a revocation, a second connection whose answer is lost, or a failed write after a grant or a rotation |
| `MeetingAccounts.LatestUnlessRevoked` | src/meetings/meeting-accounts.service.ts:264-326 | With no connection lost and the database up, every row holds the latest token unless the person revoked it, even when exchanges fail after the provider rotated |
| `MeetingAccounts.LostAnswerStrands` | src/meetings/meeting-accounts.service.ts:171-206 | A second connection whose answer is lost leaves an outdated token stored |
| `MeetingAccounts.NextLessonGetsItsRoom` | src/meetings/meeting-accounts.service.ts:304-319 | For rotating and non-rotating providers alike, a readable row that is not stranded books a room as soon as the provider answers |
| `MeetingAccounts.BookingFailsIff` | src/meetings/meeting-accounts.service.ts:226-253 | A booking fails if and only if a refresh went through and could not be written back; every failure of the provider gives no room instead |
| `MeetingAccounts.NoRoomTokenNoRow` | src/meetings/meeting-accounts.service.ts:279-302 | A connection beyond saving is deleted |
| `MeetingAccounts.AccessTokensAreLive` | src/meetings/meeting-accounts.service.ts:267-277 | The token a room is made with has more than a minute to live or was issued for this lesson |
| `MeetingAccounts.CachedTokenIsUsed` | src/meetings/meeting-accounts.service.ts:264-300 | A cached token that opens under the key in use and has more than a minute to live is handed out as it is, and nobody is asked; any other token handed out is issued for this lesson |
| `MeetingAccounts.RefreshIsStored` | src/meetings/meeting-accounts.service.ts:264-318 | A refresh writes back the grant now in force, the new token with its term and the label there was, on that row alone |
| `MeetingAccounts.RoomIs` | src/meetings/meeting-accounts.service.ts:226-262 | A room is made only over a stored connection to a provider that makes them and only with a token; the answer is that room, nothing, or the one error |
| `MeetingAccounts.ConnectsIff` | src/meetings/meeting-accounts.service.ts:142-205 | A connection is made if and only if its state holds, the deployment is ready, a lasting grant is given and the database takes the row; otherwise no row moves, with the refusal for each case |
| `MeetingAccounts.ConnectionIsStored` | src/meetings/meeting-accounts.service.ts:142-205 | The row made holds the grant in force under the key in use, a token with its term, and the label given |
| `MeetingAccounts.NoLinkIff` | src/lessons/lessons.service.ts:245-265 | Whatever the settings column holds, a lesson goes without a link if and only if no meeting is chosen, or a reused room has no address and none could be made; the link is the room made at the provider, else the generated one, else the address kept |
| `MeetingAccounts.Accounts.CompleteConnection` | src/meetings/meeting-accounts.service.ts:142-206 | In place: one row per user and provider, account label included, replaced on a second connection; every refusal and every failed write leaves the rows alone |
| `MeetingAccounts.Accounts.DisconnectAccount` | src/meetings/meeting-accounts.service.ts:208-216 | In place: the row goes; not connected is an error |
| `MeetingAccounts.Accounts.TokenFor` | src/meetings/meeting-accounts.service.ts:264-320 | In place: cached token, refresh and write-back, or the row dropped |
| `MeetingProviders.SuffixIsUnder` | src/meetings/meeting-providers.ts:146-151 | For any two names, equality or a dotted suffix is exactly having its labels at the end |
| `MeetingProviders.HostMatchesByLabel` | src/meetings/meeting-providers.ts:146-151 | A hostname is accepted if and only if its lower-cased labels end with those of an allowed host |
| `MeetingProviders.LookalikeRefused` | src/meetings/meeting-providers.ts:144-151 | A name that only ends with the right letters is refused |
| `MeetingProviders.RoomAcceptedIff` | src/meetings/meeting-providers.ts:93-140 | The settings take no room where rooms are generated, and otherwise none, a blank one, or an address of at most 500 characters over https, without credentials, on zoom.us or meet.google.com or below |
| `MeetingProviders.LinkIs` | src/meetings/meeting-providers.ts:160-186 | The link is the tutor's room if it is still accepted, or a generated room under its own random name, two names giving two rooms |
| `MeetingProviders.LinkJoinableIff` | src/meetings/meeting-providers.ts:160-185 | A reused room handed out as a link is an https address on an allowed host if and only if it is not blank |
| `MeetingProviders.JoinableIsHandedOut` | src/meetings/meeting-providers.ts:93-142 | Every joinable room is accepted and handed out as it is |
| `MeetingProviders.BlankRoomIsHandedOut` | src/meetings/meeting-providers.ts:114-114 | A blank room passes the check and becomes a link |
| `UserConfig.ParseIsValid` | src/users/user-config.ts:133-136 | Whatever the column holds, reading it gives a complete, valid config |
| `UserConfig.PatchIsValid` | src/users/user-config.ts:121-123 | An accepted patch holds only valid values |
| `UserConfig.EncodeReadsBack` | src/users/user-config.ts:97-108 | A valid config written down reads back as itself |
| `UserConfig.WriteAcceptedIff` | src/users/user-config.ts:110-136 | A write is accepted if and only if it is an object and every setting it says something of can be read |
| `UserConfig.WriteReadsBack` | src/users/user-config.ts:110-156 | Key by key: each setting the request says something of reads back as what it said, every other one as what was read before, and the column holds them under the same keys |
| `UserConfig.ColumnReads` | src/users/user-config.ts:91-136 | Key by key, what any column reads as: its own values, or off, thirty minutes, on and no meeting |
| `UserConfig.ReadAfterWrite` | src/users/users.service.ts:29-49 | After an accepted write each field named has the value named, and each other field the value it was read as before |
| `UserConfig.TwoPatchesAreTheirUnion` | src/users/user-config.ts:147-156 | Merging two patches in turn is merging their union, the later winning |
| `UserConfig.RunOfWritesIsOneMerge` | src/users/user-config.ts:147-156 | Any run of writes, refused ones included, reads as the accepted ones laid over the first column as one patch |
| `UserConfig.BadMeetingCostsOnlyTheMeeting` | src/users/user-config.ts:91-108 | A stored meeting that is refused costs the meeting and nothing else |
| `UserConfig.BadFieldCostsEverything` | src/users/user-config.ts:133-136 | Any other refused field costs every setting |
| `UserConfig.UnknownFieldsAreDropped` | src/users/user-config.ts:6-13 | A setting the server does not know changes nothing |
| `UserConfig.UndefinedIsNotMentioned` | src/users/user-config.ts:138-156 | A field a patch sets to undefined is a field it does not mention |
| `Backfill.MigrationKeepsMeaning` | prisma/migrations/20260824230000_subjects/migration.sql:48-71 | Whenever the migration goes through, every student, group and lesson says through its key exactly what it said as a trimmed string, or nothing if blank, through a subject of its own school |
| `Backfill.OneSubjectPerName` | prisma/migrations/20260824230000_subjects/migration.sql:48-61 | One subject row per school and name that some row mentions, and none for any other |
| `Backfill.MigratesIff` | prisma/migrations/20260824230000_subjects/migration.sql:48-61 | Row by row, the insertion is refused if and only if two collected subjects are given one id, and what it leaves does not depend on the order of the rows |
| `Backfill.NamesApartAfterIff` | prisma/migrations/20260824230000_subjects/migration.sql:48-61 | No two subjects of a school are equal up to case afterwards if and only if no school had mentioned one name in two cases |
| `Backfill.TwoSpellingsAreKept` | prisma/migrations/20260824230000_subjects/migration.sql:48-61 | A school that typed one name in two cases keeps both |
| `Backfill.CollisionFreeDigestMigrates` | prisma/migrations/20260824230000_subjects/migration.sql:44-61 | A digest without collisions always lets it through |
| `Backfill.BlankIsSpaces` | prisma/migrations/20260824230000_subjects/migration.sql:65-71 | A subject counts as blank if and only if it is nothing but spaces, and otherwise loses the spaces around it alone |
| `Backfill.LoneTabBecomesASubject` | prisma/migrations/20260824230000_subjects/migration.sql:54-61 | A lone tab, blank everywhere else in the application, becomes a subject |
| `Backfill.Database.Deploy` | prisma/migrations/20260824230000_subjects/migration.sql:48-71 | In place: the insertion row by row and the three updates, all or nothing: a refused insertion leaves no subject row and every key column as it was |
| `Backfill.Database.InsertAll` | prisma/migrations/20260824230000_subjects/migration.sql:48-61 | In place: the loop inserts every row under its id, or leaves nothing where an id is taken |

## Left out

- SchoolTables.Tables: each service call on the books is one atomic step. Two write-ups of one lesson at once are not
  modelled; requests that check the subject list and write later are (`Races`).
- Races.ApartStaysRetired: a sufficient condition only; the exact one is `Races.RetiredThroughoutIff`.
- SchoolTables.Tables.WriteJournal: 32-bit overflow of a balance is not modelled; numbers are unbounded.
- SchoolTables.Tables.BookLesson: the link a lesson gets is an input, which `MeetingAccounts.MeetingFor` computes. An
  explicit null for the student or the group is refused or fails in the code, and has no counterpart here.
- SchoolTables.Tables.AddGradeForLesson: an explicit null for the student is refused in the code, and has no counterpart.
- Books: an explicit null that passes validation and then makes the request fail (a balance, a group's level) has no
  counterpart; it changes nothing.
- SchoolTables.Tables.DeleteLessons: notes and files that go with a lesson or a student are not columns of these tables;
  a file row that goes is the step `CascadeRow` of `Uploads`.
- Text.BlankToNull: trimming and lower case cover ASCII; the wider Unicode classes are left out.
- Progress.AverageOf: marks and averages are real numbers; binary rounding below the second decimal is left out.
- Debtors.List: names are compared through a rank given as a parameter, for the platform's collation.
- Invitations.RunIsSafe: password hashing, sessions, mail and the slug of a school are left out.
- Invitations.Tables.CreateAccount: an account is made in one step once the email is free; the check before it is a step
  of its own in the interleavings.
- Uploads.Shelf.Upload: the inspection of types and first bytes is a parameter. File names and content types are left out.
- Uploads.FinalisedAreReadable: the store is a map; S3 and the local disk are left out.
- MeetingAccounts.RowHoldsLatestIff: bookings of one account run one at a time. Encryption is ideal: a sealed token
  opens under its own key only. Lifetimes are whole seconds, and the provider keeps to the hour the code assumes when
  it names none.
- MeetingAccounts.Accounts.CompleteConnection: how the state is signed is left out; whether it holds is a parameter.
- MeetingProviders.LinkJoinableIff: URL parsing is a parameter that is assumed to refuse blanks.
- Backfill.Database.Deploy: indexes, foreign keys and the dropped columns themselves are left out; creation dates are not
  modelled.
- Ids come from one counter and are never reused, in place of generated ids that collide with negligible chance.
- Controllers, guards, request decorators and environment checks: framework wiring. Their numeric bounds are part of
  `Books.ValidRequest`.
- Notifications, notes, support requests, add-ons, file signatures and tutor listings: they would add easy members only.

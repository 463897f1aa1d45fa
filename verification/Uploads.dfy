/** Storing and removing files: a row, then bytes, then the row finalised, with anything in between. */
module Uploads {
  import opened Foundations
  import Answers
  import Books

  /** A generated id: it never contains the separator used in storage keys. */
  type Cuid = s: string | '/' !in s witness ""

  const PENDING := "pending"

  /** What a file belongs to: a student, a lesson, or the shelf of whoever uploaded it. */
  datatype Attachment = OfStudent(student: Id) | OfLesson(lesson: Id) | Library

  datatype Owner = Owner(uploadedBy: Id, attached: Attachment)

  datatype Row = Row(storageKey: string, size: nat, school: Cuid, owner: Owner, uploadedAt: Option<Time>)

  /** `spent` remembers every id ever handed out: ids are not reused. */
  datatype Db = Db(rows: map<Cuid, Row>, store: map<string, nat>, spent: set<Cuid>)

  /** What a deployment allows: bytes per file, and bytes per school. */
  datatype Limits = Limits(maxBytes: nat, maxSchoolBytes: nat)

  // ----- Keys -----

  function KeyFor(school: Cuid, id: Cuid): string {
    school + "/" + id
  }

  lemma {:induction false} KeyForIsInjective(a: Cuid, i: Cuid, b: Cuid, j: Cuid)
    requires KeyFor(a, i) == KeyFor(b, j)
    ensures a == b && i == j && KeyFor(a, i) == a + "/" + i
  {
    FirstSeparator(a, i, b, j);
    FirstSeparator(b, j, a, i);
    var k := KeyFor(a, i);
    assert a == k[..|a|] && b == k[..|b|];
    assert i == k[|a| + 1..] && j == k[|b| + 1..];
  }

  lemma FirstSeparator(a: Cuid, i: Cuid, b: Cuid, j: Cuid)
    requires KeyFor(a, i) == KeyFor(b, j)
    ensures |b| <= |a|
  {
    var k := KeyFor(a, i);
    assert b == k[..|b|];
    assert forall n :: 0 <= n < |b| ==> k[n] == b[n] && b[n] in b;
    assert k[|a|] == '/';
  }

  lemma PendingIsNoKey(school: Cuid, id: Cuid)
    ensures KeyFor(school, id) != PENDING
  {
    assert KeyFor(school, id)[|school|] == '/';
    assert '/' !in PENDING;
  }

  // ----- Checks before a row is made -----

  function Acceptable(limits: Limits, size: nat, typeAllowed: bool, looksRight: bool): Result<()> {
    var _ :- Need(size != 0, BadRequest);
    var _ :- Need(size <= limits.maxBytes, TooLarge);
    var _ :- Need(typeAllowed, UnsupportedType);
    Need(looksRight, UnsupportedType)
  }

  function SizeAt(rows: map<Cuid, Row>): Cuid -> int {
    (id: Cuid) => if id in rows then rows[id].size else 0
  }

  function RowsOf(rows: map<Cuid, Row>, school: Cuid): set<Cuid> {
    set id | id in rows && rows[id].school == school
  }

  /** The bytes on a school's rows, finalised or not. */
  ghost function Stored(rows: map<Cuid, Row>, school: Cuid): int {
    Sum(RowsOf(rows, school), SizeAt(rows))
  }

  ghost predicate WithinQuota(limits: Limits, rows: map<Cuid, Row>, school: Cuid, incoming: nat) {
    Stored(rows, school) + incoming <= limits.maxSchoolBytes
  }

  /** The bytes of a school are nothing to start with, and grow and shrink by the size of each of its rows, waiting or not. */
  lemma StoredAddsUp(rows: map<Cuid, Row>, school: Cuid, id: Cuid, row: Row)
    requires id !in rows
    ensures Stored(map[], school) == 0
    ensures Stored(rows[id := row], school) == Stored(rows, school) + if row.school == school then row.size else 0
    ensures rows[id := row] - {id} == rows
  {
    var more := rows[id := row];
    var before, after := RowsOf(rows, school), RowsOf(more, school);
    assert id !in before;
    SumSame(before, SizeAt(rows), SizeAt(more));
    if row.school == school {
      assert after == before + {id} && after - {id} == before;
      SumPick(after, SizeAt(more), id);
    } else {
      assert after == before;
    }
    assert RowsOf(map[], school) == {};
  }

  // ----- The steps -----

  /** A request between two of its steps. The three uploads differ in who may make them and what they are attached to,
      and share these steps. */
  datatype Stage =
    | Checked(school: Cuid, size: nat, owner: Owner)
    | Created(school: Cuid, size: nat, id: Cuid)
    | Saved(school: Cuid, size: nat, id: Cuid)
    | Found(id: Cuid, key: string)
    | Deleted(id: Cuid, key: string)

  datatype World = World(db: Db, requests: map<nat, Stage>)

  const EMPTY := World(Db(map[], map[], {}), map[])

  datatype Step =
    | Begin(p: nat, school: Cuid, size: nat, owner: Owner, typeAllowed: bool, looksRight: bool)
    | CreateRow(p: nat, id: Cuid)
    | SaveBytes(p: nat)
    | SaveFails(p: nat, written: Option<nat>)
    | Finalise(p: nat, now: Time)
    | FindRow(p: nat, id: Cuid)
    | DeleteRow(p: nat)
    | RemoveBytes(p: nat)
    | CascadeRow(id: Cuid)
    | Abandon(p: nat)

  predicate KeyInUse(rows: map<Cuid, Row>, key: string) {
    exists id <- rows :: rows[id].storageKey == key
  }

  function Drop(w: World, p: nat): World {
    w.(requests := w.requests - {p})
  }

  function At(w: World, p: nat, stage: Stage): World {
    w.(requests := w.requests[p := stage])
  }

  /** One step of one request; a step that does not apply, or fails, changes no table. */
  ghost function Take(limits: Limits, w: World, step: Step): World {
    var db := w.db;
    match step
    case Begin(p, school, size, owner, typeAllowed, looksRight) =>
      if && p !in w.requests
         && Acceptable(limits, size, typeAllowed, looksRight).Ok? && WithinQuota(limits, db.rows, school, size)
      then At(w, p, Checked(school, size, owner)) else w
    case CreateRow(p, id) =>
      if p in w.requests && w.requests[p].Checked? && id !in db.spent then
        var q := w.requests[p];
        // The placeholder key is unique too: one row at a time may be waiting for its bytes.
        if KeyInUse(db.rows, PENDING) then Drop(w, p)
        else At(w.(db := db.(rows := db.rows[id := Row(PENDING, q.size, q.school, q.owner, None)], spent := db.spent + {id})),
                p, Created(q.school, q.size, id))
      else w
    case SaveBytes(p) =>
      if p in w.requests && w.requests[p].Created? then
        var q := w.requests[p];
        At(w.(db := db.(store := db.store[KeyFor(q.school, q.id) := q.size])), p, Saved(q.school, q.size, q.id))
      else w
    case SaveFails(p, written) =>
      if p in w.requests && w.requests[p].Created? then
        var q := w.requests[p];
        var left := if written.Some? then db.store[KeyFor(q.school, q.id) := written.value] else db.store;
        Drop(w.(db := db.(store := left)), p)
      else w
    case Finalise(p, now) =>
      if p in w.requests && w.requests[p].Saved? then
        var q := w.requests[p];
        if q.id in db.rows && !KeyInUse(db.rows - {q.id}, KeyFor(q.school, q.id)) then
          var row := db.rows[q.id].(storageKey := KeyFor(q.school, q.id), uploadedAt := Some(now));
          Drop(w.(db := db.(rows := db.rows[q.id := row])), p)
        else Drop(w, p)
      else w
    case FindRow(p, id) =>
      if p !in w.requests && id in db.rows then At(w, p, Found(id, db.rows[id].storageKey)) else w
    case DeleteRow(p) =>
      if p in w.requests && w.requests[p].Found? then
        var q := w.requests[p];
        if q.id in db.rows then At(w.(db := db.(rows := db.rows - {q.id})), p, Deleted(q.id, q.key)) else Drop(w, p)
      else w
    case RemoveBytes(p) =>
      if p in w.requests && w.requests[p].Deleted?
      then Drop(w.(db := db.(store := db.store - {w.requests[p].key})), p) else w
    case CascadeRow(id) => w.(db := db.(rows := db.rows - {id}))
    case Abandon(p) => Drop(w, p)
  }

  ghost function Run(limits: Limits, steps: seq<Step>): World {
    if steps == [] then EMPTY else Take(limits, Run(limits, steps[..|steps| - 1]), steps[|steps| - 1])
  }

  /** An upload begins if and only if the file has something in it, is no larger than one may be, is of an allowed type and
      looks like it, and fits what is left to the school. */
  lemma BeginsIff(
    limits: Limits, w: World, p: nat, school: Cuid, size: nat, owner: Owner, typeAllowed: bool, looksRight: bool)
    requires p !in w.requests
    ensures var after := Take(limits, w, Begin(p, school, size, owner, typeAllowed, looksRight));
      if && size > 0 && size <= limits.maxBytes && typeAllowed && looksRight
         && Stored(w.db.rows, school) + size <= limits.maxSchoolBytes
      then after == World(w.db, w.requests[p := Checked(school, size, owner)])
      else after == w
  {
    hide Stored;
  }

  /** What is refused, and how: an empty file, one too large, one of a type that is not allowed or does not look like it. */
  lemma AcceptableIff(limits: Limits, size: nat, typeAllowed: bool, looksRight: bool)
    ensures Acceptable(limits, size, typeAllowed, looksRight)
         == if size == 0 then Err(BadRequest)
            else if size > limits.maxBytes then Err(TooLarge)
            else if typeAllowed && looksRight then Ok(())
            else Err(UnsupportedType)
  {
  }

  // ----- Finalised files are readable -----

  /** A row is waiting under the placeholder, or is finalised under its own key with its bytes in the store. */
  ghost predicate RowReadable(db: Db, id: Cuid) {
    && id in db.rows && id in db.spent
    && var row := db.rows[id];
    if row.uploadedAt.None? then row.storageKey == PENDING
    else
      && row.storageKey == KeyFor(row.school, id)
      && row.storageKey in db.store && db.store[row.storageKey] == row.size
  }

  /** An upload in flight owns its id: the row, if still there, is the one it made and still waits. */
  ghost predicate UploadOwns(w: World, school: Cuid, size: nat, id: Cuid) {
    && id in w.db.spent
    && (id in w.db.rows ==>
          var row := w.db.rows[id];
          row.storageKey == PENDING && row.size == size && row.school == school && row.uploadedAt.None?)
  }

  /** The bytes a removal will delete are nobody's: the placeholder's, or those of its own row, gone for good. */
  ghost predicate StageSound(w: World, stage: Stage) {
    match stage
    case Checked(_, _, _) => true
    case Created(school, size, id) => UploadOwns(w, school, size, id)
    case Saved(school, size, id) =>
      && UploadOwns(w, school, size, id)
      && KeyFor(school, id) in w.db.store && w.db.store[KeyFor(school, id)] == size
    case Found(id, key) => id in w.db.spent && (key == PENDING || exists s: Cuid :: key == KeyFor(s, id))
    case Deleted(id, key) =>
      && id in w.db.spent && id !in w.db.rows && (key == PENDING || exists s: Cuid :: key == KeyFor(s, id))
  }

  ghost predicate Uploading(stage: Stage, id: Cuid) {
    (stage.Created? || stage.Saved?) && stage.id == id
  }

  /** Whoever holds a real key learned it from a finalised row, whose upload was over by then. */
  ghost predicate KeyHeld(stage: Stage, id: Cuid) {
    (stage.Found? || stage.Deleted?) && stage.id == id && stage.key != PENDING
  }

  ghost predicate RequestsApart(w: World) {
    && (forall p, q | p in w.requests && q in w.requests && p != q ::
          forall id: Cuid :: Uploading(w.requests[p], id) ==> !Uploading(w.requests[q], id))
    && (forall p, q | p in w.requests && q in w.requests ::
          forall id: Cuid :: Uploading(w.requests[p], id) ==> !KeyHeld(w.requests[q], id))
  }

  ghost predicate OnePending(db: Db) {
    forall i, j | i in db.rows && j in db.rows ::
      db.rows[i].storageKey == PENDING && db.rows[j].storageKey == PENDING ==> i == j
  }

  ghost predicate Safe(w: World) {
    && (forall id <- w.db.rows :: RowReadable(w.db, id))
    && (forall p <- w.requests :: StageSound(w, w.requests[p]))
    && RequestsApart(w)
    && OnePending(w.db)
  }

  /** The key belongs to `id` alone, if to anybody. */
  ghost predicate KeyOf(key: string, id: Cuid) {
    key == PENDING || exists s: Cuid :: key == KeyFor(s, id)
  }

  lemma KeyOfAnother(key: string, id: Cuid, school: Cuid, other: Cuid)
    requires KeyOf(key, id) && other != id
    ensures KeyFor(school, other) != key
  {
    PendingIsNoKey(school, other);
    if s: Cuid :| key == KeyFor(s, id) {
      if KeyFor(school, other) == key { KeyForIsInjective(school, other, s, id); }
    }
  }

  ghost predicate SameElsewhere(a: map<string, nat>, b: map<string, nat>, key: string) {
    forall k :: k != key ==> (k in a <==> k in b) && (k in a ==> a[k] == b[k])
  }

  /** Writing or deleting the bytes of a key leaves every finalised row but its own readable. */
  lemma StoreChangeKeepsRows(db: Db, store: map<string, nat>, key: string, id: Cuid)
    requires forall j <- db.rows :: RowReadable(db, j)
    requires SameElsewhere(db.store, store, key) && KeyOf(key, id)
    requires id in db.rows ==> db.rows[id].uploadedAt.None?
    ensures forall j <- db.rows :: RowReadable(db.(store := store), j)
  {
    forall j <- db.rows ensures RowReadable(db.(store := store), j) {
      assert RowReadable(db, j);
      if j != id { KeyOfAnother(key, id, db.rows[j].school, j); }
    }
  }

  lemma StoreChangeKeepsStage(w: World, store: map<string, nat>, key: string, id: Cuid, stage: Stage)
    requires StageSound(w, stage) && SameElsewhere(w.db.store, store, key) && KeyOf(key, id)
    requires stage.Saved? ==> stage.id != id
    ensures StageSound(w.(db := w.db.(store := store)), stage)
  {
    if stage.Saved? { KeyOfAnother(key, id, stage.school, stage.id); }
  }

  /** Nobody holds an id that has not been handed out. */
  lemma UnspentIsUnheld(w: World, id: Cuid)
    requires Safe(w) && id !in w.db.spent
    ensures forall r <- w.requests :: !Uploading(w.requests[r], id) && !KeyHeld(w.requests[r], id)
  {
    forall r <- w.requests ensures !Uploading(w.requests[r], id) && !KeyHeld(w.requests[r], id) {
      assert StageSound(w, w.requests[r]);
    }
  }

  lemma CreateRowKeeps(limits: Limits, w: World, p: nat, id: Cuid)
    requires Safe(w)
    ensures Safe(Take(limits, w, CreateRow(p, id)))
  {
    CreateRowTables(limits, w, p, id);
    CreateRowApart(limits, w, p, id);
    hide Take;
  }

  lemma CreateRowApart(limits: Limits, w: World, p: nat, id: Cuid)
    requires Safe(w)
    ensures var after := Take(limits, w, CreateRow(p, id)); RequestsApart(after) && OnePending(after.db)
  {
    hide RowReadable, StageSound;
    if id !in w.db.spent { UnspentIsUnheld(w, id); }
  }

  lemma CreateRowTables(limits: Limits, w: World, p: nat, id: Cuid)
    requires Safe(w)
    ensures var after := Take(limits, w, CreateRow(p, id));
      && (forall j <- after.db.rows :: RowReadable(after.db, j))
      && (forall r <- after.requests :: StageSound(after, after.requests[r]))
  {
    var after := Take(limits, w, CreateRow(p, id));
    hide RequestsApart, OnePending, KeyInUse;
    forall j <- after.db.rows ensures RowReadable(after.db, j) {
      if j != id { assert RowReadable(w.db, j); }
    }
    forall r <- after.requests ensures StageSound(after, after.requests[r]) {
      if r != p { assert StageSound(w, w.requests[r]); }
    }
  }

  lemma SaveKeeps(limits: Limits, w: World, step: Step)
    requires Safe(w) && (step.SaveBytes? || step.SaveFails?)
    ensures Safe(Take(limits, w, step))
  {
    var p, after := step.p, Take(limits, w, step);
    if p in w.requests && w.requests[p].Created? {
      SaveTables(limits, w, step);
    }
    hide RowReadable, StageSound;
  }

  lemma SaveTables(limits: Limits, w: World, step: Step)
    requires Safe(w) && (step.SaveBytes? || step.SaveFails?)
    requires step.p in w.requests && w.requests[step.p].Created?
    ensures var after := Take(limits, w, step);
      && (forall j <- after.db.rows :: RowReadable(after.db, j))
      && (forall r <- after.requests :: StageSound(after, after.requests[r]))
  {
    var p, after := step.p, Take(limits, w, step);
    hide RowReadable, OnePending;
    var q := w.requests[p];
    var key := KeyFor(q.school, q.id);
    assert KeyOf(key, q.id) && StageSound(w, q) && SameElsewhere(w.db.store, after.db.store, key);
    StoreChangeKeepsRows(w.db, after.db.store, key, q.id);
    forall r <- after.requests | r != p ensures StageSound(after, after.requests[r]) {
      assert Uploading(q, q.id) && !Uploading(w.requests[r], q.id);
      StoreChangeKeepsStage(w, after.db.store, key, q.id, w.requests[r]);
      SameDbSameStage(w.(db := after.db), after, w.requests[r]);
    }
  }

  /** Whether a stage is sound is a matter of the tables alone. */
  lemma SameDbSameStage(w: World, v: World, stage: Stage)
    requires w.db == v.db && StageSound(w, stage)
    ensures StageSound(v, stage)
  {
  }

  lemma FinaliseKeeps(limits: Limits, w: World, p: nat, now: Time)
    requires Safe(w)
    ensures Safe(Take(limits, w, Finalise(p, now)))
  {
    var after := Take(limits, w, Finalise(p, now));
    if p in w.requests && w.requests[p].Saved? {
      var q := w.requests[p];
      assert StageSound(w, q);
      PendingIsNoKey(q.school, q.id);
      forall j <- after.db.rows ensures RowReadable(after.db, j) { assert RowReadable(w.db, j); }
      forall r <- after.requests ensures StageSound(after, after.requests[r]) {
        assert StageSound(w, w.requests[r]);
        assert Uploading(q, q.id) && !Uploading(w.requests[r], q.id);
      }
    }
    hide RowReadable, StageSound;
  }

  lemma DeletionKeeps(limits: Limits, w: World, step: Step)
    requires Safe(w) && (step.DeleteRow? || step.CascadeRow?)
    ensures Safe(Take(limits, w, step))
  {
    DeletionTables(limits, w, step);
    DeletionApart(limits, w, step);
    hide Take;
  }

  lemma DeletionApart(limits: Limits, w: World, step: Step)
    requires Safe(w) && (step.DeleteRow? || step.CascadeRow?)
    ensures var after := Take(limits, w, step); RequestsApart(after) && OnePending(after.db)
  {
    var after := Take(limits, w, step);
    DeletionTakesAway(limits, w, step);
    hide RowReadable, StageSound, Take, Uploading, KeyHeld;
    assert RequestsApart(w) && OnePending(w.db);
    FewerStayApart(w, after);
  }

  /** A deletion takes rows away, and moves on the request that found one or ends it. */
  lemma DeletionTakesAway(limits: Limits, w: World, step: Step)
    requires step.DeleteRow? || step.CascadeRow?
    ensures var after := Take(limits, w, step);
      && (forall i <- after.db.rows :: i in w.db.rows && after.db.rows[i] == w.db.rows[i])
      && (forall p <- after.requests :: p in w.requests)
      && (forall p <- after.requests ::
            forall id: Cuid ::
              && (Uploading(after.requests[p], id) <==> Uploading(w.requests[p], id))
              && (KeyHeld(after.requests[p], id) ==> KeyHeld(w.requests[p], id)))
  {
  }

  lemma FewerStayApart(w: World, after: World)
    requires RequestsApart(w) && OnePending(w.db)
    requires forall i <- after.db.rows :: i in w.db.rows && after.db.rows[i] == w.db.rows[i]
    requires forall p <- after.requests :: p in w.requests
    requires forall p <- after.requests ::
      forall id: Cuid ::
        && (Uploading(after.requests[p], id) <==> Uploading(w.requests[p], id))
        && (KeyHeld(after.requests[p], id) ==> KeyHeld(w.requests[p], id))
    ensures RequestsApart(after) && OnePending(after.db)
  {
    hide Uploading, KeyHeld;
  }

  lemma DeletionTables(limits: Limits, w: World, step: Step)
    requires Safe(w) && (step.DeleteRow? || step.CascadeRow?)
    ensures var after := Take(limits, w, step);
      && (forall j <- after.db.rows :: RowReadable(after.db, j))
      && (forall r <- after.requests :: StageSound(after, after.requests[r]))
  {
    var after := Take(limits, w, step);
    hide RequestsApart, OnePending;
    forall j <- after.db.rows ensures RowReadable(after.db, j) { assert RowReadable(w.db, j); }
    forall r <- after.requests ensures StageSound(after, after.requests[r]) {
      assert StageSound(w, w.requests[r]);
    }
  }

  lemma FindKeeps(limits: Limits, w: World, p: nat, id: Cuid)
    requires Safe(w)
    ensures Safe(Take(limits, w, FindRow(p, id)))
  {
    var after := Take(limits, w, FindRow(p, id));
    if p !in w.requests && id in w.db.rows {
      hide KeyInUse, WithinQuota;
      RowIsReadable(w, id);
      FindStages(limits, w, p, id);
      forall r <- w.requests | w.db.rows[id].storageKey != PENDING ensures !Uploading(w.requests[r], id) {
        assert StageSound(w, w.requests[r]);
      }
      hide RowReadable, StageSound;
    }
  }

  lemma RowIsReadable(w: World, id: Cuid)
    requires Safe(w) && id in w.db.rows
    ensures RowReadable(w.db, id)
  {
    hide StageSound, RequestsApart, OnePending;
  }

  lemma FindStages(limits: Limits, w: World, p: nat, id: Cuid)
    requires Safe(w) && p !in w.requests && id in w.db.rows
    ensures var after := Take(limits, w, FindRow(p, id)); forall r <- after.requests :: StageSound(after, after.requests[r])
  {
    var after := Take(limits, w, FindRow(p, id));
    assert RowReadable(w.db, id);
    hide RowReadable, RequestsApart, OnePending;
    forall r <- w.requests ensures StageSound(after, w.requests[r]) {
      SameDbSameStage(w, after, w.requests[r]);
    }
  }

  lemma RemoveBytesKeeps(limits: Limits, w: World, p: nat)
    requires Safe(w)
    ensures Safe(Take(limits, w, RemoveBytes(p)))
  {
    var after := Take(limits, w, RemoveBytes(p));
    if p in w.requests && w.requests[p].Deleted? {
      var q := w.requests[p];
      assert StageSound(w, q) && KeyOf(q.key, q.id);
      StoreChangeKeepsRows(w.db, after.db.store, q.key, q.id);
      forall r <- after.requests ensures StageSound(after, after.requests[r]) {
        var stage := w.requests[r];
        assert StageSound(w, stage);
        if q.key == PENDING {
          if stage.Saved? { PendingIsNoKey(stage.school, stage.id); }
        } else {
          assert KeyHeld(q, q.id) && !Uploading(stage, q.id);
          StoreChangeKeepsStage(w, after.db.store, q.key, q.id, stage);
          SameDbSameStage(w.(db := after.db), after, stage);
        }
      }
    }
    hide RowReadable;
  }

  lemma TakeKeeps(limits: Limits, w: World, step: Step)
    requires Safe(w)
    ensures Safe(Take(limits, w, step))
  {
    match step
    case CreateRow(p, id) => CreateRowKeeps(limits, w, p, id);
    case SaveBytes(_) => SaveKeeps(limits, w, step);
    case SaveFails(_, _) => SaveKeeps(limits, w, step);
    case Finalise(p, now) => FinaliseKeeps(limits, w, p, now);
    case FindRow(p, id) => FindKeeps(limits, w, p, id);
    case DeleteRow(_) => DeletionKeeps(limits, w, step);
    case CascadeRow(_) => DeletionKeeps(limits, w, step);
    case RemoveBytes(p) => RemoveBytesKeeps(limits, w, p);
    case Begin(_, _, _, _, _, _) => OthersKeep(limits, w, step);
    case Abandon(_) => OthersKeep(limits, w, step);
  }

  lemma OthersKeep(limits: Limits, w: World, step: Step)
    requires Safe(w) && (step.Begin? || step.Abandon?)
    ensures Safe(Take(limits, w, step))
  {
    var after := Take(limits, w, step);
    hide RowReadable;
    assert after.db == w.db;
    forall r <- after.requests ensures StageSound(after, after.requests[r]) {
      if r in w.requests && after.requests[r] == w.requests[r] { SameDbSameStage(w, after, w.requests[r]); }
    }
  }

  lemma {:induction false} RunIsSafe(limits: Limits, steps: seq<Step>)
    ensures Safe(Run(limits, steps))
  {
    if steps != [] {
      RunIsSafe(limits, steps[..|steps| - 1]);
      TakeKeeps(limits, Run(limits, steps[..|steps| - 1]), steps[|steps| - 1]);
      hide Safe, Take;
    }
  }

  /** Over every interleaving of uploads and removals, interrupted or not: a row with `uploadedAt` set has its own key and
      its bytes are there at their recorded length, and no two rows share a key. */
  lemma FinalisedAreReadable(limits: Limits, steps: seq<Step>, id: Cuid, other: Cuid)
    requires var db := Run(limits, steps).db; id in db.rows && other in db.rows
    ensures var db := Run(limits, steps).db;
      && (db.rows[id].uploadedAt.Some? ==>
            var key := KeyFor(db.rows[id].school, id);
            db.rows[id].storageKey == key && key in db.store && db.store[key] == db.rows[id].size)
      && (db.rows[id].storageKey == db.rows[other].storageKey ==> id == other)
  {
    RunIsSafe(limits, steps);
    var db := Run(limits, steps).db;
    assert RowReadable(db, id) && RowReadable(db, other);
    PendingIsNoKey(db.rows[id].school, id);
    PendingIsNoKey(db.rows[other].school, other);
    if db.rows[id].storageKey == db.rows[other].storageKey && db.rows[id].uploadedAt.Some? {
      KeyForIsInjective(db.rows[id].school, id, db.rows[other].school, other);
    }
  }

  // ----- The quota -----

  /** Uploads of a school between their quota check and their row. */
  function InFlight(w: World, school: Cuid): set<nat> {
    set p | p in w.requests && w.requests[p].Checked? && w.requests[p].school == school
  }

  function SizeInFlight(w: World): nat -> int {
    (p: nat) => if p in w.requests && w.requests[p].Checked? then w.requests[p].size else 0
  }

  /** Bytes on rows, and bytes whose check has passed but whose row is still to come. */
  ghost function Committed(w: World, school: Cuid): int {
    Stored(w.db.rows, school) + Sum(InFlight(w, school), SizeInFlight(w))
  }

  ghost predicate SizesBounded(limits: Limits, w: World) {
    forall p <- w.requests :: w.requests[p].Checked? ==> w.requests[p].size <= limits.maxBytes
  }

  lemma TakeKeepsSizes(limits: Limits, w: World, step: Step)
    requires SizesBounded(limits, w)
    ensures SizesBounded(limits, Take(limits, w, step))
  {
  }

  lemma {:induction false} RunKeepsSizes(limits: Limits, steps: seq<Step>)
    ensures SizesBounded(limits, Run(limits, steps))
  {
    if steps != [] {
      RunKeepsSizes(limits, steps[..|steps| - 1]);
      TakeKeepsSizes(limits, Run(limits, steps[..|steps| - 1]), steps[|steps| - 1]);
      hide SizesBounded, Take;
    }
  }

  /** Rows may only go, and keep their size and school. */
  lemma FewerRowsStoreLess(before: map<Cuid, Row>, after: map<Cuid, Row>, school: Cuid)
    requires forall id <- after ::
      id in before && after[id].size == before[id].size && after[id].school == before[id].school
    ensures Stored(after, school) <= Stored(before, school)
  {
    var kept, gone := RowsOf(after, school), RowsOf(before, school) - RowsOf(after, school);
    SumUnion(kept, gone, SizeAt(before));
    assert kept + gone == RowsOf(before, school);
    SumSame(kept, SizeAt(after), SizeAt(before));
    SizesNatural(before, gone);
  }

  lemma {:induction false} SizesNatural(rows: map<Cuid, Row>, ids: set<Cuid>)
    ensures Sum(ids, SizeAt(rows)) >= 0
    decreases |ids|
  {
    if ids != {} {
      var id :| id in ids;
      SumPick(ids, SizeAt(rows), id);
      SizesNatural(rows, ids - {id});
    }
  }

  lemma {:induction false} FlightsNatural(w: World, ps: set<nat>)
    ensures Sum(ps, SizeInFlight(w)) >= 0
    decreases |ps|
  {
    if ps != {} {
      var p :| p in ps;
      SumPick(ps, SizeInFlight(w), p);
      FlightsNatural(w, ps - {p});
    }
  }

  /** Fewer uploads in flight commit less. */
  lemma FewerFlightsCommitLess(w: World, after: World, school: Cuid)
    requires InFlight(after, school) <= InFlight(w, school)
    requires forall p <- InFlight(after, school) :: after.requests[p] == w.requests[p]
    ensures Sum(InFlight(after, school), SizeInFlight(after)) <= Sum(InFlight(w, school), SizeInFlight(w))
  {
    var kept, gone := InFlight(after, school), InFlight(w, school) - InFlight(after, school);
    SumUnion(kept, gone, SizeInFlight(w));
    assert kept + gone == InFlight(w, school);
    SumSame(kept, SizeInFlight(after), SizeInFlight(w));
    FlightsNatural(w, gone);
  }

  /** A check that passes leaves at most the quota plus what the others in flight may add. */
  lemma BeginCommits(limits: Limits, w: World, step: Step, school: Cuid)
    requires step.Begin? && SizesBounded(limits, w)
    ensures var after := Take(limits, w, step);
      Committed(after, school) <= Committed(w, school)
      || Committed(after, school) <= limits.maxSchoolBytes + (|InFlight(after, school)| - 1) * limits.maxBytes
  {
    var after := Take(limits, w, step);
    hide Acceptable;
    if after.requests != w.requests && step.school == school {
      var others := InFlight(w, school);
      assert InFlight(after, school) == others + {step.p};
      assert step.p !in others;
      SumPick(InFlight(after, school), SizeInFlight(after), step.p);
      assert InFlight(after, school) - {step.p} == others;
      SumAtMost(others, SizeInFlight(after), limits.maxBytes);
      assert |InFlight(after, school)| == |others| + 1;
      hide Take, Sum, InFlight, SizeInFlight, RowsOf, SizeAt, SizesBounded;
    } else {
      FewerFlightsCommitLess(w, after, school);
    }
  }

  /** Making the row moves its bytes from in flight to stored. */
  lemma CreateRowCommits(limits: Limits, w: World, step: Step, school: Cuid)
    requires step.CreateRow? && forall id <- w.db.rows :: id in w.db.spent
    ensures Committed(Take(limits, w, step), school) <= Committed(w, school)
  {
    var after := Take(limits, w, step);
    if after.db.rows != w.db.rows && w.requests[step.p].school == school {
      var flying := InFlight(w, school);
      assert InFlight(after, school) == flying - {step.p};
      SumPick(flying, SizeInFlight(w), step.p);
      SumSame(flying - {step.p}, SizeInFlight(after), SizeInFlight(w));
      assert RowsOf(after.db.rows, school) == RowsOf(w.db.rows, school) + {step.id};
      SumPick(RowsOf(after.db.rows, school), SizeAt(after.db.rows), step.id);
      assert RowsOf(after.db.rows, school) - {step.id} == RowsOf(w.db.rows, school);
      SumSame(RowsOf(w.db.rows, school), SizeAt(after.db.rows), SizeAt(w.db.rows));
    } else {
      FewerFlightsCommitLess(w, after, school);
      assert RowsOf(after.db.rows, school) == RowsOf(w.db.rows, school);
      SumSame(RowsOf(w.db.rows, school), SizeAt(after.db.rows), SizeAt(w.db.rows));
    }
  }

  lemma OthersCommit(limits: Limits, w: World, step: Step, school: Cuid)
    requires !step.Begin? && !step.CreateRow?
    ensures Committed(Take(limits, w, step), school) <= Committed(w, school)
  {
    var after := Take(limits, w, step);
    OthersShrink(limits, w, step, school);
    hide Take;
    FewerRowsStoreLess(w.db.rows, after.db.rows, school);
    FewerFlightsCommitLess(w, after, school);
  }

  lemma OthersShrink(limits: Limits, w: World, step: Step, school: Cuid)
    requires !step.Begin? && !step.CreateRow?
    ensures var after := Take(limits, w, step);
      && (forall id <- after.db.rows ::
            && id in w.db.rows && after.db.rows[id].size == w.db.rows[id].size
            && after.db.rows[id].school == w.db.rows[id].school)
      && InFlight(after, school) <= InFlight(w, school)
      && (forall p <- InFlight(after, school) :: after.requests[p] == w.requests[p])
  {
  }

  /** At most `k` uploads of a school are ever between check and row, at any point of the run. */
  ghost predicate AtMostInFlight(limits: Limits, steps: seq<Step>, school: Cuid, k: nat) {
    forall n :: 0 <= n <= |steps| ==> |InFlight(Run(limits, steps[..n]), school)| <= k
  }

  lemma {:induction false} CommittedBound(limits: Limits, steps: seq<Step>, school: Cuid, k: nat)
    requires k >= 1 && AtMostInFlight(limits, steps, school, k)
    ensures Committed(Run(limits, steps), school) <= limits.maxSchoolBytes + (k - 1) * limits.maxBytes
  {
    if steps == [] {
      assert RowsOf(EMPTY.db.rows, school) == {} && InFlight(EMPTY, school) == {};
    } else {
      var front, last := steps[..|steps| - 1], steps[|steps| - 1];
      forall n | 0 <= n <= |front| ensures |InFlight(Run(limits, front[..n]), school)| <= k {
        assert front[..n] == steps[..n];
      }
      CommittedBound(limits, front, school, k);
      RunKeepsSizes(limits, front);
      RunIsSafe(limits, front);
      var w := Run(limits, front);
      assert steps[..|steps|] == steps;
      if last.Begin? {
        BeginCommits(limits, w, last, school);
        ScaleUp(|InFlight(Take(limits, w, last), school)|, k, limits.maxBytes);
      } else if last.CreateRow? {
        forall id <- w.db.rows ensures id in w.db.spent { assert RowReadable(w.db, id); }
        CreateRowCommits(limits, w, last, school);
      } else {
        OthersCommit(limits, w, last, school);
      }
    }
  }

  lemma ScaleUp(n: nat, k: nat, size: nat)
    requires n <= k
    ensures (n - 1) * size <= (k - 1) * size
  {
  }

  /** Over every interleaving: with at most `k` uploads of a school between check and row, its rows never hold more than
      the quota plus k - 1 files. With one at a time the quota is exact. */
  lemma QuotaBound(limits: Limits, steps: seq<Step>, school: Cuid, k: nat)
    requires k >= 1 && AtMostInFlight(limits, steps, school, k)
    ensures Stored(Run(limits, steps).db.rows, school) <= limits.maxSchoolBytes + (k - 1) * limits.maxBytes
  {
    CommittedBound(limits, steps, school, k);
    FlightsNatural(Run(limits, steps), InFlight(Run(limits, steps), school));
  }

  // ----- The bound is reached -----

  lemma RunSnoc(limits: Limits, steps: seq<Step>, last: Step)
    ensures Run(limits, steps + [last]) == Take(limits, Run(limits, steps), last)
  {
    hide Take;
    assert (steps + [last])[..|steps|] == steps;
  }

  /** One more step leaves at most `k` in flight, so at most `k` ever were. */
  lemma StillAtMost(limits: Limits, steps: seq<Step>, last: Step, school: Cuid, k: nat)
    requires AtMostInFlight(limits, steps, school, k)
    requires |InFlight(Take(limits, Run(limits, steps), last), school)| <= k
    ensures AtMostInFlight(limits, steps + [last], school, k)
    ensures Run(limits, steps + [last]) == Take(limits, Run(limits, steps), last)
  {
    RunSnoc(limits, steps, last);
    hide Take, Run;
    var more := steps + [last];
    forall n | 0 <= n <= |more| ensures |InFlight(Run(limits, more[..n]), school)| <= k {
      if n <= |steps| {
        assert more[..n] == steps[..n];
      } else {
        assert more[..n] == more;
      }
    }
  }

  lemma {:induction false} LongerThanAll(ids: set<Cuid>) returns (n: nat)
    ensures forall id <- ids :: |id| < n
    decreases |ids|
  {
    n := 0;
    if ids != {} {
      var id :| id in ids;
      var m := LongerThanAll(ids - {id});
      n := if m <= |id| then |id| + 1 else m;
    }
  }

  /** There is always an id that was never handed out. */
  lemma NewId(spent: set<Cuid>) returns (id: Cuid)
    ensures id !in spent
  {
    var n := LongerThanAll(spent);
    id := seq(n, _ => 'x');
  }

  /** The requests in flight are uploads of one school, all of one size, numbered from `low` to `high`. */
  predicate Waiting(w: World, school: Cuid, size: nat, low: nat, high: nat) {
    && (forall p <- w.requests :: low <= p < high)
    && (forall p :: low <= p < high ==> p in w.requests && w.requests[p].Checked?
                                         && w.requests[p].school == school && w.requests[p].size == size)
  }

  /** Nothing is under the placeholder, and the school has so many bytes. */
  ghost predicate Settled(w: World, school: Cuid, stored: nat) {
    Safe(w) && !KeyInUse(w.db.rows, PENDING) && Stored(w.db.rows, school) == stored
  }

  function Between(low: nat, high: nat): (ps: set<nat>)
    requires low <= high
    ensures forall p :: p in ps <==> low <= p < high
    ensures |ps| == high - low
    decreases high - low
  {
    if low == high then {} else {low} + Between(low + 1, high)
  }

  lemma WaitingCounts(w: World, school: Cuid, size: nat, low: nat, high: nat)
    requires low <= high && Waiting(w, school, size, low, high)
    ensures |InFlight(w, school)| == high - low
  {
    assert InFlight(w, school) == Between(low, high);
  }

  const SOMEBODY := Owner(0, Library)

  /** A further upload passes its check. */
  lemma OneMoreChecks(limits: Limits, w: World, school: Cuid, size: nat, low: nat, high: nat, stored: nat)
    requires low <= high && Waiting(w, school, size, low, high) && Settled(w, school, stored)
    requires 0 < size <= limits.maxBytes && stored + size <= limits.maxSchoolBytes
    ensures var after := Take(limits, w, Begin(high, school, size, SOMEBODY, true, true));
      Waiting(after, school, size, low, high + 1) && Settled(after, school, stored)
  {
    OthersKeep(limits, w, Begin(high, school, size, SOMEBODY, true, true));
    hide Safe, Stored, KeyInUse;
  }

  /** The first of those waiting makes its row, saves its bytes and is finalised. */
  lemma FirstIsStored(limits: Limits, w: World, school: Cuid, size: nat, low: nat, high: nat, stored: nat, id: Cuid)
    requires low < high && Waiting(w, school, size, low, high) && Settled(w, school, stored) && id !in w.db.spent
    ensures var created := Take(limits, w, CreateRow(low, id));
      var saved := Take(limits, created, SaveBytes(low));
      var done := Take(limits, saved, Finalise(low, 0));
      && InFlight(created, school) <= InFlight(w, school) && InFlight(saved, school) <= InFlight(w, school)
      && InFlight(done, school) <= InFlight(w, school)
      && Waiting(done, school, size, low + 1, high) && Settled(done, school, stored + size)
  {
    var created := Take(limits, w, CreateRow(low, id));
    var saved := Take(limits, created, SaveBytes(low));
    var done := Take(limits, saved, Finalise(low, 0));
    ThreeStepsKeep(limits, w, low, id);
    SpentHoldsRows(w);
    FreshKeyIsFree(w.db, school, id);
    hide Safe, Take, Stored;
    ThreeStepsStore(limits, w, low, id);
    OneRowMore(w.db.rows, done.db.rows, school, id);
  }

  lemma ThreeStepsKeep(limits: Limits, w: World, p: nat, id: Cuid)
    requires Safe(w)
    ensures Safe(Take(limits, Take(limits, Take(limits, w, CreateRow(p, id)), SaveBytes(p)), Finalise(p, 0)))
  {
    hide Safe, Take;
    TakeKeeps(limits, w, CreateRow(p, id));
    TakeKeeps(limits, Take(limits, w, CreateRow(p, id)), SaveBytes(p));
    TakeKeeps(limits, Take(limits, Take(limits, w, CreateRow(p, id)), SaveBytes(p)), Finalise(p, 0));
  }

  lemma SpentHoldsRows(w: World)
    requires Safe(w)
    ensures w.db.rows.Keys <= w.db.spent && forall i <- w.db.rows :: RowReadable(w.db, i)
  {
    forall i <- w.db.rows ensures i in w.db.spent { assert RowReadable(w.db, i); }
  }

  /** What the three steps leave. */
  lemma ThreeStepsStore(limits: Limits, w: World, p: nat, id: Cuid)
    requires p in w.requests && w.requests[p].Checked? && id !in w.db.spent && id !in w.db.rows
    requires !KeyInUse(w.db.rows, PENDING) && !KeyInUse(w.db.rows, KeyFor(w.requests[p].school, id))
    ensures var q := w.requests[p];
      var created := Take(limits, w, CreateRow(p, id));
      var saved := Take(limits, created, SaveBytes(p));
      var done := Take(limits, saved, Finalise(p, 0));
      && done.db.rows == w.db.rows[id := Row(KeyFor(q.school, id), q.size, q.school, q.owner, Some(0))]
      && done.requests == w.requests - {p}
      && created.requests == w.requests[p := Created(q.school, q.size, id)]
      && saved.requests == w.requests[p := Saved(q.school, q.size, id)]
  {
    hide KeyFor;
    var created := Take(limits, w, CreateRow(p, id));
    assert created.db.rows - {id} == w.db.rows;
  }

  lemma OneRowMore(rows: map<Cuid, Row>, after: map<Cuid, Row>, school: Cuid, id: Cuid)
    requires id !in rows && id in after && after == rows[id := after[id]] && after[id].school == school
    requires !KeyInUse(rows, PENDING) && after[id].storageKey == KeyFor(school, id)
    ensures Stored(after, school) == Stored(rows, school) + after[id].size && !KeyInUse(after, PENDING)
  {
    PendingIsNoKey(school, id);
    assert RowsOf(after, school) == RowsOf(rows, school) + {id};
    SumPick(RowsOf(after, school), SizeAt(after), id);
    assert RowsOf(after, school) - {id} == RowsOf(rows, school);
    SumSame(RowsOf(rows, school), SizeAt(after), SizeAt(rows));
  }

  /** From a run that leaves one or more uploads waiting: the run in which the first of them is stored. */
  lemma StoreFirst(limits: Limits, steps: seq<Step>, school: Cuid, size: nat, low: nat, high: nat, stored: nat, k: nat)
    returns (more: seq<Step>)
    requires low < high && AtMostInFlight(limits, steps, school, k)
    requires var w := Run(limits, steps); Waiting(w, school, size, low, high) && Settled(w, school, stored)
    ensures AtMostInFlight(limits, more, school, k)
    ensures var w := Run(limits, more); Waiting(w, school, size, low + 1, high) && Settled(w, school, stored + size)
  {
    var w := Run(limits, steps);
    var id := NewId(w.db.spent);
    FirstIsStored(limits, w, school, size, low, high, stored, id);
    InFlightNow(limits, steps, school, k);
    hide Take, Run, Waiting, Settled, AtMostInFlight;
    SmallerFlight(Take(limits, w, CreateRow(low, id)), w, school, k);
    StillAtMost(limits, steps, CreateRow(low, id), school, k);
    more := steps + [CreateRow(low, id)];
    SmallerFlight(Take(limits, Run(limits, more), SaveBytes(low)), w, school, k);
    StillAtMost(limits, more, SaveBytes(low), school, k);
    more := more + [SaveBytes(low)];
    SmallerFlight(Take(limits, Run(limits, more), Finalise(low, 0)), w, school, k);
    StillAtMost(limits, more, Finalise(low, 0), school, k);
    more := more + [Finalise(low, 0)];
  }

  lemma InFlightNow(limits: Limits, steps: seq<Step>, school: Cuid, k: nat)
    requires AtMostInFlight(limits, steps, school, k)
    ensures |InFlight(Run(limits, steps), school)| <= k
  {
    assert steps[..|steps|] == steps;
  }

  lemma SmallerFlight(a: World, b: World, school: Cuid, k: nat)
    requires InFlight(a, school) <= InFlight(b, school) && |InFlight(b, school)| <= k
    ensures |InFlight(a, school)| <= k
  {
    assert InFlight(a, school) + (InFlight(b, school) - InFlight(a, school)) == InFlight(b, school);
  }

  /** A school can fill up, one upload at a time, to any number of bytes within its quota. */
  lemma {:induction false} FillTo(limits: Limits, school: Cuid, stored: nat, k: nat) returns (steps: seq<Step>)
    requires 0 < limits.maxBytes && stored <= limits.maxSchoolBytes && k >= 1
    ensures AtMostInFlight(limits, steps, school, k)
    ensures var w := Run(limits, steps); w.requests == map[] && Settled(w, school, stored)
    decreases stored
  {
    if stored == 0 {
      steps := [];
      RunIsSafe(limits, []);
      assert RowsOf(EMPTY.db.rows, school) == {} && InFlight(EMPTY, school) == {};
    } else {
      var size := if stored <= limits.maxBytes then stored else limits.maxBytes;
      steps := FillTo(limits, school, stored - size, k);
      var w := Run(limits, steps);
      OneMoreChecks(limits, w, school, size, 0, 0, stored - size);
      var begin := Begin(0, school, size, SOMEBODY, true, true);
      WaitingCounts(Take(limits, w, begin), school, size, 0, 1);
      hide Take, Run, Settled, AtMostInFlight;
      StillAtMost(limits, steps, begin, school, k);
      steps := StoreFirst(limits, steps + [begin], school, size, 0, 1, stored - size, k);
      assert Run(limits, steps).requests == map[];
    }
  }

  /** So many uploads pass their check one after the other, before any has its row. */
  lemma {:induction false} CheckMany(limits: Limits, steps: seq<Step>, school: Cuid, stored: nat, n: nat, k: nat)
    returns (more: seq<Step>)
    requires n <= k && AtMostInFlight(limits, steps, school, k)
    requires 0 < limits.maxBytes && stored + limits.maxBytes <= limits.maxSchoolBytes
    requires var w := Run(limits, steps); w.requests == map[] && Settled(w, school, stored)
    ensures AtMostInFlight(limits, more, school, k)
    ensures var w := Run(limits, more); Waiting(w, school, limits.maxBytes, 0, n) && Settled(w, school, stored)
    decreases n
  {
    if n == 0 {
      more := steps;
    } else {
      more := CheckMany(limits, steps, school, stored, n - 1, k);
      var w := Run(limits, more);
      var begin := Begin(n - 1, school, limits.maxBytes, SOMEBODY, true, true);
      OneMoreChecks(limits, w, school, limits.maxBytes, 0, n - 1, stored);
      WaitingCounts(Take(limits, w, begin), school, limits.maxBytes, 0, n);
      hide Take, Run, Settled, Waiting, AtMostInFlight;
      StillAtMost(limits, more, begin, school, k);
      more := more + [begin];
    }
  }

  /** Then all of them are stored. */
  lemma {:induction false} StoreMany(limits: Limits, steps: seq<Step>, school: Cuid, size: nat, low: nat, stored: nat, k: nat)
    returns (more: seq<Step>)
    requires low <= k && AtMostInFlight(limits, steps, school, k)
    requires var w := Run(limits, steps); Waiting(w, school, size, low, k) && Settled(w, school, stored)
    ensures AtMostInFlight(limits, more, school, k)
    ensures Stored(Run(limits, more).db.rows, school) == stored + (k - low) * size
    decreases k - low
  {
    if low == k {
      more := steps;
      OneFewer(0, size);
    } else {
      hide Run, Waiting, Settled, AtMostInFlight, Stored;
      more := StoreFirst(limits, steps, school, size, low, k, stored, k);
      more := StoreMany(limits, more, school, size, low + 1, stored + size, k);
      OneFewer(k - low, size);
    }
  }

  lemma OneFewer(n: nat, size: nat)
    ensures n * size == if n == 0 then 0 else size + (n - 1) * size
  {
  }

  /** The bound is the exact one: whatever a file and a school may hold, and however many uploads are let race, some run
      with no more of them in flight takes the school to the last byte of it. */
  lemma QuotaBoundIsReached(limits: Limits, school: Cuid, k: nat)
    requires 0 < limits.maxBytes <= limits.maxSchoolBytes && k >= 1
    ensures exists steps: seq<Step> :: AtMostInFlight(limits, steps, school, k)
              && Stored(Run(limits, steps).db.rows, school) == limits.maxSchoolBytes + (k - 1) * limits.maxBytes
  {
    var base := limits.maxSchoolBytes - limits.maxBytes;
    var steps := FillTo(limits, school, base, k);
    steps := CheckMany(limits, steps, school, base, k, k);
    steps := StoreMany(limits, steps, school, limits.maxBytes, 0, base, k);
    hide AtMostInFlight, Stored, Run;
    assert base + (k - 0) * limits.maxBytes == limits.maxSchoolBytes + (k - 1) * limits.maxBytes;
  }

  // ----- The placeholder -----

  ghost function From(limits: Limits, w: World, steps: seq<Step>): World
    decreases |steps|
  {
    if steps == [] then w else From(limits, Take(limits, w, steps[0]), steps[1..])
  }

  /** A row under the placeholder whose upload is over, and which nobody is removing. */
  ghost predicate Stuck(w: World, id: Cuid) {
    && id in w.db.rows && w.db.rows[id].storageKey == PENDING
    && forall p <- w.requests :: !Uploading(w.requests[p], id) && !(w.requests[p].Found? && w.requests[p].id == id)
  }

  lemma TakeKeepsStuck(limits: Limits, w: World, step: Step, id: Cuid)
    requires Stuck(w, id) && !(step.FindRow? && step.id == id) && !(step.CascadeRow? && step.id == id)
    ensures Stuck(Take(limits, w, step), id)
    ensures Take(limits, w, step).db.rows.Keys <= w.db.rows.Keys
  {
    assert KeyInUse(w.db.rows, PENDING);
    hide KeyInUse, WithinQuota;
  }

  /** An upload that broke off while saving leaves a row under the placeholder, and as long as nobody removes that row no
      further row is created for any school, whatever else happens. */
  lemma {:induction false} BrokenUploadBlocksTheNext(limits: Limits, w: World, steps: seq<Step>, id: Cuid)
    requires Stuck(w, id)
    requires forall n :: 0 <= n < |steps| ==>
      !(steps[n].FindRow? && steps[n].id == id) && !(steps[n].CascadeRow? && steps[n].id == id)
    ensures From(limits, w, steps).db.rows.Keys <= w.db.rows.Keys
    decreases |steps|
  {
    if steps != [] {
      TakeKeepsStuck(limits, w, steps[0], id);
      BrokenUploadBlocksTheNext(limits, Take(limits, w, steps[0]), steps[1..], id);
    }
  }

  /** An upload that has its row ends without finalising it: writing the bytes fails, or the request is lost before or after
      they are written. */
  predicate BreaksOff(w: World, p: nat, step: Step) {
    && p in w.requests && (w.requests[p].Created? || w.requests[p].Saved?)
    && (step == Abandon(p) || (step.SaveFails? && step.p == p && w.requests[p].Created?))
  }

  /** At any moment of any run: an upload that breaks off leaves its row stuck if and only if the row is still there and
      nobody is removing it. From then on, and until somebody removes it, no upload of any school gets a row. */
  lemma BreakingOffBlocksTheNext(limits: Limits, w: World, p: nat, step: Step, later: seq<Step>)
    requires Safe(w) && BreaksOff(w, p, step)
    requires forall n :: 0 <= n < |later| ==>
      && !(later[n].FindRow? && later[n].id == w.requests[p].id)
      && !(later[n].CascadeRow? && later[n].id == w.requests[p].id)
    ensures var id, broken := w.requests[p].id, Take(limits, w, step);
      && broken.db.rows == w.db.rows
      && (Stuck(broken, id) <==>
            id in w.db.rows && forall q <- w.requests :: !(w.requests[q].Found? && w.requests[q].id == id))
      && (Stuck(broken, id) ==> From(limits, broken, later).db.rows.Keys <= w.db.rows.Keys)
  {
    var id, broken := w.requests[p].id, Take(limits, w, step);
    assert StageSound(w, w.requests[p]);
    assert Uploading(w.requests[p], id);
    forall q <- w.requests | q != p ensures !Uploading(w.requests[q], id) { }
    hide Safe, WithinQuota, KeyInUse;
    assert broken.requests == w.requests - {p};
    forall q <- w.requests | q != p ensures q in broken.requests && broken.requests[q] == w.requests[q] { }
    if Stuck(broken, id) { BrokenUploadBlocksTheNext(limits, broken, later, id); }
  }

  /** How an upload can end once it has its row, short of finalising it. */
  datatype Break = SavingFails(left: Option<nat>) | LostUnsaved | LostSaved

  function BreakingSteps(p: nat, how: Break): (steps: seq<Step>)
    ensures |steps| > 0
  {
    match how
    case SavingFails(left) => [SaveFails(p, left)]
    case LostUnsaved => [Abandon(p)]
    case LostSaved => [SaveBytes(p), Abandon(p)]
  }

  /** Begun while nothing is stuck, an upload that breaks off in any of these ways leaves a row that was not there, and with
      it the blockade. */
  lemma EveryBreakBlocksTheNext(
    limits: Limits, w: World, p: nat, school: Cuid, size: nat, owner: Owner, id: Cuid, how: Break, later: seq<Step>)
    requires Safe(w) && p !in w.requests && !KeyInUse(w.db.rows, PENDING) && id !in w.db.spent
    requires Acceptable(limits, size, true, true).Ok? && WithinQuota(limits, w.db.rows, school, size)
    requires forall n :: 0 <= n < |later| ==>
      !(later[n].FindRow? && later[n].id == id) && !(later[n].CascadeRow? && later[n].id == id)
    ensures var broken :=
        From(limits, w, [Begin(p, school, size, owner, true, true), CreateRow(p, id)] + BreakingSteps(p, how));
      && broken.db.rows.Keys == w.db.rows.Keys + {id} && Stuck(broken, id)
      && From(limits, broken, later).db.rows.Keys <= broken.db.rows.Keys
  {
    var a, b, rest := Begin(p, school, size, owner, true, true), CreateRow(p, id), BreakingSteps(p, how);
    assert [a, b] + rest == [a] + ([b] + rest);
    FromCons(limits, w, a, [b] + rest);
    FromCons(limits, Take(limits, w, a), b, rest);
    RowIsMade(limits, w, p, school, size, owner, id);
    var made := Take(limits, Take(limits, w, a), b);
    BreakIsStuck(limits, made, p, id, how);
    hide Take, Safe, Stuck, From;
    BrokenUploadBlocksTheNext(limits, From(limits, made, rest), later, id);
  }

  /** The upload has its row, and the row is nobody else's business. */
  ghost predicate RowMade(w: World, p: nat, id: Cuid) {
    && p in w.requests && w.requests[p].Created? && w.requests[p].id == id
    && id in w.db.rows && w.db.rows[id].storageKey == PENDING
    && forall q <- w.requests :: q != p ==> !Uploading(w.requests[q], id) && !(w.requests[q].Found? && w.requests[q].id == id)
  }

  lemma RowIsMade(limits: Limits, w: World, p: nat, school: Cuid, size: nat, owner: Owner, id: Cuid)
    requires Safe(w) && p !in w.requests && !KeyInUse(w.db.rows, PENDING) && id !in w.db.spent
    requires Acceptable(limits, size, true, true).Ok? && WithinQuota(limits, w.db.rows, school, size)
    ensures var made := Take(limits, Take(limits, w, Begin(p, school, size, owner, true, true)), CreateRow(p, id));
      RowMade(made, p, id) && made.db.rows.Keys == w.db.rows.Keys + {id}
  {
    NobodyAt(w, id);
    hide Safe, WithinQuota, Acceptable, KeyInUse;
  }

  lemma BreakIsStuck(limits: Limits, w: World, p: nat, id: Cuid, how: Break)
    requires RowMade(w, p, id)
    ensures var broken := From(limits, w, BreakingSteps(p, how)); Stuck(broken, id) && broken.db.rows == w.db.rows
  {
    hide WithinQuota, KeyInUse;
    if how.LostSaved? {
      assert BreakingSteps(p, how) == [SaveBytes(p)] + ([Abandon(p)] + []);
      FromCons(limits, w, SaveBytes(p), [Abandon(p)] + []);
      FromCons(limits, Take(limits, w, SaveBytes(p)), Abandon(p), []);
    } else {
      assert BreakingSteps(p, how) == [BreakingSteps(p, how)[0]] + [];
      FromCons(limits, w, BreakingSteps(p, how)[0], []);
    }
  }

  /** No request is about an id that has not been handed out. */
  lemma NobodyAt(w: World, id: Cuid)
    requires Safe(w) && id !in w.db.spent
    ensures forall r <- w.requests :: !Uploading(w.requests[r], id) && !(w.requests[r].Found? && w.requests[r].id == id)
  {
    forall r <- w.requests ensures !Uploading(w.requests[r], id) && !(w.requests[r].Found? && w.requests[r].id == id) {
      assert StageSound(w, w.requests[r]);
    }
  }

  // ----- The table and the store, updated in place -----

  /** How writing the bytes went: all of them, or a failure that left some behind. */
  datatype Saving = Written | Broken(left: Option<nat>)

  /** An upload run without interruption is these four steps. */
  ghost function UploadSteps(
    school: Cuid, size: nat, owner: Owner, typeAllowed: bool, looksRight: bool, id: Cuid, saving: Saving, now: Time)
    : seq<Step>
  {
    [Begin(0, school, size, owner, typeAllowed, looksRight), CreateRow(0, id),
     if saving.Written? then SaveBytes(0) else SaveFails(0, saving.left), Finalise(0, now)]
  }

  /** A removal is these three; the last is missing when the store could not be reached. */
  ghost function RemovalSteps(id: Cuid, reached: bool): seq<Step> {
    [FindRow(0, id), DeleteRow(0)] + if reached then [RemoveBytes(0)] else []
  }

  lemma FromCons(limits: Limits, w: World, first: Step, rest: seq<Step>)
    ensures From(limits, w, [first] + rest) == From(limits, Take(limits, w, first), rest)
  {
    hide Take;
    assert ([first] + rest)[1..] == rest;
  }

  lemma FourSteps(limits: Limits, w: World, a: Step, b: Step, c: Step, d: Step)
    ensures From(limits, w, [a, b, c, d]) == Take(limits, Take(limits, Take(limits, Take(limits, w, a), b), c), d)
  {
    hide Take;
    assert [a, b, c, d] == [a] + ([b] + ([c] + ([d] + [])));
    FromCons(limits, w, a, [b] + ([c] + ([d] + [])));
    FromCons(limits, Take(limits, w, a), b, [c] + ([d] + []));
    FromCons(limits, Take(limits, Take(limits, w, a), b), c, [d] + []);
    FromCons(limits, Take(limits, Take(limits, Take(limits, w, a), b), c), d, []);
  }

  lemma FreshKeyIsFree(db: Db, school: Cuid, id: Cuid)
    requires id !in db.rows && forall i <- db.rows :: RowReadable(db, i)
    ensures !KeyInUse(db.rows, KeyFor(school, id))
  {
    forall i <- db.rows ensures db.rows[i].storageKey != KeyFor(school, id) {
      assert RowReadable(db, i);
      PendingIsNoKey(school, id);
      if db.rows[i].storageKey == KeyFor(school, id) { KeyForIsInjective(db.rows[i].school, i, school, id); }
    }
  }

  // ----- Who may upload, and remove -----

  /** The school a new file counts towards: that of the student or lesson, if the caller reaches it, or the caller's own. */
  function SchoolFor(tables: Books.Db, me: Id, target: Attachment): Result<Id>
    requires me in tables.users
  {
    match target
    case OfStudent(student) => var row :- Books.FindStudent(tables, me, student); Ok(row.school)
    case OfLesson(lesson) => var row :- Books.FindLesson(tables, me, lesson); Ok(row.school)
    case Library => Ok(tables.users[me].school)
  }

  /** Whether the caller sees a file: by its student or lesson, and a shelf only as its owner or an admin. */
  function FindFile(tables: Books.Db, me: Id, rows: map<Cuid, Row>, own: Cuid, id: Cuid): Result<Row>
    requires me in tables.users
  {
    var _ :- Need(id in rows && rows[id].school == own, NotFound);
    var file := rows[id];
    var _ :- match file.owner.attached
             case OfStudent(student) => var _ :- Books.FindStudent(tables, me, student); Ok(())
             case OfLesson(lesson) => var _ :- Books.FindLesson(tables, me, lesson); Ok(())
             case Library => Need(file.owner.uploadedBy == me || tables.users[me].role == Books.Admin, NotFound);
    Ok(file)
  }

  /** Whether the caller may remove it: who uploaded it, or an admin. */
  function MayRemove(tables: Books.Db, me: Id, rows: map<Cuid, Row>, own: Cuid, id: Cuid): Result<Row>
    requires me in tables.users
  {
    var file :- FindFile(tables, me, rows, own, id);
    var _ :- Need(file.owner.uploadedBy == me || tables.users[me].role == Books.Admin, Forbidden);
    Ok(file)
  }

  /** Nobody removes a colleague's file but an admin; and once a student or lesson is no longer theirs, not even who put it
      there. */
  lemma RemovalIsForOwners(tables: Books.Db, me: Id, rows: map<Cuid, Row>, own: Cuid, id: Cuid)
    requires me in tables.users && tables.users[me].role == Books.Tutor && MayRemove(tables, me, rows, own, id).Ok?
    ensures id in rows && rows[id].owner.uploadedBy == me && rows[id].school == own
    ensures rows[id].owner.attached.OfStudent? ==>
              var s := rows[id].owner.attached.student; s in tables.students && tables.students[s].tutor == me
    ensures rows[id].owner.attached.OfLesson? ==>
              var l := rows[id].owner.attached.lesson; l in tables.lessons && tables.lessons[l].tutor == me
  {
  }

  /** A file counts towards the school of the student or lesson it is put with, who must be the caller's to reach, or of the
      caller. */
  lemma SchoolForIs(tables: Books.Db, me: Id, target: Attachment)
    requires me in tables.users
    ensures SchoolFor(tables, me, target).Ok? <==>
              match target
              case OfStudent(s) => Answers.MyStudent(tables, me, s)
              case OfLesson(l) => Answers.MyLesson(tables, me, l)
              case Library => true
    ensures SchoolFor(tables, me, target).Ok? ==> SchoolFor(tables, me, target).value == tables.users[me].school
  {
  }

  /** The student or lesson a file is with is within reach; a file on a shelf is its owner's, or an admin's. */
  predicate Sees(tables: Books.Db, me: Id, owner: Owner)
    requires me in tables.users
  {
    match owner.attached
    case OfStudent(s) => Answers.MyStudent(tables, me, s)
    case OfLesson(l) => Answers.MyLesson(tables, me, l)
    case Library => owner.uploadedBy == me || tables.users[me].role == Books.Admin
  }

  /** A file is there for a caller if and only if it is of their school and they see it; and it is theirs to remove if and only if
      they also uploaded it or are an admin, a file they merely see being forbidden. */
  lemma MayRemoveIff(tables: Books.Db, me: Id, rows: map<Cuid, Row>, own: Cuid, id: Cuid)
    requires me in tables.users
    ensures FindFile(tables, me, rows, own, id).Ok? <==> id in rows && rows[id].school == own && Sees(tables, me, rows[id].owner)
    ensures FindFile(tables, me, rows, own, id).Ok? ==>
      MayRemove(tables, me, rows, own, id)
      == if rows[id].owner.uploadedBy == me || tables.users[me].role == Books.Admin then Ok(rows[id]) else Err(Forbidden)
    ensures FindFile(tables, me, rows, own, id).Err? ==> MayRemove(tables, me, rows, own, id).Err?
  {
  }

  class Shelf {
    const limits: Limits
    /** How the id of a school is written in a key. */
    const written: Id -> Cuid
    var rows: map<Cuid, Row>
    var store: map<string, nat>
    var spent: set<Cuid>

    function State(): Db
      reads this
    {
      Db(rows, store, spent)
    }

    constructor (limits: Limits, written: Id -> Cuid)
      ensures State() == EMPTY.db && this.limits == limits && this.written == written
    {
      this.limits, this.written := limits, written;
      rows, store, spent := map[], map[], {};
    }

    /** `listing` is what the aggregate reads: the rows of the school the file counts towards. */
    method Upload(
        tables: Books.Db, me: Id, target: Attachment, size: nat, typeAllowed: bool, looksRight: bool, listing: seq<Cuid>,
        id: Cuid, saving: Saving, now: Time)
      returns (r: Result<Row>)
      requires me in tables.users && id !in spent && rows.Keys <= spent
      requires SchoolFor(tables, me, target).Ok? ==>
        Lists(listing, RowsOf(rows, written(SchoolFor(tables, me, target).value)))
      requires forall i <- rows :: RowReadable(State(), i)
      modifies this
      ensures SchoolFor(tables, me, target).Err? ==>
        r == Err(SchoolFor(tables, me, target).error) && State() == old(State())
      ensures SchoolFor(tables, me, target).Ok? ==>
        var school := written(SchoolFor(tables, me, target).value);
        && State() == From(limits, World(old(State()), map[]),
                           UploadSteps(school, size, Owner(me, target), typeAllowed, looksRight, id, saving, now)).db
        && (r.Ok? <==> 0 < size <= limits.maxBytes && typeAllowed && looksRight && saving.Written?
                       && old(Stored(rows, school) + size <= limits.maxSchoolBytes && !KeyInUse(rows, PENDING)))
        && (r.Ok? ==> id in rows && rows[id] == r.value == Row(KeyFor(school, id), size, school, Owner(me, target), Some(now)))
        && (r.Ok? ==> rows == old(rows)[id := r.value] && store == old(store)[KeyFor(school, id) := size])
        && (r.Err? && saving.Written? ==> rows == old(rows) && store == old(store))
        && (size == 0 ==> r == Err(BadRequest)) && (size > limits.maxBytes ==> r == Err(TooLarge))
        && (0 < size <= limits.maxBytes && !(typeAllowed && looksRight) ==> r == Err(UnsupportedType))
    {
      var found :- SchoolFor(tables, me, target);
      hide SchoolFor, WithinQuota;
      var school, owner := written(found), Owner(me, target);
      ghost var w := World(State(), map[]);
      SumSeqIsSum(listing, RowsOf(rows, school), SizeAt(rows));
      QuotaIsSum(limits, rows, school, size);
      FourSteps(limits, w, Begin(0, school, size, owner, typeAllowed, looksRight), CreateRow(0, id),
                if saving.Written? then SaveBytes(0) else SaveFails(0, saving.left), Finalise(0, now));
      var fine := Acceptable(limits, size, typeAllowed, looksRight);
      AcceptableIff(limits, size, typeAllowed, looksRight);
      hide Acceptable, From, Lists;
      if fine.Err? {
        return Err(fine.error);
      }
      if SumSeq(listing, SizeAt(rows)) + size > limits.maxSchoolBytes {
        return Err(TooLarge);
      }
      r := Keep(school, size, owner, id, saving, now);
    }

    /** The row, the bytes, and the row finalised: what every upload does once its checks have passed. */
    method Keep(school: Cuid, size: nat, owner: Owner, id: Cuid, saving: Saving, now: Time) returns (r: Result<Row>)
      requires id !in spent && rows.Keys <= spent && forall i <- rows :: RowReadable(State(), i)
      modifies this
      ensures State() == Take(limits, Take(limits, Take(limits,
          World(old(State()), map[0 := Checked(school, size, owner)]), CreateRow(0, id)),
          if saving.Written? then SaveBytes(0) else SaveFails(0, saving.left)), Finalise(0, now)).db
      ensures r.Ok? <==> saving.Written? && !old(KeyInUse(rows, PENDING))
      ensures r.Ok? ==> id in rows && rows[id] == r.value == Row(KeyFor(school, id), size, school, owner, Some(now))
      ensures r.Ok? ==> rows == old(rows)[id := r.value] && store == old(store)[KeyFor(school, id) := size]
      ensures r.Err? && saving.Written? ==> rows == old(rows) && store == old(store)
    {
      FreshKeyIsFree(State(), school, id);
      hide RowReadable;
      if KeyInUse(rows, PENDING) {
        return Err(Conflict(KeyTaken));
      }
      ghost var before := rows;
      rows, spent := rows[id := Row(PENDING, size, school, owner, None)], spent + {id};
      assert rows - {id} == before;
      var key := KeyFor(school, id);
      if saving.Broken? {
        if saving.left.Some? {
          store := store[key := saving.left.value];
        }
        return Err(ServerError);
      }
      store := store[key := size];
      if KeyInUse(rows - {id}, key) {
        return Err(Conflict(KeyTaken));
      }
      rows := rows[id := rows[id].(storageKey := key, uploadedAt := Some(now))];
      return Ok(rows[id]);
    }

    method Remove(tables: Books.Db, me: Id, id: Cuid, reached: bool) returns (r: Result<()>)
      requires me in tables.users
      modifies this
      ensures var may := old(MayRemove(tables, me, rows, written(tables.users[me].school), id));
        if may.Err? then r == Err(may.error) && State() == old(State())
        else r.Ok? && State() == From(limits, World(old(State()), map[]), RemovalSteps(id, reached)).db
      ensures r.Ok? ==>
        && old(id in rows) && rows == old(rows) - {id} && spent == old(spent)
        && store == if reached then old(store) - {old(rows[id].storageKey)} else old(store)
    {
      var file :- MayRemove(tables, me, rows, written(tables.users[me].school), id);
      assert id in rows && file == rows[id];
      hide MayRemove;
      ghost var w := World(State(), map[]);
      FromCons(limits, w, FindRow(0, id), [DeleteRow(0)] + if reached then [RemoveBytes(0)] else []);
      FromCons(limits, Take(limits, w, FindRow(0, id)), DeleteRow(0), if reached then [RemoveBytes(0)] else []);
      FromCons(limits, Take(limits, Take(limits, w, FindRow(0, id)), DeleteRow(0)), RemoveBytes(0), []);
      assert RemovalSteps(id, reached) == [FindRow(0, id)] + ([DeleteRow(0)] + if reached then [RemoveBytes(0)] else []);
      rows := rows - {id};
      if reached {
        store := store - {file.storageKey};
      }
      return Ok(());
    }
  }

  lemma QuotaIsSum(limits: Limits, rows: map<Cuid, Row>, school: Cuid, size: nat)
    ensures WithinQuota(limits, rows, school, size) <==> Stored(rows, school) + size <= limits.maxSchoolBytes
  {
  }
}

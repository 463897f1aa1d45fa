/** Inviting, accepting, revoking and creating accounts, as database steps that may interleave in any way. */
module Invitations {
  import opened Foundations
  import opened Text
  import Books

  datatype Account = Account(email: string, name: string, role: Books.Role, school: Id)
  datatype Invitation = Invitation(
    email: string, token: string, role: Books.Role, school: Id, expiresAt: Time, acceptedAt: Option<Time>)

  datatype Db = Db(users: map<Id, Account>, invitations: map<Id, Invitation>, nextId: Id)

  /** A request between two of its database steps. */
  datatype Pending =
    | Inviting(school: Id, email: string, token: string, expiresAt: Time)
    | Accepting(id: Id, seen: Invitation, name: string)
    | Creating(account: Account)

  datatype World = World(db: Db, pending: map<nat, Pending>)

  const EMPTY := World(Db(map[], map[], 0), map[])

  /** How an address is written down before it is compared or stored. */
  function Normalise(email: string): string {
    Lower(Trim(email))
  }

  lemma NormaliseTwice(email: string)
    ensures Normalise(Normalise(email)) == Normalise(email)
  {
    TrimTwice(email);
    TrimLowered(Trim(email));
    LowerTwice(Trim(email));
  }

  // ----- The database steps -----

  predicate HasAccount(db: Db, email: string) {
    exists u <- db.users :: db.users[u].email == email
  }

  /** The row an upsert on (school, email) lands on. */
  function RowFor(db: Db, school: Id, email: string): set<Id> {
    set i | i in db.invitations && db.invitations[i].school == school && db.invitations[i].email == email
  }

  predicate TokenTaken(db: Db, token: string, except: set<Id>) {
    exists i <- db.invitations :: i !in except && db.invitations[i].token == token
  }

  /** Replaces the earlier invitation of that address to that school, acceptance included, or makes the first one. */
  function Upsert(db: Db, school: Id, email: string, token: string, expiresAt: Time): Result<Db> {
    var rows := RowFor(db, school, email);
    var _ :- Need(!TokenTaken(db, token, rows), Conflict(KeyTaken));
    if rows == {} then
      Ok(db.(invitations :=
               db.invitations[db.nextId := Invitation(email, token, Books.Tutor, school, expiresAt, None)],
             nextId := db.nextId + 1))
    else
      Ok(db.(invitations := map i | i in db.invitations ::
               if i in rows
               then db.invitations[i].(token := token, expiresAt := expiresAt, acceptedAt := None)
               else db.invitations[i]))
  }

  predicate Usable(invitation: Invitation, now: Time) {
    invitation.acceptedAt.None? && invitation.expiresAt >= now
  }

  function InsertAccount(db: Db, account: Account): Result<Db> {
    var _ :- Need(!HasAccount(db, account.email), Conflict(EmailTaken));
    Ok(db.(users := db.users[db.nextId := account], nextId := db.nextId + 1))
  }

  /** The accept transaction: claim the row if nobody has, create the account, and undo the claim if that fails. */
  function Commit(db: Db, id: Id, seen: Invitation, name: string, now: Time): Result<Db> {
    var _ :- Need(id in db.invitations && db.invitations[id].acceptedAt.None?, BadRequest);
    var claimed := db.(invitations := db.invitations[id := db.invitations[id].(acceptedAt := Some(now))]);
    InsertAccount(claimed, Account(seen.email, name, seen.role, seen.school))
  }

  function Delete(db: Db, id: Id, school: Id): Result<Db> {
    var _ :- Need(id in db.invitations && db.invitations[id].school == school, NotFound);
    Ok(db.(invitations := db.invitations - {id}))
  }

  // ----- Interleavings -----

  /** `p` names the request taking the step. A request that fails, or is abandoned, is over. */
  datatype Step =
    | CheckInvite(p: nat, school: Id, email: string, token: string, expiresAt: Time)
    | DoUpsert(p: nat)
    | FindInvite(p: nat, id: Id, token: string, name: string, now: Time)
    | DoCommit(p: nat, now: Time)
    | Revoke(id: Id, school: Id)
    | CheckCreate(p: nat, account: Account)
    | DoInsert(p: nat)
    | Abandon(p: nat)

  datatype Outcome = Outcome(world: World, error: Option<Error>)

  function Start(w: World, p: nat, allowed: Result<()>, stage: Pending): Outcome {
    if p in w.pending then Outcome(w, Some(BadRequest))
    else if allowed.Err? then Outcome(w, Some(allowed.error))
    else Outcome(w.(pending := w.pending[p := stage]), None)
  }

  function Finish(w: World, p: nat, r: Result<Db>): Outcome {
    match r
    case Ok(db) => Outcome(World(db, w.pending - {p}), None)
    case Err(e) => Outcome(w.(pending := w.pending - {p}), Some(e))
  }

  function Take(w: World, step: Step): Outcome {
    match step
    case CheckInvite(p, school, email, token, expiresAt) =>
      var address := Normalise(email);
      Start(w, p, Need(!HasAccount(w.db, address), Conflict(EmailTaken)), Inviting(school, address, token, expiresAt))
    case DoUpsert(p) =>
      if p in w.pending && w.pending[p].Inviting? then
        var q := w.pending[p];
        Finish(w, p, Upsert(w.db, q.school, q.email, q.token, q.expiresAt))
      else Outcome(w, Some(BadRequest))
    case FindInvite(p, id, token, name, now) =>
      var found := id in w.db.invitations && w.db.invitations[id].token == token && Usable(w.db.invitations[id], now);
      if found then Start(w, p, Ok(()), Accepting(id, w.db.invitations[id], name)) else Outcome(w, Some(NotFound))
    case DoCommit(p, now) =>
      if p in w.pending && w.pending[p].Accepting? then
        var q := w.pending[p];
        Finish(w, p, Commit(w.db, q.id, q.seen, q.name, now))
      else Outcome(w, Some(BadRequest))
    case Revoke(id, school) =>
      var r := Delete(w.db, id, school);
      if r.Ok? then Outcome(w.(db := r.value), None) else Outcome(w, Some(r.error))
    case CheckCreate(p, account) =>
      var row := account.(email := Normalise(account.email));
      Start(w, p, Need(!HasAccount(w.db, row.email), Conflict(EmailTaken)), Creating(row))
    case DoInsert(p) =>
      if p in w.pending && w.pending[p].Creating? then
        Finish(w, p, InsertAccount(w.db, w.pending[p].account))
      else Outcome(w, Some(BadRequest))
    case Abandon(p) => Outcome(w.(pending := w.pending - {p}), None)
  }

  function Run(steps: seq<Step>): World {
    if steps == [] then EMPTY else Take(Run(steps[..|steps| - 1]), steps[|steps| - 1]).world
  }

  // ----- What every interleaving keeps -----

  /** The unique keys of the two tables. */
  ghost predicate KeysUnique(db: Db) {
    && (forall u <- db.users :: u < db.nextId)
    && (forall i <- db.invitations :: i < db.nextId)
    && (forall u, v | u in db.users && v in db.users :: db.users[u].email == db.users[v].email ==> u == v)
    && (forall i, j | i in db.invitations && j in db.invitations ::
          db.invitations[i].token == db.invitations[j].token ==> i == j)
    && (forall i, j | i in db.invitations && j in db.invitations ::
          db.invitations[i].school == db.invitations[j].school && db.invitations[i].email == db.invitations[j].email
          ==> i == j)
  }

  /** An accepted invitation has its account. */
  ghost predicate AcceptedHaveAccounts(db: Db) {
    forall i <- db.invitations :: db.invitations[i].acceptedAt.Some? ==> HasAccount(db, db.invitations[i].email)
  }

  /** What an accepting request remembers of its row still holds, if the row is still there. */
  ghost predicate SnapshotsAgree(w: World) {
    forall p <- w.pending :: w.pending[p].Accepting? ==>
      var q := w.pending[p];
      && q.id < w.db.nextId
      && (q.id in w.db.invitations ==>
            var row := w.db.invitations[q.id];
            row.email == q.seen.email && row.school == q.seen.school && row.role == q.seen.role)
  }

  ghost predicate Safe(w: World) {
    KeysUnique(w.db) && AcceptedHaveAccounts(w.db) && SnapshotsAgree(w)
  }

  lemma UpsertKeysUnique(db: Db, school: Id, email: string, token: string, expiresAt: Time)
    requires KeysUnique(db) && Upsert(db, school, email, token, expiresAt).Ok?
    ensures KeysUnique(Upsert(db, school, email, token, expiresAt).value)
  {
    var after := Upsert(db, school, email, token, expiresAt).value;
    var rows := RowFor(db, school, email);
    forall i <- rows, j <- rows ensures i == j {
      assert db.invitations[i].school == db.invitations[j].school && db.invitations[i].email == db.invitations[j].email;
    }
    forall i <- after.invitations, j <- after.invitations | after.invitations[i].token == after.invitations[j].token
      ensures i == j
    {
      assert i in db.invitations && i !in rows ==> db.invitations[i].token == after.invitations[i].token != token;
      assert j in db.invitations && j !in rows ==> db.invitations[j].token == after.invitations[j].token != token;
    }
    forall i <- after.invitations, j <- after.invitations
      | after.invitations[i].school == after.invitations[j].school && after.invitations[i].email == after.invitations[j].email
      ensures i == j
    {
      if rows == {} {
        assert i in db.invitations ==> i !in rows && db.invitations[i] == after.invitations[i];
        assert j in db.invitations ==> j !in rows && db.invitations[j] == after.invitations[j];
      }
    }
  }

  lemma UpsertKeeps(w: World, p: nat, school: Id, email: string, token: string, expiresAt: Time)
    requires Safe(w) && Upsert(w.db, school, email, token, expiresAt).Ok?
    ensures Safe(World(Upsert(w.db, school, email, token, expiresAt).value, w.pending - {p}))
  {
    UpsertKeysUnique(w.db, school, email, token, expiresAt);
    hide KeysUnique, TokenTaken;
  }

  lemma CommitKeeps(w: World, p: nat, id: Id, seen: Invitation, name: string, now: Time)
    requires Safe(w) && Commit(w.db, id, seen, name, now).Ok?
    requires id in w.db.invitations ==> w.db.invitations[id].email == seen.email
    ensures Safe(World(Commit(w.db, id, seen, name, now).value, w.pending - {p}))
  {
    var db := w.db;
    var after := Commit(db, id, seen, name, now).value;
    assert after.users[db.nextId].email == seen.email;
    forall i <- after.invitations | after.invitations[i].acceptedAt.Some?
      ensures HasAccount(after, after.invitations[i].email)
    {
      if i != id {
        var u :| u in db.users && db.users[u].email == db.invitations[i].email;
        assert after.users[u].email == db.invitations[i].email;
      }
    }
  }

  lemma InsertKeeps(w: World, p: nat, account: Account)
    requires Safe(w) && InsertAccount(w.db, account).Ok?
    ensures Safe(World(InsertAccount(w.db, account).value, w.pending - {p}))
  {
    var db := w.db;
    var after := InsertAccount(db, account).value;
    forall i <- after.invitations | after.invitations[i].acceptedAt.Some?
      ensures HasAccount(after, after.invitations[i].email)
    {
      var u :| u in db.users && db.users[u].email == db.invitations[i].email;
      assert after.users[u].email == db.invitations[i].email;
    }
  }

  lemma TakeKeeps(w: World, step: Step)
    requires Safe(w)
    ensures Safe(Take(w, step).world)
  {
    match step
    case DoUpsert(p) =>
      if p in w.pending && w.pending[p].Inviting? {
        var q := w.pending[p];
        if Upsert(w.db, q.school, q.email, q.token, q.expiresAt).Ok? {
          UpsertKeeps(w, p, q.school, q.email, q.token, q.expiresAt);
        }
      }
    case DoCommit(p, now) =>
      if p in w.pending && w.pending[p].Accepting? {
        var q := w.pending[p];
        if Commit(w.db, q.id, q.seen, q.name, now).Ok? {
          CommitKeeps(w, p, q.id, q.seen, q.name, now);
        }
      }
    case DoInsert(p) =>
      if p in w.pending && w.pending[p].Creating? && InsertAccount(w.db, w.pending[p].account).Ok? {
        InsertKeeps(w, p, w.pending[p].account);
      }
    case _ =>
  }

  /** Under every interleaving: no two accounts share an email, invitations keep their unique keys, and an accepted
      invitation has an account with its email. */
  lemma {:induction false} RunIsSafe(steps: seq<Step>)
    ensures Safe(Run(steps))
  {
    if steps != [] {
      RunIsSafe(steps[..|steps| - 1]);
      TakeKeeps(Run(steps[..|steps| - 1]), steps[|steps| - 1]);
    }
  }

  // ----- Addresses -----

  ghost predicate Normal(email: string) {
    Normalise(email) == email
  }

  ghost predicate AddressesNormal(w: World) {
    && (forall u <- w.db.users :: Normal(w.db.users[u].email))
    && (forall i <- w.db.invitations :: Normal(w.db.invitations[i].email))
    && (forall p <- w.pending ::
          match w.pending[p]
          case Inviting(_, email, _, _) => Normal(email)
          case Accepting(_, seen, _) => Normal(seen.email)
          case Creating(account) => Normal(account.email))
  }

  lemma TakeKeepsNormal(w: World, step: Step)
    requires AddressesNormal(w)
    ensures AddressesNormal(Take(w, step).world)
  {
    hide Normalise, HasAccount, TokenTaken;
    match step
    case CheckInvite(_, _, email, _, _) => NormaliseTwice(email);
    case CheckCreate(_, account) => NormaliseTwice(account.email);
    case _ =>
  }

  lemma {:induction false} RunIsNormal(steps: seq<Step>)
    ensures AddressesNormal(Run(steps))
  {
    if steps != [] {
      RunIsNormal(steps[..|steps| - 1]);
      TakeKeepsNormal(Run(steps[..|steps| - 1]), steps[|steps| - 1]);
    }
  }

  /** One account per address, however it is typed: case and surrounding blanks do not make a second one. */
  lemma OneAccountHoweverTyped(steps: seq<Step>, u: Id, v: Id)
    requires var db := Run(steps).db;
      u in db.users && v in db.users && Normalise(db.users[u].email) == Normalise(db.users[v].email)
    ensures u == v
  {
    RunIsSafe(steps);
    RunIsNormal(steps);
    assert Normal(Run(steps).db.users[u].email) && Normal(Run(steps).db.users[v].email);
  }

  /** An address is written down without the blanks around it and in lower case, so two are the same exactly when they read
      the same that way. */
  lemma NormaliseIs(a: string, b: string)
    ensures forall s, t :: Trimmed(a, s, WHITESPACE) && Trimmed(b, t, WHITESPACE) ==>
      Normalise(a) == Lower(s) && (Normalise(a) == Normalise(b) <==> Lower(s) == Lower(t))
  {
    forall s, t | Trimmed(a, s, WHITESPACE) && Trimmed(b, t, WHITESPACE)
      ensures Normalise(a) == Lower(s) && Normalise(b) == Lower(t)
    {
      TrimmedIsTrim(a, s);
      TrimmedIsTrim(b, t);
    }
  }

  // ----- What each step answers -----

  predicate AddressTaken(db: Db, email: string) {
    exists u :: u in db.users && db.users[u].email == Normalise(email)
  }

  /** A link opens an accept if and only if its row is there with that very token, unaccepted, and not past its last moment.
      Every other link is a bad link, and changes nothing. */
  lemma LinkOpensIff(w: World, p: nat, id: Id, token: string, name: string, now: Time)
    requires p !in w.pending
    ensures var outcome := Take(w, FindInvite(p, id, token, name, now));
      && (outcome.error.None? <==>
            && id in w.db.invitations && w.db.invitations[id].token == token
            && w.db.invitations[id].acceptedAt.None? && now <= w.db.invitations[id].expiresAt)
      && (outcome.error.None? ==>
            outcome.world == World(w.db, w.pending[p := Accepting(id, w.db.invitations[id], name)]))
      && (outcome.error.Some? ==> outcome == Outcome(w, Some(NotFound)))
  {
  }

  /** A check lets an invitation, or a new account, go on if and only if nobody has the address, however it was typed. */
  lemma CheckPassesIff(w: World, p: nat, school: Id, token: string, expiresAt: Time, account: Account)
    requires p !in w.pending
    ensures var outcome := Take(w, CheckInvite(p, school, account.email, token, expiresAt));
      if AddressTaken(w.db, account.email) then outcome == Outcome(w, Some(Conflict(EmailTaken)))
      else outcome == Outcome(
             World(w.db, w.pending[p := Inviting(school, Normalise(account.email), token, expiresAt)]), None)
    ensures var outcome := Take(w, CheckCreate(p, account));
      if AddressTaken(w.db, account.email) then outcome == Outcome(w, Some(Conflict(EmailTaken)))
      else outcome == Outcome(
             World(w.db, w.pending[p := Creating(account.(email := Normalise(account.email)))]), None)
  {
    hide Normalise;
  }

  /** The written invitation is an open one with the new token and term, for a tutor if it is the first of that address to
      that school; no other row moves, and it is refused if and only if another row holds the token. */
  lemma InvitationIsStored(w: World, p: nat)
    requires Safe(w) && p in w.pending && w.pending[p].Inviting?
    ensures var q, outcome := w.pending[p], Take(w, DoUpsert(p));
      && outcome.world.pending == w.pending - {p}
      && (outcome.error.Some? <==>
            exists i :: i in w.db.invitations && w.db.invitations[i].token == q.token
                        && !(w.db.invitations[i].school == q.school && w.db.invitations[i].email == q.email))
      && (outcome.error.Some? ==> outcome.world.db == w.db)
      && (outcome.error.None? ==>
            exists i :: Invited(w.db, outcome.world.db, i, q.school, q.email, q.token, q.expiresAt))
  {
    var q := w.pending[p];
    var rows := RowFor(w.db, q.school, q.email);
    if Upsert(w.db, q.school, q.email, q.token, q.expiresAt).Ok? {
      var after := Take(w, DoUpsert(p)).world.db;
      if rows == {} {
        forall i <- w.db.invitations ensures !(w.db.invitations[i].school == q.school && w.db.invitations[i].email == q.email) {
          assert i !in rows;
        }
        assert Invited(w.db, after, w.db.nextId, q.school, q.email, q.token, q.expiresAt);
      } else {
        var i :| i in rows;
        forall j <- rows ensures j == i {
          assert w.db.invitations[i].school == w.db.invitations[j].school
              && w.db.invitations[i].email == w.db.invitations[j].email;
        }
        assert Invited(w.db, after, i, q.school, q.email, q.token, q.expiresAt);
      }
    }
  }

  ghost predicate Invited(
    before: Db, after: Db, i: Id, school: Id, email: string, token: string, expiresAt: Time)
  {
    && after.users == before.users && i in after.invitations
    && after.invitations == before.invitations[i := after.invitations[i]]
    && var row := after.invitations[i];
    && row.school == school && row.email == email && row.token == token && row.expiresAt == expiresAt && row.acceptedAt.None?
    && (i in before.invitations ==> before.invitations[i].school == school && before.invitations[i].email == email
                                    && row.role == before.invitations[i].role)
    && (i !in before.invitations ==>
          row.role == Books.Tutor
          && forall j <- before.invitations ::
               !(before.invitations[j].school == school && before.invitations[j].email == email))
  }

  /** A revoked invitation is gone, and it alone; a new account is added, and it alone; whatever is abandoned leaves nothing. */
  lemma OtherStepsAnswer(w: World, p: nat, id: Id, school: Id)
    requires KeysUnique(w.db)
    ensures var outcome := Take(w, Revoke(id, school));
      if id in w.db.invitations && w.db.invitations[id].school == school
      then outcome == Outcome(w.(db := w.db.(invitations := w.db.invitations - {id})), None)
      else outcome == Outcome(w, Some(NotFound))
    ensures p in w.pending && w.pending[p].Creating? ==>
      var outcome, account := Take(w, DoInsert(p)), w.pending[p].account;
      if exists u :: u in w.db.users && w.db.users[u].email == account.email
      then outcome == Outcome(World(w.db, w.pending - {p}), Some(Conflict(EmailTaken)))
      else outcome == Outcome(World(w.db.(users := w.db.users[w.db.nextId := account], nextId := w.db.nextId + 1),
                                    w.pending - {p}), None)
    ensures Take(w, Abandon(p)) == Outcome(World(w.db, w.pending - {p}), None)
  {
    hide KeysUnique;
  }

  // ----- Accepting -----

  /** In a safe state an accept goes through exactly when its row is still there and unclaimed and nobody has the email.
      It then adds one account, carrying the row's own email, school and role, and marks that row and no other. A failed
      accept leaves both tables as they were. */
  lemma AcceptIff(w: World, p: nat, now: Time)
    requires Safe(w) && p in w.pending && w.pending[p].Accepting?
    ensures var q := w.pending[p];
      var before := w.db;
      var outcome := Take(w, DoCommit(p, now));
      && (outcome.error.None? <==>
            q.id in before.invitations && before.invitations[q.id].acceptedAt.None?
            && !HasAccount(before, before.invitations[q.id].email))
      && (outcome.error.None? ==>
            var row := before.invitations[q.id];
            && outcome.world.db.users == before.users[before.nextId := Account(row.email, q.name, row.role, row.school)]
            && before.nextId !in before.users
            && outcome.world.db.invitations == before.invitations[q.id := row.(acceptedAt := Some(now))])
      && (outcome.error.Some? ==> outcome.world.db == before)
  {
    var q := w.pending[p];
    if q.id in w.db.invitations {
      var claimed := w.db.(invitations := w.db.invitations[q.id := w.db.invitations[q.id].(acceptedAt := Some(now))]);
      assert HasAccount(claimed, q.seen.email) <==> HasAccount(w.db, q.seen.email);
    }
  }

  /** The step found the invitation a request is accepting: there, with its own token, unaccepted, and not past its term. */
  ghost predicate FoundAt(steps: seq<Step>, n: nat, p: nat, accepting: Pending) {
    && n < |steps| && steps[n].FindInvite? && steps[n].p == p && accepting.Accepting?
    && var before := Run(steps[..n]).db.invitations;
    && steps[n].id == accepting.id && accepting.id in before && before[accepting.id] == accepting.seen && steps[n].name == accepting.name
    && accepting.seen.token == steps[n].token && accepting.seen.acceptedAt.None? && steps[n].now <= accepting.seen.expiresAt
  }

  /** Whatever is being accepted was found so by a step of that very request. */
  lemma {:induction false} AcceptingWasFound(steps: seq<Step>, p: nat)
    requires p in Run(steps).pending && Run(steps).pending[p].Accepting?
    ensures exists n: nat :: FoundAt(steps, n, p, Run(steps).pending[p])
  {
    if steps != [] {
      var front, last := steps[..|steps| - 1], steps[|steps| - 1];
      var w := Run(front);
      hide Take;
      if p in w.pending && w.pending[p] == Run(steps).pending[p] {
        AcceptingWasFound(front, p);
        var n: nat :| FoundAt(front, n, p, w.pending[p]);
        assert front[..n] == steps[..n];
        assert FoundAt(steps, n, p, Run(steps).pending[p]);
      } else {
        PendingComesFrom(w, last, p);
        LinkOpensIff(w, p, last.id, last.token, last.name, last.now);
        assert FoundAt(steps, |front|, p, Run(steps).pending[p]);
      }
    }
  }

  /** Only finding an invitation starts an accept, and nothing changes one. */
  lemma PendingComesFrom(w: World, step: Step, p: nat)
    requires var after := Take(w, step).world.pending;
      p in after && after[p].Accepting? && !(p in w.pending && w.pending[p] == after[p])
    ensures p !in w.pending && step.FindInvite? && step.p == p && Take(w, step).error.None?
  {
  }

  /** Over every interleaving: an account made by an accept goes back to a step of the same request that found the invitation
      open, with the very token, and in time; it carries that invitation's address, school and role. */
  lemma AcceptedInTime(steps: seq<Step>, p: nat, now: Time)
    requires p in Run(steps).pending && Run(steps).pending[p].Accepting?
    requires Take(Run(steps), DoCommit(p, now)).error.None?
    ensures var before, q := Run(steps).db, Run(steps).pending[p];
      && (exists n: nat :: FoundAt(steps, n, p, q))
      && Take(Run(steps), DoCommit(p, now)).world.db.users
         == before.users[before.nextId := Account(q.seen.email, q.name, q.seen.role, q.seen.school)]
  {
    AcceptingWasFound(steps, p);
    RunIsSafe(steps);
    hide Run, Safe;
  }

  // ----- One account per email -----

  /** Whether a step gives an email an account. */
  function Creates(w: World, step: Step, email: string): nat {
    var account := if step.DoCommit? && step.p in w.pending && w.pending[step.p].Accepting?
                   then Some(w.pending[step.p].seen.email)
                   else if step.DoInsert? && step.p in w.pending && w.pending[step.p].Creating?
                   then Some(w.pending[step.p].account.email)
                   else None;
    if Take(w, step).error.None? && account == Some(email) then 1 else 0
  }

  function TimesCreated(steps: seq<Step>, email: string): nat {
    if steps == [] then 0
    else
      var front := steps[..|steps| - 1];
      TimesCreated(front, email) + Creates(Run(front), steps[|steps| - 1], email)
  }

  function AccountsOf(db: Db, email: string): set<Id> {
    set u | u in db.users && db.users[u].email == email
  }

  lemma StepCountsAccounts(w: World, step: Step, email: string)
    requires Safe(w)
    ensures |AccountsOf(Take(w, step).world.db, email)| == |AccountsOf(w.db, email)| + Creates(w, step, email)
  {
    if step.DoCommit? || step.DoInsert? {
      CreationCountsAccounts(w, step, email);
    } else {
      OthersCreateNobody(w, step);
    }
    hide Take, Creates, Safe;
  }

  lemma OthersCreateNobody(w: World, step: Step)
    requires !step.DoCommit? && !step.DoInsert?
    ensures Take(w, step).world.db.users == w.db.users
  {
  }

  /** The table gains the new account and nothing else. */
  lemma InsertCounts(db: Db, account: Account, email: string)
    requires (forall u <- db.users :: u < db.nextId) && InsertAccount(db, account).Ok?
    ensures |AccountsOf(InsertAccount(db, account).value, email)|
         == |AccountsOf(db, email)| + if account.email == email then 1 else 0
  {
    var before, after := AccountsOf(db, email), AccountsOf(InsertAccount(db, account).value, email);
    assert db.nextId !in before;
    assert after == if account.email == email then before + {db.nextId} else before;
  }

  lemma CreationCountsAccounts(w: World, step: Step, email: string)
    requires Safe(w) && (step.DoCommit? || step.DoInsert?)
    ensures |AccountsOf(Take(w, step).world.db, email)| == |AccountsOf(w.db, email)| + Creates(w, step, email)
  {
    var db := w.db;
    hide AccountsOf, AcceptedHaveAccounts, SnapshotsAgree;
    if step.p in w.pending {
      var q := w.pending[step.p];
      if step.DoCommit? && q.Accepting? && q.id in db.invitations {
        var claimed := db.(invitations := db.invitations[q.id := db.invitations[q.id].(acceptedAt := Some(step.now))]);
        SameUsersSameAccounts(db, claimed, email);
        if Commit(db, q.id, q.seen, q.name, step.now).Ok? {
          InsertCounts(claimed, Account(q.seen.email, q.name, q.seen.role, q.seen.school), email);
        }
      }
      if step.DoInsert? && q.Creating? && InsertAccount(db, q.account).Ok? {
        InsertCounts(db, q.account, email);
      }
    }
  }

  lemma SameUsersSameAccounts(db: Db, after: Db, email: string)
    requires after.users == db.users
    ensures AccountsOf(after, email) == AccountsOf(db, email)
  {
  }

  /** However many requests race, an email is given an account at most once in a whole run, and the accounts it has are
      exactly the ones it was given: a link cannot be redeemed twice. */
  lemma {:induction false} OneAccountPerEmail(steps: seq<Step>, email: string)
    ensures TimesCreated(steps, email) == |AccountsOf(Run(steps).db, email)| <= 1
  {
    RunIsSafe(steps);
    if steps != [] {
      var front := steps[..|steps| - 1];
      RunIsSafe(front);
      OneAccountPerEmail(front, email);
      StepCountsAccounts(Run(front), steps[|steps| - 1], email);
    }
    var accounts := AccountsOf(Run(steps).db, email);
    if accounts != {} {
      var u :| u in accounts;
      assert accounts == {u};
    } else {
      assert |accounts| == 0;
    }
  }

  // ----- Pending invitations to people who have joined -----

  /** No open invitation is addressed to somebody who already has an account. */
  ghost predicate Clear(db: Db) {
    forall i <- db.invitations :: db.invitations[i].acceptedAt.None? ==> !HasAccount(db, db.invitations[i].email)
  }

  /** An open invitation to the address, other than the one named. */
  predicate OpenElsewhere(db: Db, email: string, except: set<Id>) {
    exists i <- db.invitations ::
      i !in except && db.invitations[i].acceptedAt.None? && db.invitations[i].email == email
  }

  /** The check taken again at the write. An invitation: nobody has the address now. A new account: no open invitation to its
      address but the one being accepted. */
  predicate MeetsClearGuard(w: World, step: Step) {
    match step
    case DoUpsert(p) => Take(w, step).error.None? ==> !HasAccount(w.db, w.pending[p].email)
    case DoInsert(p) => Take(w, step).error.None? ==> !OpenElsewhere(w.db, w.pending[p].account.email, {})
    case DoCommit(p, _) => Take(w, step).error.None? ==> !OpenElsewhere(w.db, w.pending[p].seen.email, {w.pending[p].id})
    case _ => true
  }

  lemma UpsertKeepsClearIff(db: Db, school: Id, email: string, token: string, expiresAt: Time)
    requires Clear(db) && (forall i <- db.invitations :: i < db.nextId) && Upsert(db, school, email, token, expiresAt).Ok?
    ensures Clear(Upsert(db, school, email, token, expiresAt).value) <==> !HasAccount(db, email)
  {
    var after, rows := Upsert(db, school, email, token, expiresAt).value, RowFor(db, school, email);
    assert forall e :: HasAccount(after, e) <==> HasAccount(db, e);
    hide HasAccount, TokenTaken;
    if rows == {} {
      assert after.invitations[db.nextId].email == email;
    } else {
      var i :| i in rows;
      assert after.invitations[i].email == email && after.invitations[i].acceptedAt.None?;
    }
  }

  /** A new account: the open invitations to its address are the ones that are no longer clear. */
  lemma AccountKeepsClearIff(db: Db, account: Account)
    requires (forall u <- db.users :: u < db.nextId) && InsertAccount(db, account).Ok?
    ensures Clear(InsertAccount(db, account).value) <==> Clear(db) && !OpenElsewhere(db, account.email, {})
  {
    var after := InsertAccount(db, account).value;
    assert after.users[db.nextId].email == account.email;
    forall e: string ensures HasAccount(after, e) <==> HasAccount(db, e) || e == account.email {
      if HasAccount(db, e) {
        var u :| u in db.users && db.users[u].email == e;
        assert after.users[u].email == e;
      }
    }
    hide HasAccount;
  }

  /** An accepted invitation is not open any more. */
  lemma CommitKeepsClearIff(w: World, p: nat, now: Time)
    requires Safe(w) && Clear(w.db) && p in w.pending && w.pending[p].Accepting?
    requires Take(w, DoCommit(p, now)).error.None?
    ensures Clear(Take(w, DoCommit(p, now)).world.db) <==> !OpenElsewhere(w.db, w.pending[p].seen.email, {w.pending[p].id})
  {
    var db, q := w.db, w.pending[p];
    var claimed := db.(invitations := db.invitations[q.id := db.invitations[q.id].(acceptedAt := Some(now))]);
    assert forall e :: HasAccount(claimed, e) <==> HasAccount(db, e);
    assert OpenElsewhere(claimed, q.seen.email, {}) <==> OpenElsewhere(db, q.seen.email, {q.id}) by {
      hide HasAccount;
      if OpenElsewhere(db, q.seen.email, {q.id}) {
        var i :| i in db.invitations && i != q.id
                 && db.invitations[i].acceptedAt.None? && db.invitations[i].email == q.seen.email;
        assert claimed.invitations[i] == db.invitations[i];
      }
    }
    AccountKeepsClearIff(claimed, Account(q.seen.email, q.name, q.seen.role, q.seen.school));
    hide HasAccount, OpenElsewhere;
  }

  /** One step of any kind, exactly. */
  lemma StepKeepsClearIff(w: World, step: Step)
    requires Safe(w) && Clear(w.db)
    ensures Clear(Take(w, step).world.db) <==> MeetsClearGuard(w, step)
  {
    hide OpenElsewhere, AcceptedHaveAccounts, TokenTaken;
    match step
    case DoUpsert(p) =>
      if Take(w, step).error.None? {
        var q := w.pending[p];
        UpsertKeepsClearIff(w.db, q.school, q.email, q.token, q.expiresAt);
      }
    case DoInsert(p) =>
      if Take(w, step).error.None? { AccountKeepsClearIff(w.db, w.pending[p].account); }
    case DoCommit(p, now) =>
      if Take(w, step).error.None? { CommitKeepsClearIff(w, p, now); }
    case _ =>
  }

  lemma NobodyIsClear()
    ensures Clear(EMPTY.db)
  {
  }

  /** Under every interleaving: no open invitation is ever addressed to somebody with an account if and only if every
      invitation is written while its address has none, and every account is made while no other open invitation is
      addressed to it. */
  lemma {:induction false} ClearThroughoutIff(steps: seq<Step>)
    ensures (forall n :: 0 <= n <= |steps| ==> Clear(Run(steps[..n]).db))
       <==> (forall n :: 0 <= n < |steps| ==> MeetsClearGuard(Run(steps[..n]), steps[n]))
  {
    NobodyIsClear();
    hide Clear, Take, Safe, MeetsClearGuard;
    assert steps[..|steps|] == steps;
    if steps != [] {
      var front, last := steps[..|steps| - 1], steps[|steps| - 1];
      assert forall n :: 0 <= n <= |front| ==> front[..n] == steps[..n];
      ClearThroughoutIff(front);
      RunIsSafe(front);
      if Clear(Run(front).db) { StepKeepsClearIff(Run(front), last); }
    }
  }

  /** Somebody accepts the first invitation between the check and the write of the second. */
  const REINVITED: seq<Step> := [
    CheckInvite(0, 7, "a", "first", 9), DoUpsert(0),
    CheckInvite(1, 7, "a", "second", 9),
    FindInvite(2, 0, "first", "A", 0), DoCommit(2, 0),
    DoUpsert(1)]

  const INVITED := World(Db(map[], map[0 := Invitation("a", "first", Books.Tutor, 7, 9, None)], 1), map[])
  const CHECKED := INVITED.(pending := map[1 := Inviting(7, "a", "second", 9)])
  const JOINED := CHECKED.(db := Db(
    map[1 := Account("a", "A", Books.Tutor, 7)], map[0 := Invitation("a", "first", Books.Tutor, 7, 9, Some(0))], 2))
  const REOPENED := World(
    JOINED.db.(invitations := map[0 := Invitation("a", "second", Books.Tutor, 7, 9, None)]), map[])

  lemma LetterIsNormal()
    ensures Normalise("a") == "a"
  {
    TrimByFixes("a", WHITESPACE);
    assert Lower("a") == "a";
  }

  lemma FirstIsInvited()
    ensures Take(Take(EMPTY, CheckInvite(0, 7, "a", "first", 9)).world, DoUpsert(0)).world == INVITED
  {
    LetterIsNormal();
    hide Normalise;
    assert RowFor(EMPTY.db, 7, "a") == {};
  }

  lemma SecondIsChecked()
    ensures Take(INVITED, CheckInvite(1, 7, "a", "second", 9)).world == CHECKED
  {
    LetterIsNormal();
    hide Normalise;
  }

  lemma FirstIsAccepted()
    ensures Take(Take(CHECKED, FindInvite(2, 0, "first", "A", 0)).world, DoCommit(2, 0)).world == JOINED
  {
    var found := Take(CHECKED, FindInvite(2, 0, "first", "A", 0)).world;
    assert found.pending - {2} == CHECKED.pending;
    assert CHECKED.db.invitations[0 := CHECKED.db.invitations[0].(acceptedAt := Some(0))] == JOINED.db.invitations;
    assert !HasAccount(CHECKED.db, "a");
  }

  lemma SecondIsWritten()
    ensures Take(JOINED, DoUpsert(1)).world == REOPENED
  {
    assert RowFor(JOINED.db, 7, "a") == {0};
    assert JOINED.pending - {1} == map[];
  }

  lemma RunOneMore(steps: seq<Step>, last: Step)
    ensures Run(steps + [last]) == Take(Run(steps), last).world
  {
    hide Take;
    assert (steps + [last])[..|steps|] == steps;
  }

  /** It does happen: the account is there, and so is an open invitation to it. */
  lemma ReinvitingCanRace()
    ensures var db := Run(REINVITED).db;
      && HasAccount(db, "a") && 0 in db.invitations
      && db.invitations[0].email == "a" && db.invitations[0].acceptedAt.None? && !Clear(db)
  {
    var a, b, c := CheckInvite(0, 7, "a", "first", 9), DoUpsert(0), CheckInvite(1, 7, "a", "second", 9);
    var d, e, f := FindInvite(2, 0, "first", "A", 0), DoCommit(2, 0), DoUpsert(1);
    assert REINVITED == [] + [a] + [b] + [c] + [d] + [e] + [f];
    RunOneMore([], a);
    RunOneMore([] + [a], b);
    RunOneMore([] + [a] + [b], c);
    RunOneMore([] + [a] + [b] + [c], d);
    RunOneMore([] + [a] + [b] + [c] + [d], e);
    RunOneMore([] + [a] + [b] + [c] + [d] + [e], f);
    hide Run, Take, Clear;
    FirstIsInvited();
    SecondIsChecked();
    FirstIsAccepted();
    SecondIsWritten();
    AccountIsThere();
  }

  lemma AccountIsThere()
    ensures HasAccount(REOPENED.db, "a") && !Clear(REOPENED.db)
  {
    assert REOPENED.db.users[1].email == "a";
    assert HasAccount(REOPENED.db, "a");
    assert 0 in REOPENED.db.invitations && REOPENED.db.invitations[0].acceptedAt.None?;
  }

  // ----- The tables, updated in place -----

  ghost predicate Did<T>(before: Db, after: Db, answer: Result<T>, want: Result<Db>) {
    match want
    case Ok(db) => answer.Ok? && after == db
    case Err(e) => answer == Err(e) && after == before
  }

  class Tables {
    var users: map<Id, Account>
    var invitations: map<Id, Invitation>
    var nextId: Id

    function State(): Db
      reads this
    {
      Db(users, invitations, nextId)
    }

    constructor ()
      ensures State() == EMPTY.db
    {
      users, invitations, nextId := map[], map[], 0;
    }

    method UpsertInvitation(school: Id, email: string, token: string, expiresAt: Time) returns (r: Result<()>)
      modifies this
      ensures Did(old(State()), State(), r, Upsert(old(State()), school, email, token, expiresAt))
    {
      var rows := RowFor(State(), school, email);
      if TokenTaken(State(), token, rows) {
        return Err(Conflict(KeyTaken));
      }
      if rows == {} {
        invitations := invitations[nextId := Invitation(email, token, Books.Tutor, school, expiresAt, None)];
        nextId := nextId + 1;
      } else {
        invitations := map i | i in invitations ::
          if i in rows then invitations[i].(token := token, expiresAt := expiresAt, acceptedAt := None)
          else invitations[i];
      }
      return Ok(());
    }

    method RevokeInvitation(id: Id, school: Id) returns (r: Result<()>)
      modifies this
      ensures Did(old(State()), State(), r, Delete(old(State()), id, school))
    {
      if id !in invitations || invitations[id].school != school {
        return Err(NotFound);
      }
      invitations := invitations - {id};
      return Ok(());
    }

    method CreateAccount(account: Account) returns (r: Result<()>)
      modifies this
      ensures Did(old(State()), State(), r, InsertAccount(old(State()), account))
    {
      if HasAccount(State(), account.email) {
        return Err(Conflict(EmailTaken));
      }
      users := users[nextId := account];
      nextId := nextId + 1;
      return Ok(());
    }

    /** The transaction: a conditional claim, then the account; a failed account rolls the claim back. */
    method AcceptTransaction(id: Id, seen: Invitation, name: string, now: Time) returns (r: Result<()>)
      modifies this
      ensures Did(old(State()), State(), r, Commit(old(State()), id, seen, name, now))
    {
      var saved := invitations;
      var claimed := 0;
      if id in invitations && invitations[id].acceptedAt.None? {
        invitations := invitations[id := invitations[id].(acceptedAt := Some(now))];
        claimed := 1;
      }
      if claimed == 0 {
        return Err(BadRequest);
      }
      r := CreateAccount(Account(seen.email, name, seen.role, seen.school));
      if r.Err? {
        invitations := saved;
      }
    }
  }
}

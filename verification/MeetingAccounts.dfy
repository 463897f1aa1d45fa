/** Connected meeting accounts: a stored refresh token against a provider that may rotate it, or fail, at any point. */
module MeetingAccounts {
  import opened Foundations
  import opened MeetingProviders
  import UserConfig

  /** Tokens are told apart by number; the provider never issues a number twice. */
  type Token = nat

  /** Authenticated encryption: the sealed token opens under the key that sealed it and under no other. */
  datatype Sealed = Sealed(key: nat, token: Token)

  function Decrypt(key: Option<nat>, s: Sealed): Option<Token> {
    if key == Some(s.key) then Some(s.token) else None
  }

  datatype Seat = Seat(user: Id, provider: Provider)

  datatype Row = Row(refresh: Sealed, access: Option<Sealed>, expiresAt: Option<Time>, accountLabel: Option<string>)

  /** What a deployment is given: a key to seal with, the providers it has credentials for, and an address of its own. Any of
      it may change from one deployment to the next. */
  datatype Setup = Setup(key: Option<nat>, configured: set<Provider>, hasAddress: bool)

  /** What the application holds. */
  datatype Server = Server(rows: map<Seat, Row>, setup: Setup)

  /** What the provider knows: the refresh token it accepts for each seat, and when each access token ends. */
  datatype Partner = Partner(grants: map<Seat, Token>, issued: nat, lives: map<Token, Time>)

  datatype World = World(server: Server, partner: Partner)

  datatype Outcome<+T> = Outcome(world: World, answer: Result<T>)

  datatype TokenSet = TokenSet(accessToken: Token, refreshToken: Option<Token>, expiresIn: nat)

  const EXPIRY_SLACK_MS := 60000
  const DEFAULT_LIFE_S := 3600

  predicate IsConnectable(provider: Provider) {
    provider == Zoom || provider == GoogleMeet
  }

  /** The provider has credentials here and there is a key to seal with. */
  predicate Ready(server: Server, provider: Provider) {
    IsConnectable(provider) && provider in server.setup.configured && server.setup.key.Some?
  }

  function ExpiryOf(now: Time, expiresIn: nat): Time {
    now + 1000 * expiresIn
  }

  // ----- The provider -----

  /** How a refresh (section 6 of RFC 6749) goes: turned down, lost with or without the token rotated, or answered. */
  datatype Reply =
    | Refuses
    | Fails(rotated: bool)
    | Answers(rotated: bool, declared: Option<nat>)

  function Rotate(partner: Partner, seat: Seat): Partner {
    partner.(grants := partner.grants[seat := partner.issued], issued := partner.issued + 1)
  }

  function IssueAccess(partner: Partner, now: Time, expiresIn: nat): Partner {
    partner.(issued := partner.issued + 1, lives := partner.lives[partner.issued := ExpiryOf(now, expiresIn)])
  }

  /** Only the latest refresh token is accepted. None where the caller gets no tokens. */
  function Refresh(partner: Partner, seat: Seat, token: Token, now: Time, reply: Reply): (Partner, Option<TokenSet>) {
    if seat !in partner.grants || partner.grants[seat] != token || reply.Refuses? then (partner, None)
    else
      var turned := if reply.rotated then Rotate(partner, seat) else partner;
      match reply
      case Answers(rotated, declared) =>
        var expiresIn := declared.GetOr(DEFAULT_LIFE_S);
        (IssueAccess(turned, now, expiresIn),
         Some(TokenSet(turned.issued, if rotated then Some(turned.grants[seat]) else None, expiresIn)))
      case _ => (turned, None)
  }

  // ----- The service -----

  function Usable(server: Server, row: Row, now: Time): Option<Token> {
    var cached := if row.access.None? then None else Decrypt(server.setup.key, row.access.value);
    if cached.Some? && row.expiresAt.Some? && row.expiresAt.value - EXPIRY_SLACK_MS > now then cached else None
  }

  /** Drops the row; a delete that fails is shrugged off. */
  function Forget(w: World, seat: Seat, dbUp: bool): World {
    if dbUp then w.(server := w.server.(rows := w.server.rows - {seat})) else w
  }

  /** `dbUp` says whether the database takes the write that follows the exchange. */
  function AccessTokenFor(w: World, seat: Seat, now: Time, reply: Reply, dbUp: bool): Outcome<Option<Token>>
    requires seat in w.server.rows
  {
    var row := w.server.rows[seat];
    var cached := Usable(w.server, row, now);
    if cached.Some? then Outcome(w, Ok(cached))
    else
      var refresh := Decrypt(w.server.setup.key, row.refresh);
      if refresh.None? || !Ready(w.server, seat.provider) then Outcome(Forget(w, seat, dbUp), Ok(None))
      else
        var (partner, tokens) := Refresh(w.partner, seat, refresh.value, now, reply);
        var after := w.(partner := partner);
        match tokens
        case None => Outcome(Forget(after, seat, dbUp), Ok(None))
        case Some(t) =>
          if !dbUp then Outcome(after, Err(ServerError))
          else
            var key := w.server.setup.key.value;
            var written := Row(
              if t.refreshToken.None? then row.refresh else Sealed(key, t.refreshToken.value),
              Some(Sealed(key, t.accessToken)), Some(ExpiryOf(now, t.expiresIn)), row.accountLabel);
            Outcome(after.(server := w.server.(rows := w.server.rows[seat := written])), Ok(Some(t.accessToken)))
  }

  /** `room` is what the provider's room endpoint gives, None where it fails. */
  function CreateRoom(w: World, seat: Seat, now: Time, reply: Reply, dbUp: bool, room: Option<string>)
    : Outcome<Option<string>>
  {
    if !IsConnectable(seat.provider) || seat !in w.server.rows then Outcome(w, Ok(None))
    else
      var got := AccessTokenFor(w, seat, now, reply, dbUp);
      match got.answer
      case Err(e) => Outcome(got.world, Err(e))
      case Ok(token) => Outcome(got.world, Ok(if token.None? then None else room))
  }

  /** How a code exchange goes; `Lost` is a grant whose answer never arrives. `accountLabel` is how the provider describes the
      account, if it does. */
  datatype ConnectReply = Denied | Lost | Granted(lasting: bool, declared: Option<nat>, accountLabel: Option<string>)

  /** The provider is asked at all: it is configured, the signed state holds, and there is an address to come back to. */
  predicate Asks(server: Server, seat: Seat, stateValid: bool) {
    Ready(server, seat.provider) && stateValid && server.setup.hasAddress
  }

  function Connect(w: World, seat: Seat, stateValid: bool, now: Time, reply: ConnectReply, dbUp: bool): Outcome<()> {
    if !Asks(w.server, seat, stateValid) then Outcome(w, Err(BadRequest))
    else
      match reply
      case Denied => Outcome(w, Err(ServerError))
      case Lost => Outcome(w.(partner := Rotate(w.partner, seat)), Err(ServerError))
      case Granted(lasting, declared, accountLabel) =>
        if !lasting then Outcome(w, Err(BadRequest))
        else
          var expiresIn := declared.GetOr(DEFAULT_LIFE_S);
          var turned := Rotate(w.partner, seat);
          var key := w.server.setup.key.value;
          var row :=
            Row(Sealed(key, turned.grants[seat]), Some(Sealed(key, turned.issued)), Some(ExpiryOf(now, expiresIn)), accountLabel);
          if !dbUp then Outcome(w.(partner := IssueAccess(turned, now, expiresIn)), Err(ServerError))
          else
            Outcome(World(w.server.(rows := w.server.rows[seat := row]), IssueAccess(turned, now, expiresIn)), Ok(()))
  }

  function Disconnect(w: World, seat: Seat): Outcome<()> {
    if seat !in w.server.rows then Outcome(w, Err(NotFound))
    else Outcome(w.(server := w.server.(rows := w.server.rows - {seat})), Ok(()))
  }

  // ----- Runs -----

  datatype Step =
    | DoConnect(seat: Seat, stateValid: bool, now: Time, answer: ConnectReply, dbUp: bool)
    | DoDisconnect(seat: Seat)
    | Book(seat: Seat, now: Time, reply: Reply, dbUp: bool, room: Option<string>)
    | RevokeAtProvider(seat: Seat)
    | Redeploy(setup: Setup)

  function Take(w: World, step: Step): World {
    match step
    case DoConnect(seat, stateValid, now, answer, dbUp) => Connect(w, seat, stateValid, now, answer, dbUp).world
    case DoDisconnect(seat) => Disconnect(w, seat).world
    case Book(seat, now, reply, dbUp, room) => CreateRoom(w, seat, now, reply, dbUp, room).world
    case RevokeAtProvider(seat) => w.(partner := w.partner.(grants := w.partner.grants - {seat}))
    case Redeploy(setup) => w.(server := w.server.(setup := setup))
  }

  const EMPTY := World(Server(map[], Setup(None, {}, false)), Partner(map[], 0, map[]))

  function Run(steps: seq<Step>): World {
    if steps == [] then EMPTY else Take(Run(steps[..|steps| - 1]), steps[|steps| - 1])
  }

  /** The booking's refresh reaches the provider with a token it accepts. */
  predicate Exchanges(w: World, seat: Seat, now: Time, reply: Reply) {
    && seat in w.server.rows && Ready(w.server, seat.provider)
    && Usable(w.server, w.server.rows[seat], now).None?
    && seat in w.partner.grants && Decrypt(w.server.setup.key, w.server.rows[seat].refresh) == Some(w.partner.grants[seat])
    && !reply.Refuses?
  }

  /** The steps that take a seat's grant away from its row: the person revokes it, a second connection's answer is lost, or
      a token is granted or rotated and the database does not take the write. */
  predicate Strands(w: World, step: Step, seat: Seat) {
    match step
    case DoConnect(s, stateValid, _, answer, dbUp) =>
      s == seat && Asks(w.server, seat, stateValid) && (answer.Lost? || (answer.Granted? && answer.lasting && !dbUp))
    case Book(s, now, reply, dbUp, _) => s == seat && !dbUp && Exchanges(w, seat, now, reply) && reply.rotated
    case RevokeAtProvider(s) => s == seat
    case _ => false
  }

  /** A seat is stranded from such a step until it is connected again. */
  predicate Stranded(steps: seq<Step>, seat: Seat) {
    if steps == [] then false
    else
      var front, last := steps[..|steps| - 1], steps[|steps| - 1];
      var connected := last.DoConnect? && last.seat == seat
                       && Connect(Run(front), seat, last.stateValid, last.now, last.answer, last.dbUp).answer.Ok?;
      Strands(Run(front), last, seat) || (Stranded(front, seat) && !connected)
  }

  ghost predicate HoldsLatest(w: World, seat: Seat)
    requires seat in w.server.rows
  {
    seat in w.partner.grants && w.server.rows[seat].refresh.token == w.partner.grants[seat]
  }

  ghost predicate Tracked(w: World, seat: Seat, stranded: bool) {
    && (seat in w.partner.grants ==> w.partner.grants[seat] < w.partner.issued)
    && (seat in w.server.rows ==>
          w.server.rows[seat].refresh.token < w.partner.issued && (HoldsLatest(w, seat) <==> !stranded))
  }

  lemma TakeTracks(w: World, step: Step, seat: Seat, stranded: bool)
    requires Tracked(w, seat, stranded)
    ensures var connected := step.DoConnect? && step.seat == seat
                             && Connect(w, seat, step.stateValid, step.now, step.answer, step.dbUp).answer.Ok?;
      Tracked(Take(w, step), seat, Strands(w, step, seat) || (stranded && !connected))
  {
    hide Usable;
  }

  lemma {:induction false} RunTracks(steps: seq<Step>, seat: Seat)
    ensures Tracked(Run(steps), seat, Stranded(steps, seat))
  {
    if steps != [] {
      RunTracks(steps[..|steps| - 1], seat);
      TakeTracks(Run(steps[..|steps| - 1]), steps[|steps| - 1], seat, Stranded(steps[..|steps| - 1], seat));
      hide Take, Strands, Tracked, Connect;
    }
  }

  /** After every run, a stored row holds the provider's latest refresh token exactly when its seat is not stranded:
      rotating providers, non-rotating ones, lost answers and changes of key included. */
  lemma RowHoldsLatestIff(steps: seq<Step>, seat: Seat)
    requires seat in Run(steps).server.rows
    ensures HoldsLatest(Run(steps), seat) <==> !Stranded(steps, seat)
  {
    RunTracks(steps, seat);
  }

  /** A step that neither loses a connection's answer, nor fails a write, nor revokes. */
  predicate Calm(step: Step) {
    match step
    case DoConnect(_, _, _, answer, dbUp) => !answer.Lost? && dbUp
    case Book(_, _, _, dbUp, _) => dbUp
    case RevokeAtProvider(_) => false
    case _ => true
  }

  lemma {:induction false} CalmStrandsNobody(steps: seq<Step>, seat: Seat)
    requires forall n :: 0 <= n < |steps| ==> Calm(steps[n]) || (steps[n].RevokeAtProvider? && steps[n].seat != seat)
    ensures !Stranded(steps, seat)
  {
    if steps != [] {
      CalmStrandsNobody(steps[..|steps| - 1], seat);
      hide Exchanges, Run, Connect;
    }
  }

  /** Unless the person revoked it: with no connection lost and the database up, every row holds the latest token, even when
      exchanges fail after the provider has rotated. */
  lemma LatestUnlessRevoked(steps: seq<Step>, seat: Seat)
    requires seat in Run(steps).server.rows
    requires forall n :: 0 <= n < |steps| ==> Calm(steps[n]) || (steps[n].RevokeAtProvider? && steps[n].seat != seat)
    ensures HoldsLatest(Run(steps), seat)
  {
    CalmStrandsNobody(steps, seat);
    RowHoldsLatestIff(steps, seat);
  }

  /** Connecting a second time and losing the answer leaves the first token stored and the second one in force. */
  lemma LostAnswerStrands(user: Id, now: Time)
    ensures var seat := Seat(user, Zoom);
      var w := Run([Redeploy(Setup(Some(0), {Zoom}, true)),
                    DoConnect(seat, true, now, Granted(true, None, None), true),
                    DoConnect(seat, true, now, Lost, true)]);
      seat in w.server.rows && !HoldsLatest(w, seat)
  {
    var seat, setup := Seat(user, Zoom), Setup(Some(0), {Zoom}, true);
    var a, b := Redeploy(setup), DoConnect(seat, true, now, Granted(true, None, None), true);
    var c := DoConnect(seat, true, now, Lost, true);
    assert [a, b, c][..2] == [a, b] && [a, b][..1] == [a] && [a][..0] == [];
    assert Run([a]) == World(Server(map[], setup), EMPTY.partner);
    var w := Run([a, b]);
    assert w.server.rows[seat].refresh.token == w.partner.grants[seat] == 0;
  }

  /** A connection survives whatever has happened to it: after any run, a readable row that is not stranded books a room as
      soon as the provider answers. */
  lemma NextLessonGetsItsRoom(steps: seq<Step>, seat: Seat, now: Time, rotated: bool, declared: Option<nat>, room: string)
    requires var w := Run(steps);
      && seat in w.server.rows && Ready(w.server, seat.provider) && !Stranded(steps, seat)
      && Decrypt(w.server.setup.key, w.server.rows[seat].refresh).Some?
    ensures CreateRoom(Run(steps), seat, now, Answers(rotated, declared), true, Some(room)).answer == Ok(Some(room))
  {
    RowHoldsLatestIff(steps, seat);
  }

  /** A booking never fails on the provider's account: the one error is a refresh that went through and could not be
      written back. Every other trouble gives no room. */
  lemma BookingFailsIff(w: World, seat: Seat, now: Time, reply: Reply, dbUp: bool, room: Option<string>)
    ensures CreateRoom(w, seat, now, reply, dbUp, room).answer.Err?
       <==> !dbUp && Exchanges(w, seat, now, reply) && reply.Answers?
  {
    hide Usable;
  }

  /** A failed refresh deletes the row, so that nothing goes on claiming to be connected. */
  lemma NoRoomTokenNoRow(w: World, seat: Seat, now: Time, reply: Reply)
    requires seat in w.server.rows && AccessTokenFor(w, seat, now, reply, true).answer == Ok(None)
    ensures seat !in AccessTokenFor(w, seat, now, reply, true).world.server.rows
  {
    hide Usable;
  }

  // ----- Access tokens -----

  /** A cached access token is noted with the moment the provider ends it. */
  ghost predicate CacheAgrees(w: World) {
    && (forall t <- w.partner.lives :: t < w.partner.issued)
    && forall seat <- w.server.rows ::
         var row := w.server.rows[seat];
         row.access.Some? ==>
           row.access.value.token in w.partner.lives && row.expiresAt == Some(w.partner.lives[row.access.value.token])
  }

  lemma TakeKeepsCache(w: World, step: Step)
    requires CacheAgrees(w)
    ensures CacheAgrees(Take(w, step))
  {
    match step
    case DoConnect(seat, stateValid, now, answer, dbUp) => ConnectKeepsCache(w, seat, stateValid, now, answer, dbUp);
    case Book(seat, now, reply, dbUp, room) => BookingKeepsCache(w, seat, now, reply, dbUp, room);
    case _ =>
  }

  lemma ConnectKeepsCache(w: World, seat: Seat, stateValid: bool, now: Time, reply: ConnectReply, dbUp: bool)
    requires CacheAgrees(w)
    ensures CacheAgrees(Connect(w, seat, stateValid, now, reply, dbUp).world)
  {
  }

  lemma BookingKeepsCache(w: World, seat: Seat, now: Time, reply: Reply, dbUp: bool, room: Option<string>)
    requires CacheAgrees(w)
    ensures CacheAgrees(CreateRoom(w, seat, now, reply, dbUp, room).world)
  {
    hide Usable;
  }

  lemma {:induction false} RunKeepsCache(steps: seq<Step>)
    ensures CacheAgrees(Run(steps))
  {
    if steps != [] {
      RunKeepsCache(steps[..|steps| - 1]);
      TakeKeepsCache(Run(steps[..|steps| - 1]), steps[|steps| - 1]);
      hide Take, CacheAgrees;
    }
  }

  /** After any run, the token a room is made with lives for more than a minute yet, or was issued for this very lesson. */
  lemma AccessTokensAreLive(steps: seq<Step>, seat: Seat, now: Time, reply: Reply, dbUp: bool)
    requires seat in Run(steps).server.rows
    ensures var got := AccessTokenFor(Run(steps), seat, now, reply, dbUp);
      got.answer.Ok? && got.answer.value.Some? ==>
        var token := got.answer.value.value;
        && token in got.world.partner.lives
        && (got.world.partner.lives[token] > now + EXPIRY_SLACK_MS || token >= Run(steps).partner.issued)
  {
    RunKeepsCache(steps);
  }

  /** A cached token that opens under the key in use and has more than a minute to live is handed out as it is, and nothing is
      asked of anybody; any other booking goes to the provider, or drops the row. */
  lemma CachedTokenIsUsed(w: World, seat: Seat, now: Time, reply: Reply, dbUp: bool)
    requires seat in w.server.rows
    ensures var row, got := w.server.rows[seat], AccessTokenFor(w, seat, now, reply, dbUp);
      && (CacheHolds(w, seat, now) ==> got == Outcome(w, Ok(Some(row.access.value.token))))
      && (!CacheHolds(w, seat, now) && got.answer.Ok? && got.answer.value.Some? ==>
            got.answer.value.value >= w.partner.issued && got.world.partner.issued > got.answer.value.value)
  {
  }

  predicate CacheHolds(w: World, seat: Seat, now: Time)
    requires seat in w.server.rows
  {
    var row := w.server.rows[seat];
    && row.access.Some? && w.server.setup.key == Some(row.access.value.key)
    && row.expiresAt.Some? && row.expiresAt.value > now + 60000
  }

  /** A refresh writes the row back with the grant now in force, the new token and its term, and the label it had; and it writes
      that row alone. */
  lemma RefreshIsStored(w: World, seat: Seat, now: Time, reply: Reply, dbUp: bool)
    requires seat in w.server.rows && !CacheHolds(w, seat, now)
    requires var got := AccessTokenFor(w, seat, now, reply, dbUp); got.answer.Ok? && got.answer.value.Some?
    ensures var got, old_ := AccessTokenFor(w, seat, now, reply, dbUp), w.server.rows[seat];
      && reply.Answers? && dbUp && seat in got.world.server.rows && seat in got.world.partner.grants
      && var row := got.world.server.rows[seat];
      && got.world.server == w.server.(rows := w.server.rows[seat := row])
      && row.accountLabel == old_.accountLabel && row.refresh.token == got.world.partner.grants[seat]
      && (reply.rotated ==> w.server.setup.key == Some(row.refresh.key)) && (!reply.rotated ==> row.refresh == old_.refresh)
      && row.access.Some? && row.access.value.token == got.answer.value.value
      && w.server.setup.key == Some(row.access.value.key)
      && row.expiresAt == Some(now + 1000 * if reply.declared.Some? then reply.declared.value else 3600)
  {
  }

  /** A room is made only for a stored connection to a provider that makes them, and only with a token; the answer is the room,
      nothing, or the one error. */
  lemma RoomIs(w: World, seat: Seat, now: Time, reply: Reply, dbUp: bool, room: Option<string>)
    ensures var got := CreateRoom(w, seat, now, reply, dbUp, room);
      if (seat.provider == Zoom || seat.provider == GoogleMeet) && seat in w.server.rows then
        var token := AccessTokenFor(w, seat, now, reply, dbUp);
        && got.world == token.world && (got.answer.Err? <==> token.answer.Err?)
        && (token.answer.Ok? ==> got.answer == Ok(if token.answer.value.Some? then room else None))
      else got == Outcome(w, Ok(None))
  {
    hide AccessTokenFor;
  }

  // ----- Connecting -----

  predicate MayConnect(server: Server, seat: Seat, stateValid: bool) {
    && stateValid && (seat.provider == Zoom || seat.provider == GoogleMeet) && seat.provider in server.setup.configured
    && server.setup.key.Some? && server.setup.hasAddress
  }

  /** A connection is made if and only if the state it comes back with holds, the deployment is ready for the provider, a lasting
      grant is given, and the database takes the row. Nothing else ever writes a row here, and without those first two the
      provider is not asked. */
  lemma ConnectsIff(w: World, seat: Seat, stateValid: bool, now: Time, reply: ConnectReply, dbUp: bool)
    ensures var got := Connect(w, seat, stateValid, now, reply, dbUp);
      && (got.answer.Ok? <==> MayConnect(w.server, seat, stateValid) && reply.Granted? && reply.lasting && dbUp)
      && (got.answer.Err? ==> got.world.server == w.server)
      && (!MayConnect(w.server, seat, stateValid) ==> got == Outcome(w, Err(BadRequest)))
      && (got.answer.Err? && MayConnect(w.server, seat, stateValid) ==>
            got.answer == Err(if reply.Granted? && !reply.lasting then BadRequest else ServerError))
  {
  }

  /** The row made holds the grant in force under the key in use, a token with its own term, and the label given. */
  lemma ConnectionIsStored(w: World, seat: Seat, stateValid: bool, now: Time, reply: ConnectReply, dbUp: bool)
    requires Connect(w, seat, stateValid, now, reply, dbUp).answer.Ok?
    ensures var after := Connect(w, seat, stateValid, now, reply, dbUp).world;
      && seat in after.server.rows && seat in after.partner.grants
      && var row := after.server.rows[seat];
      && after.server == w.server.(rows := w.server.rows[seat := row])
      && w.server.setup.key == Some(row.refresh.key) && row.refresh.token == after.partner.grants[seat]
      && row.access.Some? && w.server.setup.key == Some(row.access.value.key) && row.access.value.token in after.partner.lives
      && row.expiresAt == Some(now + 1000 * if reply.declared.Some? then reply.declared.value else 3600)
      && row.accountLabel == reply.accountLabel
  {
  }

  lemma DisconnectsIff(w: World, seat: Seat)
    ensures Disconnect(w, seat)
         == if seat in w.server.rows
            then Outcome(w.(server := w.server.(rows := w.server.rows - {seat})), Ok(())) else Outcome(w, Err(NotFound))
  {
  }

  // ----- The link of a lesson -----

  /** `created` is what `CreateRoom` gave; where it gave nothing, the settings do. */
  function MeetingFor(parse: Parser, settings: Option<Settings>, created: Option<string>, room: string): Option<Meeting> {
    if settings.None? then None
    else if created.Some? then Some(Meeting(settings.value.provider, created.value))
    else MeetingLinkFor(parse, settings, room)
  }

  /** Whatever the column holds, a lesson goes without a link exactly when the tutor teaches in a room, or reuses a room of
      which no address is kept while none could be made. The link is on the provider chosen: the room made there, or else the
      generated one, or the address kept. */
  lemma NoLinkIff(platform: UserConfig.Platform, column: UserConfig.Value, created: Option<string>, room: string)
    ensures var settings := UserConfig.Parse(platform, column).meeting;
      var link := MeetingFor(platform.parse, settings, created, room);
      && (link.None? <==>
            settings.None? || (settings.value.provider != Jitsi && created.None? && settings.value.roomUrl.None?))
      && (link.Some? ==> settings.Some? && link.value.provider == settings.value.provider)
      && (link.Some? ==>
            link.value.url == if created.Some? then created.value
                              else if settings.value.provider == Jitsi then "https://meet.jit.si/foxacademy-" + room
                              else settings.value.roomUrl.GetOr(""))
  {
    UserConfig.ParseIsValid(platform, column);
    hide MeetingRoomProblem, UserConfig.Parse;
  }

  // ----- The stored rows, updated in place -----

  class Accounts {
    var rows: map<Seat, Row>
    const setup: Setup

    function State(): Server
      reads this
    {
      Server(rows, setup)
    }

    constructor (setup: Setup)
      ensures State() == Server(map[], setup)
    {
      this.setup, rows := setup, map[];
    }

    method CompleteConnection(
        partner: Partner, seat: Seat, stateValid: bool, now: Time, reply: ConnectReply, dbUp: bool)
      returns (r: Result<()>, partner': Partner)
      modifies this
      ensures Outcome(World(State(), partner'), r)
           == Connect(World(old(State()), partner), seat, stateValid, now, reply, dbUp)
    {
      partner' := partner;
      if !Ready(State(), seat.provider) {
        return Err(BadRequest), partner';
      }
      if !stateValid || !setup.hasAddress {
        return Err(BadRequest), partner';
      }
      match reply {
        case Denied =>
          r := Err(ServerError);
        case Lost =>
          partner' := Rotate(partner, seat);
          r := Err(ServerError);
        case Granted(lasting, declared, accountLabel) =>
          if !lasting {
            return Err(BadRequest), partner';
          }
          var expiresIn := declared.GetOr(DEFAULT_LIFE_S);
          var turned, key := Rotate(partner, seat), setup.key.value;
          partner' := IssueAccess(turned, now, expiresIn);
          if !dbUp {
            return Err(ServerError), partner';
          }
          rows := rows[seat := Row(Sealed(key, turned.grants[seat]), Some(Sealed(key, turned.issued)),
                                   Some(ExpiryOf(now, expiresIn)), accountLabel)];
          r := Ok(());
      }
    }

    method DisconnectAccount(ghost partner: Partner, seat: Seat) returns (r: Result<()>)
      modifies this
      ensures Outcome(World(State(), partner), r) == Disconnect(World(old(State()), partner), seat)
    {
      var removed := if seat in rows then 1 else 0;
      rows := rows - {seat};
      if removed == 0 {
        return Err(NotFound);
      }
      return Ok(());
    }

    method TokenFor(partner: Partner, seat: Seat, now: Time, reply: Reply, dbUp: bool)
      returns (r: Result<Option<Token>>, partner': Partner)
      requires seat in rows
      modifies this
      ensures Outcome(World(State(), partner'), r) == AccessTokenFor(World(old(State()), partner), seat, now, reply, dbUp)
    {
      var row := rows[seat];
      partner' := partner;
      var cached := Usable(State(), row, now);
      if cached.Some? {
        return Ok(cached), partner';
      }
      var refresh := Decrypt(setup.key, row.refresh);
      var tokens: Option<TokenSet> := None;
      if refresh.Some? && Ready(State(), seat.provider) {
        var answer := Refresh(partner, seat, refresh.value, now, reply);
        partner', tokens := answer.0, answer.1;
      }
      if tokens.None? {
        if dbUp {
          rows := rows - {seat};
        }
        return Ok(None), partner';
      }
      var t := tokens.value;
      if !dbUp {
        return Err(ServerError), partner';
      }
      if t.refreshToken.Some? {
        row := row.(refresh := Sealed(setup.key.value, t.refreshToken.value));
      }
      rows := rows[seat := row.(access := Some(Sealed(setup.key.value, t.accessToken)),
                                expiresAt := Some(ExpiryOf(now, t.expiresIn)))];
      return Ok(Some(t.accessToken)), partner';
    }
  }
}

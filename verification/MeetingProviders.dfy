/** Which room addresses are acceptable, and which link a booked lesson gets. */
module MeetingProviders {
  import opened Foundations
  import opened Text

  datatype Provider = Zoom | GoogleMeet | Jitsi

  /** How a provider's links come about. */
  datatype LinkKind = PersonalRoom(hosts: seq<string>) | Generated

  function Rules(provider: Provider): LinkKind {
    match provider
    case Zoom => PersonalRoom(["zoom.us"])
    case GoogleMeet => PersonalRoom(["meet.google.com"])
    case Jitsi => Generated
  }

  /** What a URL parser makes of an address. The parser itself is a parameter: None where it refuses. */
  datatype Url = Url(protocol: string, username: string, password: string, hostname: string)
  type Parser = string -> Option<Url>

  datatype Settings = Settings(provider: Provider, roomUrl: Option<string>)

  datatype Problem = TakesNoRoom | TooLong | NotAnAddress | NotHttps | HasCredentials | WrongHost

  const MAX_ROOM_URL := 500

  // ----- Hosts -----

  predicate EndsWith(s: string, suffix: string) {
    |suffix| <= |s| && s[|s| - |suffix|..] == suffix
  }

  /** The allowed host itself, or anything that ends in a dot and the allowed host. */
  predicate IsHostOf(hostname: string, hosts: seq<string>) {
    var host := Lower(hostname);
    exists allowed <- hosts :: host == allowed || EndsWith(host, "." + allowed)
  }

  /** A name cut at its dots. */
  function Labels(name: string): (r: seq<string>)
    ensures r != []
  {
    if name == "" then [""]
    else
      var rest := Labels(name[1..]);
      if name[0] == '.' then [""] + rest else [[name[0]] + rest[0]] + rest[1..]
  }

  function Dotted(labels: seq<string>): string {
    if labels == [] then "" else if |labels| == 1 then labels[0] else labels[0] + "." + Dotted(labels[1..])
  }

  lemma DottedMore(first: string, rest: seq<string>)
    requires rest != []
    ensures Dotted([first] + rest) == first + "." + Dotted(rest)
  {
    assert ([first] + rest)[1..] == rest;
  }

  lemma Longer(c: char, front: string, dot: string, more: string)
    ensures [c] + (front + dot + more) == [c] + front + dot + more
  {
  }

  lemma DottedLonger(c: char, first: string, rest: seq<string>)
    ensures Dotted([[c] + first] + rest) == [c] + Dotted([first] + rest)
  {
    if rest == [] {
      assert [[c] + first] + rest == [[c] + first] && [first] + rest == [first];
    } else {
      DottedMore([c] + first, rest);
      DottedMore(first, rest);
      hide Dotted;
      Longer(c, first, ".", Dotted(rest));
    }
  }

  lemma {:induction false} DottedLabels(name: string)
    ensures Dotted(Labels(name)) == name
  {
    if name != "" {
      DottedLabels(name[1..]);
      var rest := Labels(name[1..]);
      assert name == [name[0]] + name[1..];
      hide Dotted;
      assert rest == [rest[0]] + rest[1..];
      if name[0] == '.' { DottedMore("", rest); } else { DottedLonger(name[0], rest[0], rest[1..]); }
    }
  }

  lemma {:induction false} LabelsOfJoined(front: string, back: string)
    ensures Labels(front + "." + back) == Labels(front) + Labels(back)
  {
    var whole := front + "." + back;
    if front == "" {
      assert whole[1..] == back;
    } else {
      assert whole[1..] == front[1..] + "." + back;
      LabelsOfJoined(front[1..], back);
    }
  }

  lemma {:induction false} DottedJoined(front: seq<string>, back: seq<string>)
    requires front != [] && back != []
    ensures Dotted(front + back) == Dotted(front) + "." + Dotted(back)
  {
    if |front| == 1 {
      assert (front + back)[1..] == back;
    } else {
      assert (front + back)[1..] == front[1..] + back;
      DottedJoined(front[1..], back);
    }
  }

  /** The last labels of `name` are those of `parent`: `name` is `parent` or a subdomain of it. */
  predicate Under(name: string, parent: string) {
    var ls, ps := Labels(name), Labels(parent);
    |ps| <= |ls| && ls[|ls| - |ps|..] == ps
  }

  lemma SuffixIsUnder(host: string, allowed: string)
    ensures host == allowed || EndsWith(host, "." + allowed) <==> Under(host, allowed)
  {
    if EndsWith(host, "." + allowed) {
      var front := host[..|host| - |allowed| - 1];
      assert host == front + "." + allowed;
      LabelsOfJoined(front, allowed);
    }
    if Under(host, allowed) {
      var ls, ps := Labels(host), Labels(allowed);
      var front := ls[..|ls| - |ps|];
      assert ls == front + ps;
      DottedLabels(host);
      DottedLabels(allowed);
      if front != [] {
        DottedJoined(front, ps);
        assert host == Dotted(front) + "." + allowed;
      }
    }
  }

  /** The string suffix test is exactly the label-wise one: the lower-cased name is an allowed host or a subdomain of it. */
  lemma HostMatchesByLabel(hostname: string, hosts: seq<string>)
    ensures IsHostOf(hostname, hosts) <==> exists allowed <- hosts :: Under(Lower(hostname), allowed)
  {
    forall allowed <- hosts
      ensures Lower(hostname) == allowed || EndsWith(Lower(hostname), "." + allowed) <==> Under(Lower(hostname), allowed)
    {
      SuffixIsUnder(Lower(hostname), allowed);
    }
    hide Under, EndsWith;
  }

  /** A name that merely ends with the right letters belongs to somebody else. */
  lemma LookalikeRefused(front: string, allowed: string)
    requires front != "" && front[|front| - 1] != '.'
    ensures !IsHostOf(front + allowed, [allowed])
  {
    var host := Lower(front + allowed);
    assert |host| == |front| + |allowed|;
    assert host[|front| - 1] == LowerChar(front[|front| - 1]) != '.';
    assert host[|front| - 1..][0] != ("." + allowed)[0];
  }

  // ----- Rooms -----

  function MeetingRoomProblem(parse: Parser, provider: Provider, roomUrl: Option<string>): Option<Problem> {
    match Rules(provider)
    case Generated => if roomUrl.None? then None else Some(TakesNoRoom)
    case PersonalRoom(hosts) =>
      if roomUrl.None? || Trim(roomUrl.value) == "" then None
      else if |roomUrl.value| > MAX_ROOM_URL then Some(TooLong)
      else
        var parsed := parse(roomUrl.value);
        if parsed.None? then Some(NotAnAddress)
        else if parsed.value.protocol != "https:" then Some(NotHttps)
        else if parsed.value.username != "" || parsed.value.password != "" then Some(HasCredentials)
        else if !IsHostOf(parsed.value.hostname, hosts) then Some(WrongHost)
        else None
  }

  datatype Meeting = Meeting(provider: Provider, url: string)

  /** `room` is the random name of a generated room. */
  function MeetingLinkFor(parse: Parser, settings: Option<Settings>, room: string): Option<Meeting> {
    if settings.None? then None
    else
      var s := settings.value;
      match Rules(s.provider)
      case Generated => Some(Meeting(s.provider, "https://meet.jit.si/foxacademy-" + room))
      case PersonalRoom(_) =>
        if s.roomUrl.None? || MeetingRoomProblem(parse, s.provider, s.roomUrl).Some? then None
        else Some(Meeting(s.provider, s.roomUrl.value))
  }

  /** A link a student can follow: https, no credentials, on the provider's own host or below it. */
  ghost predicate Joinable(parse: Parser, provider: Provider, url: string) {
    && Rules(provider).PersonalRoom?
    && |url| <= MAX_ROOM_URL
    && var parsed := parse(url);
    && parsed.Some? && parsed.value.protocol == "https:" && parsed.value.username == "" && parsed.value.password == ""
    && exists allowed <- Rules(provider).hosts :: Under(Lower(parsed.value.hostname), allowed)
  }

  /** https, no credentials, and the host named or below it. */
  ghost predicate OnHost(parse: Parser, url: string, host: string) {
    var parsed := parse(url);
    && parsed.Some? && parsed.value.protocol == "https:" && parsed.value.username == "" && parsed.value.password == ""
    && Under(Lower(parsed.value.hostname), host)
  }

  /** Which rooms the settings take: none where rooms are generated; else no room, a blank one, or an address of at most 500
      characters on the provider's own host. */
  lemma RoomAcceptedIff(parse: Parser, provider: Provider, roomUrl: Option<string>)
    ensures MeetingRoomProblem(parse, provider, roomUrl).None? <==>
              match provider
              case Jitsi => roomUrl.None?
              case Zoom => roomUrl.Some? && !Blank(roomUrl.value) ==>
                             |roomUrl.value| <= 500 && OnHost(parse, roomUrl.value, "zoom.us")
              case GoogleMeet => roomUrl.Some? && !Blank(roomUrl.value) ==>
                                   |roomUrl.value| <= 500 && OnHost(parse, roomUrl.value, "meet.google.com")
  {
    match provider
    case Jitsi =>
    case Zoom => HostedAcceptedIff(parse, provider, roomUrl, "zoom.us"); hide *;
    case GoogleMeet => HostedAcceptedIff(parse, provider, roomUrl, "meet.google.com"); hide *;
  }

  lemma HostedAcceptedIff(parse: Parser, provider: Provider, roomUrl: Option<string>, host: string)
    requires Rules(provider) == PersonalRoom([host])
    ensures MeetingRoomProblem(parse, provider, roomUrl).None? <==>
              (roomUrl.Some? && !Blank(roomUrl.value) ==> |roomUrl.value| <= 500 && OnHost(parse, roomUrl.value, host))
  {
    hide IsHostOf, Under, Trim, Lower, Blank, Rules;
    if roomUrl.Some? {
      BlankIsTrimmed(roomUrl.value);
      if !Blank(roomUrl.value) && |roomUrl.value| <= 500 && parse(roomUrl.value).Some? {
        OneHost(parse(roomUrl.value).value.hostname, host);
      }
    }
  }

  lemma BlankIsTrimmed(s: string)
    ensures Trim(s) == "" <==> Blank(s)
  {
    TrimByIs(s, WHITESPACE);
  }

  lemma OneHost(hostname: string, host: string)
    ensures IsHostOf(hostname, [host]) <==> Under(Lower(hostname), host)
  {
    HostMatchesByLabel(hostname, [host]);
    assert host in [host];
    hide IsHostOf, Under, Lower;
  }

  predicate Blank(s: string) {
    forall c <- s :: c in WHITESPACE
  }

  /** The link of a lesson booked on these settings alone: a generated room under its own random name, so that two names are two
      rooms; else the tutor's room, if the settings still take it. */
  lemma LinkIs(parse: Parser, settings: Option<Settings>, room: string, other: string)
    ensures var link := MeetingLinkFor(parse, settings, room);
      && (link.Some? <==>
            settings.Some? && (settings.value.provider == Jitsi
              || (settings.value.roomUrl.Some?
                  && MeetingRoomProblem(parse, settings.value.provider, settings.value.roomUrl).None?)))
      && (link.Some? ==> link.value.provider == settings.value.provider)
      && (link.Some? && settings.value.provider != Jitsi ==> settings.value.roomUrl == Some(link.value.url))
      && (link.Some? && settings.value.provider == Jitsi ==>
            && link.value.url == "https://meet.jit.si/foxacademy-" + room
            && (room != other ==> MeetingLinkFor(parse, settings, other) != link))
  {
    hide MeetingRoomProblem;
    var front := "https://meet.jit.si/foxacademy-";
    assert (front + room)[|front|..] == room && (front + other)[|front|..] == other;
  }

  /** No URL parser makes an address of nothing but blanks. */
  ghost predicate RefusesBlanks(parse: Parser) {
    forall s: string :: Trim(s) == "" ==> parse(s).None?
  }

  /** For a provider that reuses a room, the link on a lesson is the tutor's room, and it is joinable exactly when the room
      is not blank: a blank room passes the check and is handed out as a link. */
  lemma LinkJoinableIff(parse: Parser, settings: Settings, room: string)
    requires RefusesBlanks(parse) && settings.provider != Jitsi
    ensures var link := MeetingLinkFor(parse, Some(settings), room);
      && (link.Some? ==> settings.roomUrl == Some(link.value.url) && link.value.provider == settings.provider)
      && (link.Some? ==>
            (Joinable(parse, settings.provider, link.value.url) <==> Trim(link.value.url) != ""))
  {
    if settings.roomUrl.Some? {
      var parsed := parse(settings.roomUrl.value);
      if parsed.Some? { HostMatchesByLabel(parsed.value.hostname, Rules(settings.provider).hosts); }
    }
    hide IsHostOf, Under;
  }

  /** Conversely every joinable room is handed out: the check refuses nothing a student could follow. */
  lemma JoinableIsHandedOut(parse: Parser, settings: Settings, room: string)
    requires settings.roomUrl.Some? && Joinable(parse, settings.provider, settings.roomUrl.value)
    ensures MeetingLinkFor(parse, Some(settings), room) == Some(Meeting(settings.provider, settings.roomUrl.value))
  {
    hide IsHostOf, Under, Trim, Labels;
    var hostname := parse(settings.roomUrl.value).value.hostname;
    HostMatchesByLabel(hostname, Rules(settings.provider).hosts);
  }

  lemma BlankRoomIsHandedOut(parse: Parser, room: string)
    requires RefusesBlanks(parse)
    ensures MeetingLinkFor(parse, Some(Settings(Zoom, Some(" "))), room) == Some(Meeting(Zoom, " "))
    ensures !Joinable(parse, Zoom, " ")
  {
    assert Trim(" ") == "" by { assert TrimStart(" ", WHITESPACE) == TrimStart(" "[1..], WHITESPACE); }
  }
}

/** Reading, checking and merging the preferences kept in one loosely typed column. */
module UserConfig {
  import opened Foundations
  import opened MeetingProviders

  /** A value of the column, or of a request: anything JSON can hold, and what a missing property reads as. */
  datatype Value =
    | Undefined
    | Null
    | Bool(b: bool)
    | Num(n: real)
    | Str(s: string)
    | Arr(items: seq<Value>)
    | Obj(fields: map<string, Value>)

  /** Conversions that belong to the platform: to a number, None where that is not one, and from text to a URL. */
  datatype Platform = Platform(coerce: Value -> Option<real>, parse: Parser)

  /** Converting a number to a number changes nothing. */
  ghost predicate Sane(platform: Platform) {
    forall n :: platform.coerce(Num(n)) == Some(n)
  }

  datatype Config = Config(
    lessonReminders: bool, lessonReminderMinutes: int, gradesEnabled: bool, meeting: Option<Settings>)

  const DEFAULT := Config(false, 30, true, None)

  const REMINDERS := "lessonReminders"
  const MINUTES := "lessonReminderMinutes"
  const GRADES := "gradesEnabled"
  const MEETING := "meeting"

  // ----- Reading one field: None where the value is refused -----

  function Field(o: map<string, Value>, key: string): Value {
    if key in o then o[key] else Undefined
  }

  function ReadBool(v: Value): Option<bool> {
    if v.Bool? then Some(v.b) else None
  }

  function ReadMinutes(platform: Platform, v: Value): Option<int> {
    match platform.coerce(v)
    case None => None
    case Some(n) => if n == n.Floor as real && 5 <= n.Floor <= 1440 then Some(n.Floor) else None
  }

  function ReadProvider(v: Value): Option<Provider> {
    if v == Str("ZOOM") then Some(Zoom)
    else if v == Str("GOOGLE_MEET") then Some(GoogleMeet)
    else if v == Str("JITSI") then Some(Jitsi)
    else None
  }

  function ReadRoom(v: Value): Option<Option<string>> {
    match v
    case Undefined => Some(None)
    case Null => Some(None)
    case Str(s) => if |s| <= MAX_ROOM_URL then Some(Some(s)) else None
    case _ => None
  }

  function ReadMeeting(platform: Platform, v: Value): Option<Option<Settings>> {
    match v
    case Null => Some(None)
    case Obj(o) =>
      var provider, room := ReadProvider(Field(o, "provider")), ReadRoom(Field(o, "roomUrl"));
      if provider.None? || room.None? || MeetingRoomProblem(platform.parse, provider.value, room.value).Some? then None
      else Some(Some(Settings(provider.value, room.value)))
    case _ => None
  }

  // ----- Reading the column -----

  function OrDefault<T>(v: Value, read: Option<T>, default: T): Option<T> {
    if v.Undefined? then Some(default) else read
  }

  /** The fallback is for the meeting alone; any other refused field refuses the whole. */
  function ReadConfig(platform: Platform, o: map<string, Value>): Option<Config> {
    var reminders := OrDefault(Field(o, REMINDERS), ReadBool(Field(o, REMINDERS)), DEFAULT.lessonReminders);
    var minutes := OrDefault(Field(o, MINUTES), ReadMinutes(platform, Field(o, MINUTES)), DEFAULT.lessonReminderMinutes);
    var grades := OrDefault(Field(o, GRADES), ReadBool(Field(o, GRADES)), DEFAULT.gradesEnabled);
    var meeting := OrDefault(Field(o, MEETING), Some(ReadMeeting(platform, Field(o, MEETING)).GetOr(None)), DEFAULT.meeting);
    if reminders.None? || minutes.None? || grades.None? then None
    else Some(Config(reminders.value, minutes.value, grades.value, meeting.value))
  }

  function Parse(platform: Platform, raw: Value): Config {
    match raw
    case Undefined => ReadConfig(platform, map[]).GetOr(DEFAULT)
    case Null => ReadConfig(platform, map[]).GetOr(DEFAULT)
    case Obj(o) => ReadConfig(platform, o).GetOr(DEFAULT)
    case _ => DEFAULT
  }

  // ----- Patches -----

  /** What a request says of a field: nothing, an explicit `undefined`, or a new value. */
  datatype Change<+T> = Missing | Unset | To(value: T)

  datatype Patch = Patch(
    lessonReminders: Change<bool>,
    lessonReminderMinutes: Change<int>,
    gradesEnabled: Change<bool>,
    meeting: Change<Option<Settings>>)

  const NO_CHANGE := Patch(Missing, Missing, Missing, Missing)

  function ReadChange<T>(o: map<string, Value>, key: string, read: Option<T>): Option<Change<T>> {
    if key !in o then Some(Missing)
    else if o[key].Undefined? then Some(Unset)
    else if read.Some? then Some(To(read.value))
    else None
  }

  /** Strict where the read is lenient: one refused field refuses the patch, the meeting included. */
  function ParsePatch(platform: Platform, raw: Value): Option<Patch> {
    if !raw.Obj? then None
    else
      var o := raw.fields;
      var reminders := ReadChange(o, REMINDERS, ReadBool(Field(o, REMINDERS)));
      var minutes := ReadChange(o, MINUTES, ReadMinutes(platform, Field(o, MINUTES)));
      var grades := ReadChange(o, GRADES, ReadBool(Field(o, GRADES)));
      var meeting := ReadChange(o, MEETING, ReadMeeting(platform, Field(o, MEETING)));
      if reminders.None? || minutes.None? || grades.None? || meeting.None? then None
      else Some(Patch(reminders.value, minutes.value, grades.value, meeting.value))
  }

  function Apply<T>(change: Change<T>, current: T): T {
    match change
    case To(value) => value
    case _ => current
  }

  function Merge(platform: Platform, raw: Value, patch: Patch): Config {
    var current := Parse(platform, raw);
    Config(
      Apply(patch.lessonReminders, current.lessonReminders),
      Apply(patch.lessonReminderMinutes, current.lessonReminderMinutes),
      Apply(patch.gradesEnabled, current.gradesEnabled),
      Apply(patch.meeting, current.meeting))
  }

  function ProviderName(provider: Provider): string {
    match provider
    case Zoom => "ZOOM"
    case GoogleMeet => "GOOGLE_MEET"
    case Jitsi => "JITSI"
  }

  function EncodeMeeting(meeting: Option<Settings>): Value {
    match meeting
    case None => Null
    case Some(s) =>
      Obj(map["provider" := Str(ProviderName(s.provider)), "roomUrl" := if s.roomUrl.None? then Null else Str(s.roomUrl.value)])
  }

  /** A config as the column holds it. */
  function Encode(config: Config): Value {
    Obj(map[
      REMINDERS := Bool(config.lessonReminders),
      MINUTES := Num(config.lessonReminderMinutes as real),
      GRADES := Bool(config.gradesEnabled),
      MEETING := EncodeMeeting(config.meeting)])
  }

  /** The write: the new column, or a refusal that leaves the old one. */
  function UpdateConfig(platform: Platform, stored: Value, request: Value): Result<Value> {
    match ParsePatch(platform, request)
    case None => Err(BadRequest)
    case Some(patch) => Ok(Encode(Merge(platform, stored, patch)))
  }

  // ----- What a read may produce -----

  predicate ValidMinutes(minutes: int) {
    5 <= minutes <= 1440
  }

  predicate ValidMeeting(platform: Platform, meeting: Option<Settings>) {
    meeting.Some? ==>
      && (meeting.value.roomUrl.Some? ==> |meeting.value.roomUrl.value| <= MAX_ROOM_URL)
      && MeetingRoomProblem(platform.parse, meeting.value.provider, meeting.value.roomUrl).None?
  }

  predicate Valid(platform: Platform, config: Config) {
    ValidMinutes(config.lessonReminderMinutes) && ValidMeeting(platform, config.meeting)
  }

  predicate ValidPatch(platform: Platform, patch: Patch) {
    && (patch.lessonReminderMinutes.To? ==> ValidMinutes(patch.lessonReminderMinutes.value))
    && (patch.meeting.To? ==> ValidMeeting(platform, patch.meeting.value))
  }

  lemma MeetingReadIsValid(platform: Platform, v: Value)
    ensures var m := ReadMeeting(platform, v); m.Some? ==> ValidMeeting(platform, m.value)
  {
    hide MeetingRoomProblem;
  }

  /** Whatever the column holds, reading it gives a complete, valid config. */
  lemma ParseIsValid(platform: Platform, raw: Value)
    ensures Valid(platform, Parse(platform, raw))
  {
    if raw.Obj? { MeetingReadIsValid(platform, Field(raw.fields, MEETING)); }
    hide ReadMeeting, ValidMeeting;
    assert ValidMeeting(platform, None);
  }

  lemma PatchIsValid(platform: Platform, request: Value)
    ensures var patch := ParsePatch(platform, request); patch.Some? ==> ValidPatch(platform, patch.value)
  {
    if request.Obj? { MeetingReadIsValid(platform, Field(request.fields, MEETING)); }
    hide ReadMeeting, ValidMeeting;
  }

  lemma MeetingReadsBack(platform: Platform, meeting: Option<Settings>)
    requires ValidMeeting(platform, meeting)
    ensures ReadMeeting(platform, EncodeMeeting(meeting)) == Some(meeting)
  {
    hide MeetingRoomProblem;
  }

  /** Writing a valid config and reading it back gives that config. */
  lemma EncodeReadsBack(platform: Platform, config: Config)
    requires Sane(platform) && Valid(platform, config)
    ensures Parse(platform, Encode(config)) == config
  {
    MeetingReadsBack(platform, config.meeting);
    hide ReadMeeting, EncodeMeeting;
    var o := Encode(config).fields;
    assert Field(o, MINUTES) == Num(config.lessonReminderMinutes as real);
    assert Field(o, REMINDERS) == Bool(config.lessonReminders) && Field(o, GRADES) == Bool(config.gradesEnabled);
    assert Field(o, MEETING) == EncodeMeeting(config.meeting);
  }

  // ----- Merging -----

  lemma MergeIsValid(platform: Platform, raw: Value, patch: Patch)
    requires ValidPatch(platform, patch)
    ensures Valid(platform, Merge(platform, raw, patch))
  {
    ParseIsValid(platform, raw);
    hide Parse, ValidMeeting;
  }

  /** An accepted write is read back exactly as it was answered: each field the request names has the value it named, and
      each other field the value it was read as before. */
  lemma ReadAfterWrite(platform: Platform, stored: Value, request: Value)
    requires Sane(platform) && UpdateConfig(platform, stored, request).Ok?
    ensures var patch := ParsePatch(platform, request).value;
      var before := Parse(platform, stored);
      var after := Parse(platform, UpdateConfig(platform, stored, request).value);
      && after == Merge(platform, stored, patch)
      && after.lessonReminders == (if patch.lessonReminders.To? then patch.lessonReminders.value else before.lessonReminders)
      && after.lessonReminderMinutes
         == (if patch.lessonReminderMinutes.To? then patch.lessonReminderMinutes.value else before.lessonReminderMinutes)
      && after.gradesEnabled == (if patch.gradesEnabled.To? then patch.gradesEnabled.value else before.gradesEnabled)
      && after.meeting == (if patch.meeting.To? then patch.meeting.value else before.meeting)
  {
    PatchIsValid(platform, request);
    var patch := ParsePatch(platform, request).value;
    MergeIsValid(platform, stored, patch);
    EncodeReadsBack(platform, Merge(platform, stored, patch));
    hide Parse, ParsePatch, Encode, Valid, ValidPatch;
  }

  // ----- What a request says, key by key -----

  /** The request says something of the setting: the key is there, and not `undefined`. */
  predicate Says(o: map<string, Value>, key: string) {
    key in o && o[key] != Undefined
  }

  /** A provider's own name, and for one that reuses a room an address its host accepts, or none. */
  ghost predicate MeetingReads(platform: Platform, v: Value, meeting: Option<Settings>) {
    match meeting
    case None => v == Null
    case Some(s) =>
      && v.Obj? && "provider" in v.fields
      && v.fields["provider"] == Str(match s.provider case Zoom => "ZOOM" case GoogleMeet => "GOOGLE_MEET" case Jitsi => "JITSI")
      && (s.roomUrl.None? <==> !Says(v.fields, "roomUrl") || v.fields["roomUrl"] == Null)
      && (s.roomUrl.Some? ==>
            Says(v.fields, "roomUrl") && v.fields["roomUrl"] == Str(s.roomUrl.value) && |s.roomUrl.value| <= 500)
      && MeetingRoomProblem(platform.parse, s.provider, s.roomUrl).None?
  }

  lemma MeetingReadsIff(platform: Platform, v: Value)
    ensures forall m :: MeetingReads(platform, v, m) <==> ReadMeeting(platform, v) == Some(m)
  {
    hide MeetingRoomProblem;
  }

  /** A whole number of minutes from five up to a day. */
  predicate MinutesRead(platform: Platform, v: Value, minutes: int) {
    platform.coerce(v) == Some(minutes as real) && 5 <= minutes && minutes <= 1440
  }

  lemma MinutesReadIff(platform: Platform, v: Value)
    ensures forall m :: MinutesRead(platform, v, m) <==> ReadMinutes(platform, v) == Some(m)
  {
  }

  /** Every setting the request says something of is one it can be set to. */
  ghost predicate Readable(platform: Platform, o: map<string, Value>) {
    && (Says(o, "lessonReminders") ==> o["lessonReminders"].Bool?)
    && (Says(o, "lessonReminderMinutes") ==> exists m :: MinutesRead(platform, o["lessonReminderMinutes"], m))
    && (Says(o, "gradesEnabled") ==> o["gradesEnabled"].Bool?)
    && (Says(o, "meeting") ==> exists m :: MeetingReads(platform, o["meeting"], m))
  }

  lemma PatchReads(platform: Platform, o: map<string, Value>)
    ensures ParsePatch(platform, Obj(o)).Some? <==> Readable(platform, o)
  {
    if Says(o, "lessonReminderMinutes") { MinutesReadIff(platform, o["lessonReminderMinutes"]); }
    if Says(o, "meeting") { MeetingReadsIff(platform, o["meeting"]); }
    hide MinutesRead, ReadMinutes, MeetingReads, ReadMeeting;
    if Says(o, "lessonReminderMinutes") && ReadMinutes(platform, o["lessonReminderMinutes"]).Some? {
      assert MinutesRead(platform, o["lessonReminderMinutes"], ReadMinutes(platform, o["lessonReminderMinutes"]).value);
    }
    if Says(o, "meeting") && ReadMeeting(platform, o["meeting"]).Some? {
      assert MeetingReads(platform, o["meeting"], ReadMeeting(platform, o["meeting"]).value);
    }
  }

  /** A write is accepted if and only if it is an object every key of which can be read. */
  lemma WriteAcceptedIff(platform: Platform, stored: Value, request: Value)
    ensures UpdateConfig(platform, stored, request).Ok? <==> request.Obj? && Readable(platform, request.fields)
    ensures UpdateConfig(platform, stored, request).Err? ==> UpdateConfig(platform, stored, request) == Err(BadRequest)
  {
    if request.Obj? { PatchReads(platform, request.fields); }
    hide Readable, Merge, Encode;
  }

  /** What is read after an accepted write: each setting the request says something of is what it said, under its own key, and
      every other one is what was read before. The column says the same, under the same keys. */
  lemma WriteReadsBack(platform: Platform, stored: Value, o: map<string, Value>)
    requires Sane(platform) && UpdateConfig(platform, stored, Obj(o)).Ok?
    ensures var before, column := Parse(platform, stored), UpdateConfig(platform, stored, Obj(o)).value;
      var after := Parse(platform, column);
      && (if Says(o, "lessonReminders") then o["lessonReminders"] == Bool(after.lessonReminders)
          else after.lessonReminders == before.lessonReminders)
      && (if Says(o, "lessonReminderMinutes")
          then MinutesRead(platform, o["lessonReminderMinutes"], after.lessonReminderMinutes)
          else after.lessonReminderMinutes == before.lessonReminderMinutes)
      && (if Says(o, "gradesEnabled") then o["gradesEnabled"] == Bool(after.gradesEnabled)
          else after.gradesEnabled == before.gradesEnabled)
      && (if Says(o, "meeting") then MeetingReads(platform, o["meeting"], after.meeting) else after.meeting == before.meeting)
      && column == Obj(map[
           "lessonReminders" := Bool(after.lessonReminders),
           "lessonReminderMinutes" := Num(after.lessonReminderMinutes as real),
           "gradesEnabled" := Bool(after.gradesEnabled),
           "meeting" := column.fields["meeting"]])
  {
    ReadAfterWrite(platform, stored, Obj(o));
    if Says(o, "lessonReminderMinutes") { MinutesReadIff(platform, o["lessonReminderMinutes"]); }
    if Says(o, "meeting") { MeetingReadsIff(platform, o["meeting"]); }
    hide Parse, MinutesRead, ReadMinutes, MeetingReads, ReadMeeting, Sane;
  }

  /** A column that is an object reads key by key, with off, half an hour, on and no meeting where it says nothing; one
      unreadable setting, the meeting aside, gives all of these; and so does anything that is not an object. */
  lemma ColumnReads(platform: Platform, raw: Value)
    ensures var c, o := Parse(platform, raw), if raw.Obj? then raw.fields else map[];
      var fine := Readable(platform, o - {"meeting"});
      && (if fine && Says(o, "lessonReminders") then o["lessonReminders"] == Bool(c.lessonReminders) else !c.lessonReminders)
      && (if fine && Says(o, "lessonReminderMinutes")
          then MinutesRead(platform, o["lessonReminderMinutes"], c.lessonReminderMinutes) else c.lessonReminderMinutes == 30)
      && (if fine && Says(o, "gradesEnabled") then o["gradesEnabled"] == Bool(c.gradesEnabled) else c.gradesEnabled)
      && (if fine && Says(o, "meeting")
          then (c.meeting.Some? ==> MeetingReads(platform, o["meeting"], c.meeting))
               && ((exists m :: MeetingReads(platform, o["meeting"], m)) ==> MeetingReads(platform, o["meeting"], c.meeting))
          else c.meeting.None?)
  {
    var o := if raw.Obj? then raw.fields else map[];
    if Says(o, "lessonReminderMinutes") { MinutesReadIff(platform, o["lessonReminderMinutes"]); }
    if Says(o, "meeting") { MeetingReadsIff(platform, o["meeting"]); }
    hide MinutesRead, ReadMinutes, MeetingReads, ReadMeeting;
    if Says(o, "lessonReminderMinutes") && ReadMinutes(platform, o["lessonReminderMinutes"]).Some? {
      assert MinutesRead(platform, o["lessonReminderMinutes"], ReadMinutes(platform, o["lessonReminderMinutes"]).value);
    }
  }

  function Latest<T>(first: Change<T>, second: Change<T>): Change<T> {
    if second.To? then second else first
  }

  /** Two patches as one, the later winning where both speak. */
  function Union(first: Patch, second: Patch): Patch {
    Patch(
      Latest(first.lessonReminders, second.lessonReminders),
      Latest(first.lessonReminderMinutes, second.lessonReminderMinutes),
      Latest(first.gradesEnabled, second.gradesEnabled),
      Latest(first.meeting, second.meeting))
  }

  lemma TwoPatchesAreTheirUnion(platform: Platform, raw: Value, first: Patch, second: Patch)
    requires Sane(platform) && ValidPatch(platform, first)
    ensures Merge(platform, Encode(Merge(platform, raw, first)), second) == Merge(platform, raw, Union(first, second))
  {
    MergeIsValid(platform, raw, first);
    EncodeReadsBack(platform, Merge(platform, raw, first));
    hide Parse, Encode, Valid, ValidPatch;
  }

  /** The column after a run of writes, refused ones included. */
  function Written(platform: Platform, stored: Value, requests: seq<Value>): Value {
    if requests == [] then stored
    else
      var before := Written(platform, stored, requests[..|requests| - 1]);
      match UpdateConfig(platform, before, requests[|requests| - 1])
      case Ok(column) => column
      case Err(_) => before
  }

  /** The accepted requests of a run as one patch. */
  function Accepted(platform: Platform, requests: seq<Value>): Patch {
    if requests == [] then NO_CHANGE
    else
      var before := Accepted(platform, requests[..|requests| - 1]);
      match ParsePatch(platform, requests[|requests| - 1])
      case Some(patch) => Union(before, patch)
      case None => before
  }

  lemma UnionIsValid(platform: Platform, first: Patch, second: Patch)
    requires ValidPatch(platform, first) && ValidPatch(platform, second)
    ensures ValidPatch(platform, Union(first, second))
  {
    hide ValidMeeting;
  }

  /** After any run of writes the settings read are those before it with the accepted requests laid over them as one. */
  lemma {:induction false} RunOfWritesIsOneMerge(platform: Platform, stored: Value, requests: seq<Value>)
    requires Sane(platform)
    ensures ValidPatch(platform, Accepted(platform, requests))
    ensures Parse(platform, Written(platform, stored, requests)) == Merge(platform, stored, Accepted(platform, requests))
  {
    hide Parse, ParsePatch, Encode, Valid, ValidPatch, Union, Merge;
    if requests == [] {
      NothingChanges(platform, stored);
    } else {
      var front, last := requests[..|requests| - 1], requests[|requests| - 1];
      RunOfWritesIsOneMerge(platform, stored, front);
      var column := Written(platform, stored, front);
      PatchIsValid(platform, last);
      match ParsePatch(platform, last) {
        case None =>
        case Some(patch) =>
          var so := Accepted(platform, front);
          ReadAfterWrite(platform, column, last);
          UnionIsValid(platform, so, patch);
          MergeOfEqualReads(platform, column, Encode(Merge(platform, stored, so)), patch) by {
            MergeIsValid(platform, stored, so);
            EncodeReadsBack(platform, Merge(platform, stored, so));
          }
          TwoPatchesAreTheirUnion(platform, stored, so, patch);
      }
    }
  }

  lemma NothingChanges(platform: Platform, stored: Value)
    ensures ValidPatch(platform, NO_CHANGE) && Merge(platform, stored, NO_CHANGE) == Parse(platform, stored)
  {
    hide Parse;
  }

  /** A merge looks at the column only through what it reads as. */
  lemma MergeOfEqualReads(platform: Platform, a: Value, b: Value, patch: Patch)
    requires Parse(platform, a) == Parse(platform, b)
    ensures Merge(platform, a, patch) == Merge(platform, b, patch)
  {
  }

  // ----- Malformed columns -----

  /** A meeting the read refuses costs the meeting and nothing else. */
  lemma BadMeetingCostsOnlyTheMeeting(platform: Platform, o: map<string, Value>, v: Value)
    requires ReadMeeting(platform, v).None?
    ensures Parse(platform, Obj(o[MEETING := v])) == Parse(platform, Obj(o)).(meeting := None)
  {
    var p := o[MEETING := v];
    assert Field(p, REMINDERS) == Field(o, REMINDERS) && Field(p, MINUTES) == Field(o, MINUTES);
    assert Field(p, GRADES) == Field(o, GRADES);
    hide ReadMeeting, ReadMinutes;
  }

  /** Any other refused field costs every setting. */
  lemma BadFieldCostsEverything(platform: Platform, o: map<string, Value>, key: string, v: Value)
    requires !v.Undefined?
    requires || (key in {REMINDERS, GRADES} && ReadBool(v).None?)
             || (key == MINUTES && ReadMinutes(platform, v).None?)
    ensures Parse(platform, Obj(o[key := v])) == DEFAULT
  {
    hide ReadMeeting, ReadMinutes;
    assert Field(o[key := v], key) == v;
  }

  /** A setting the server does not know changes nothing. */
  lemma UnknownFieldsAreDropped(platform: Platform, o: map<string, Value>, key: string, v: Value)
    requires key !in {REMINDERS, MINUTES, GRADES, MEETING}
    ensures Parse(platform, Obj(o[key := v])) == Parse(platform, Obj(o))
  {
    hide ReadMeeting, ReadMinutes;
    var p := o[key := v];
    assert forall k :: k != key ==> Field(p, k) == Field(o, k);
  }

  /** A field a request sets to `undefined` is a field it does not mention. */
  lemma UndefinedIsNotMentioned(platform: Platform, stored: Value, o: map<string, Value>, key: string)
    ensures UpdateConfig(platform, stored, Obj(o[key := Undefined])) == UpdateConfig(platform, stored, Obj(o - {key}))
  {
    hide ReadMeeting, ReadMinutes, Parse, Encode;
    var p, q := o[key := Undefined], o - {key};
    assert forall k :: k != key ==> Field(p, k) == Field(q, k);
  }
}

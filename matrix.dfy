/**
 * The Matrix client library of bin/lib/matrix_client.py: reading the
 * credentials map, formatting event notifications, deriving the instance
 * identifier and interpreting the homeserver's answer to a send request.
 *
 * The HTTP exchange itself is a parameter `post`: given the request the
 * client would hand to curl, it says what came back.
 */
module Matrix {
  import opened Wrappers
  import opened PyJson
  import opened Text
  import opened Seqs

  // ---------------------------------------------------------------------
  // Configuration
  // ---------------------------------------------------------------------

  /** The fields `__init__` copies out of the credentials file. */
  datatype Settings = Settings(
    homeserver: string,
    accessToken: string,
    roomId: string,
    userId: string,
    instanceName: string)

  /** Reading the credentials either succeeds or raises KeyError for `key`. */
  datatype ConfigResult = Loaded(settings: Settings) | Missing(key: string)

  /** The instance name used when the credentials do not give one. */
  const DefaultInstanceName: string := "AI Instance"

  /** `d.get(k, default)` on a dict of strings. */
  function Get(d: map<string, string>, k: string, default: string): (v: string)
    ensures k in d ==> v == d[k]
    ensures k !in d ==> v == default
  {
    if k in d then d[k] else default
  }

  /**
   * The attribute assignments of `__init__`, in order: the three subscripts
   * raise KeyError for the first absent key; `user_id` and `instance_name`
   * fall back to their defaults.
   */
  function ReadConfig(config: map<string, string>): (r: ConfigResult)
    ensures r.Loaded? <==>
      "homeserver" in config && "access_token" in config && "room_id" in config
    ensures r == Missing("homeserver") <==> "homeserver" !in config
    ensures r == Missing("access_token") <==>
      "homeserver" in config && "access_token" !in config
    ensures r == Missing("room_id") <==>
      "homeserver" in config && "access_token" in config && "room_id" !in config
    ensures r.Loaded? ==>
      && r.settings.homeserver == config["homeserver"]
      && r.settings.accessToken == config["access_token"]
      && r.settings.roomId == config["room_id"]
      && r.settings.userId == (if "user_id" in config then config["user_id"] else "")
      && r.settings.instanceName ==
           (if "instance_name" in config then config["instance_name"] else DefaultInstanceName)
  {
    if "homeserver" !in config then Missing("homeserver")
    else if "access_token" !in config then Missing("access_token")
    else if "room_id" !in config then Missing("room_id")
    else
      Loaded(Settings(
        config["homeserver"],
        config["access_token"],
        config["room_id"],
        Get(config, "user_id", ""),
        Get(config, "instance_name", DefaultInstanceName)))
  }

  /** The five keys `__init__` looks at. */
  predicate IsConfigKey(k: string) {
    k == "homeserver" || k == "access_token" || k == "room_id"
    || k == "user_id" || k == "instance_name"
  }

  /** Keys other than the five read by `__init__` have no effect on the client. */
  lemma ConfigIgnoresOtherKeys(config: map<string, string>, k: string, v: string)
    requires !IsConfigKey(k)
    ensures ReadConfig(config[k := v]) == ReadConfig(config)
  {
  }

  // ---------------------------------------------------------------------
  // Event formatting
  // ---------------------------------------------------------------------

  /** The emoji for each known event type. */
  const EmojiTable: map<string, string> := map[
    "SessionStart" := "\U{1F680}",
    "SessionEnd" := "\U{1F44B}",
    "Stop" := "\U{2705}",
    "SubagentStop" := "\U{1F916}",
    "Notification" := "\U{1F4E2}",
    "Error" := "\U{274C}",
    "Info" := "\U{2139}\U{FE0F}",
    "Success" := "\U{2705}",
    "Warning" := "\U{26A0}\U{FE0F}",
    "Research" := "\U{1F52C}",
    "Interview" := "\U{1F4AD}",
    "Debug" := "\U{1F41B}"]

  /** The emoji for an event type the table does not list (the one for Info). */
  const DefaultEmoji: string := "\U{2139}\U{FE0F}"

  /** `emoji_map.get(event_type, "ℹ️")`. */
  function Emoji(eventType: string): (e: string)
    ensures e != []
    ensures eventType in EmojiTable ==> e == EmojiTable[eventType]
    ensures eventType !in EmojiTable ==> e == EmojiTable["Info"]
  {
    if eventType in EmojiTable then EmojiTable[eventType] else DefaultEmoji
  }

  /** Event types whose text is just the message. */
  const PlainTypes: seq<string> := ["Notification", "Info", "Success", "Research", "Interview"]

  /** Event types whose text names the type before the message. */
  const LevelTypes: seq<string> := ["Error", "Warning", "Debug"]

  /** The types that take one of the fixed templates rather than the `type: message` one. */
  predicate HasTemplate(eventType: string) {
    eventType == "SessionStart" || eventType == "SessionEnd"
    || eventType == "Stop" || eventType == "SubagentStop"
    || eventType in PlainTypes
  }

  /** The bracketed instance name. */
  function Tag(name: string): string {
    "[" + name + "]"
  }

  /** The start every formatted event shares: the emoji, a space and the bracketed instance name. */
  function Banner(name: string, eventType: string): string {
    Emoji(eventType) + " " + Tag(name)
  }

  /**
   * What follows the bracketed instance name, chosen by the event type; it
   * always opens with a space.
   */
  function Detail(eventType: string, message: string): (d: string)
    ensures " " <= d
  {
    if eventType == "SessionStart" then
      " Session started"
    else if eventType == "SessionEnd" then
      " Session ended"
    else if eventType == "Stop" then
      var m := " Task completed";
      if message != "" then m + ": " + message else m
    else if eventType == "SubagentStop" then
      var m := " Agent task completed";
      if message != "" then m + ": " + message else m
    else if eventType in PlainTypes then
      " " + message
    else if eventType in LevelTypes then
      " " + eventType + ": " + message
    else
      " " + eventType + ": " + message
  }

  /**
   * `format_event_message` for a client whose instance name is `name`: the
   * emoji, a space, the bracketed name and a text chosen by the event type.
   */
  function FormatEvent(name: string, eventType: string, message: string): (r: string)
    ensures Banner(name, eventType) + " " <= r
    ensures |r| > |name| + 4
  {
    Emoji(eventType) + " " + Tag(name) + Detail(eventType, message)
  }

  /** Session start and end notices are fixed texts: the message is ignored. */
  lemma SessionEventsIgnoreMessage(name: string, eventType: string, m1: string, m2: string)
    requires eventType == "SessionStart" || eventType == "SessionEnd"
    ensures FormatEvent(name, eventType, m1) == FormatEvent(name, eventType, m2)
    ensures FormatEvent(name, eventType, m1) ==
      Banner(name, eventType) + (if eventType == "SessionStart" then " Session started" else " Session ended")
  {
  }

  /** A stop notice carries `": " + message` exactly when the message is non-empty. */
  lemma StopAppendsMessage(name: string, eventType: string, message: string)
    requires eventType == "Stop" || eventType == "SubagentStop"
    ensures FormatEvent(name, eventType, message) ==
      FormatEvent(name, eventType, "") + (if message == "" then "" else ": " + message)
    ensures FormatEvent(name, eventType, "") ==
      Banner(name, eventType) + (if eventType == "Stop" then " Task completed" else " Agent task completed")
  {
    var suffix := if message == "" then "" else ": " + message;
    assert Detail(eventType, message) == Detail(eventType, "") + suffix;
    AppendAssoc(Banner(name, eventType), Detail(eventType, ""), suffix);
  }

  /** The plain types give `[name] message`. */
  lemma PlainEventFormat(name: string, eventType: string, message: string)
    requires eventType in PlainTypes
    ensures FormatEvent(name, eventType, message) == Banner(name, eventType) + (" " + message)
  {
  }

  /** Error, Warning, Debug and every unknown type give `[name] type: message`. */
  lemma TypedEventFormat(name: string, eventType: string, message: string)
    requires !HasTemplate(eventType)
    ensures FormatEvent(name, eventType, message) ==
      Banner(name, eventType) + (" " + eventType + ": " + message)
  {
  }

  /** `r` ends with `m`. */
  predicate EndsWith(r: string, m: string) {
    |m| <= |r| && r[|r| - |m|..] == m
  }

  /** Apart from the session notices, the formatted text always ends with the message. */
  lemma MessageIsKept(name: string, eventType: string, message: string)
    requires eventType != "SessionStart" && eventType != "SessionEnd"
    ensures EndsWith(FormatEvent(name, eventType, message), message)
  {
    var d := Detail(eventType, message);
    if (eventType == "Stop" || eventType == "SubagentStop") && message == "" {
      assert EndsWith(d, message);
    } else {
      var lead :=
        if eventType == "Stop" then " Task completed" + ": "
        else if eventType == "SubagentStop" then " Agent task completed" + ": "
        else if eventType in PlainTypes then " "
        else " " + eventType + ": ";
      assert d == lead + message;
      SuffixOf(lead, message);
    }
    SuffixExtend(Banner(name, eventType), d, message);
  }

  // ---------------------------------------------------------------------
  // Instance identifier
  // ---------------------------------------------------------------------

  /** `name.lower().replace(" ", "-")`. */
  function InstanceId(name: string): (r: string)
    ensures |r| == |name|
    ensures forall i :: 0 <= i < |name| ==>
      r[i] == if name[i] == ' ' then '-' else LowerChar(name[i])
    ensures forall i :: 0 <= i < |r| ==> r[i] != ' '
  {
    ReplaceChar(AsciiLower(name), ' ', '-')
  }

  /** Deriving the identifier of an identifier changes nothing. */
  lemma InstanceIdIdempotent(name: string)
    ensures InstanceId(InstanceId(name)) == InstanceId(name)
  {
    var once := InstanceId(name);
    var twice := InstanceId(once);
    forall i | 0 <= i < |name|
      ensures twice[i] == once[i]
    {
      assert once[i] != ' ';
      LowerIdempotent(name[i]);
    }
  }

  lemma LowerIdempotent(c: char)
    ensures LowerChar(LowerChar(c)) == LowerChar(c)
  {
  }

  // ---------------------------------------------------------------------
  // Sending
  // ---------------------------------------------------------------------

  /** What `send_message` hands to curl: the URL, the bearer header and the JSON body. */
  datatype MatrixRequest = MatrixRequest(url: string, authorization: string, body: Json)

  /**
   * How the curl call ended: it finished and its output decoded to a JSON
   * value or not (`None`: JSONDecodeError), it timed out, or it raised
   * some other exception.
   */
  datatype Transport = Completed(stdout: Option<Json>) | TimedOut | Failed

  /** The body of a text message. */
  function Payload(message: string): (j: Json)
    ensures j.Object? && j.fields.Keys == {"msgtype", "body"}
    ensures j.fields["body"] == Str(message) && j.fields["msgtype"] == Str("m.text")
  {
    Object(map["msgtype" := Str("m.text"), "body" := Str(message)])
  }

  /**
   * The event id `send_message` returns for a finished exchange: the
   * `event_id` of a decoded object when that is truthy, and nothing in
   * every other case (also when `.get` on a non-object raises
   * AttributeError, which the final `except Exception` turns into None).
   */
  function EventId(t: Transport): (r: Option<Json>)
    ensures r.Some? <==>
      && t.Completed? && t.stdout.Some? && t.stdout.value.Object?
      && "event_id" in t.stdout.value.fields && Truthy(t.stdout.value.fields["event_id"])
    ensures r.Some? ==> r.value == t.stdout.value.fields["event_id"] && Truthy(r.value)
  {
    match t
    case Completed(Some(Object(fields))) =>
      if "event_id" in fields && Truthy(fields["event_id"]) then Some(fields["event_id"]) else None
    case _ => None
  }

  /** A client built from a loaded credentials map; its fields are never reassigned. */
  class MatrixClient {
    const homeserver: string
    const accessToken: string
    const roomId: string
    const userId: string
    const instanceName: string

    /** The fields as one value. */
    function Config(): Settings {
      Settings(homeserver, accessToken, roomId, userId, instanceName)
    }

    /** `__init__` on an already decoded credentials map; an absent required key is ReadConfig's Missing. */
    constructor (config: map<string, string>)
      requires ReadConfig(config).Loaded?
      ensures Config() == ReadConfig(config).settings
    {
      homeserver := config["homeserver"];
      accessToken := config["access_token"];
      roomId := config["room_id"];
      userId := Get(config, "user_id", "");
      instanceName := Get(config, "instance_name", DefaultInstanceName);
    }

    /** `format_event_message`, over this client's instance name. */
    function FormatEventMessage(eventType: string, message: string): (r: string)
      ensures r == FormatEvent(instanceName, eventType, message)
      ensures Banner(instanceName, eventType) + " " <= r
    {
      FormatEvent(instanceName, eventType, message)
    }

    /** `get_instance_id`. */
    function GetInstanceId(): (r: string)
      ensures r == InstanceId(instanceName)
      ensures forall i :: 0 <= i < |r| ==> r[i] != ' '
    {
      InstanceId(instanceName)
    }

    /** The request `send_message` builds for `message`. */
    function MessageRequest(message: string): (q: MatrixRequest)
      ensures q.body == Payload(message)
      ensures q.authorization == "Bearer " + accessToken
      ensures q.url == homeserver + "/_matrix/client/r0/rooms/" + roomId + "/send/m.room.message"
    {
      MatrixRequest(
        homeserver + "/_matrix/client/r0/rooms/" + roomId + "/send/m.room.message",
        "Bearer " + accessToken,
        Payload(message))
    }

    /**
     * `send_message` with `sys` available: an empty message is refused
     * before anything is sent; otherwise the request goes out and the
     * answer yields the event id or nothing.
     */
    function SendMessage(message: string, post: MatrixRequest -> Transport): (r: Option<Json>)
      ensures message == "" ==> r == None
      ensures message != "" ==> r == EventId(post(MessageRequest(message)))
      ensures r.Some? ==> Truthy(r.value)
    {
      if message == "" then None else EventId(post(MessageRequest(message)))
    }

    /**
     * `send_message` as the file is written, when it is imported as a
     * library: `sys` is then never bound, so every path that reports an
     * error on `sys.stderr` raises NameError instead of returning None.
     */
    function SendMessageImported(message: string, post: MatrixRequest -> Transport): (r: Outcome<Option<Json>>)
      ensures r.Returned? ==> r.value.Some?
      ensures r.Raised? ==> r.error == NameError
      ensures r.Returned? <==> message != "" && EventId(post(MessageRequest(message))).Some?
    {
      if message == "" then Raised(NameError)
      else
        var id := EventId(post(MessageRequest(message)));
        if id.Some? then Returned(id) else Raised(NameError)
    }

    /** `send_event`: format, then send; a formatted event is never empty, so it is always posted. */
    function SendEvent(eventType: string, message: string, post: MatrixRequest -> Transport): (r: Option<Json>)
      ensures r == EventId(post(MessageRequest(FormatEvent(instanceName, eventType, message))))
    {
      SendMessage(FormatEventMessage(eventType, message), post)
    }
  }

  /** Both readings of `send_message` agree whenever an event id comes back. */
  lemma ImportedAgreesOnSuccess(c: MatrixClient, message: string, post: MatrixRequest -> Transport)
    ensures c.SendMessageImported(message, post).Returned? <==> c.SendMessage(message, post).Some?
    ensures c.SendMessage(message, post).Some? ==>
      c.SendMessageImported(message, post) == Returned(c.SendMessage(message, post))
  {
  }

  /** The documented result for an empty message is None, but as a library the call raises. */
  lemma ImportedEmptyMessageRaises(c: MatrixClient, post: MatrixRequest -> Transport)
    ensures c.SendMessage("", post) == None
    ensures c.SendMessageImported("", post) == Raised(NameError)
  {
  }

  /** As a library, a timed-out request raises NameError where None is documented. */
  lemma ImportedTimeoutRaises(c: MatrixClient, message: string, post: MatrixRequest -> Transport)
    requires post(c.MessageRequest(message)) == TimedOut
    ensures c.SendMessage(message, post) == None
    ensures c.SendMessageImported(message, post) == Raised(NameError)
  {
  }
}

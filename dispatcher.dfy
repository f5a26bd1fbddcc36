/** The tool catalog and the call handler (`setupToolHandlers` and the five
    tool handlers). A call names a tool and carries arguments; the handler
    validates them, issues at most one upstream request, formats the reply,
    and always answers with a single text block, an error text included. */
module Dispatcher {
  import opened Wrappers
  import opened Strings
  import opened Errors
  import opened JsValues
  import opened Gateway
  import opened Formatters
  import opened Transcript

  datatype Tool =
    | CreateMeetingBot
    | GetBotStatus
    | GetMeetingTranscript
    | ListMeetingBots
    | RemoveMeetingBot

  function Name(t: Tool): string {
    match t
    case CreateMeetingBot => "create_meeting_bot"
    case GetBotStatus => "get_bot_status"
    case GetMeetingTranscript => "get_meeting_transcript"
    case ListMeetingBots => "list_meeting_bots"
    case RemoveMeetingBot => "remove_meeting_bot"
  }

  /** The `switch` over the tool name. */
  function Route(name: string): (r: Option<Tool>)
    ensures r.Some? ==> Name(r.value) == name
  {
    if name == "create_meeting_bot" then Some(CreateMeetingBot)
    else if name == "get_bot_status" then Some(GetBotStatus)
    else if name == "get_meeting_transcript" then Some(GetMeetingTranscript)
    else if name == "list_meeting_bots" then Some(ListMeetingBots)
    else if name == "remove_meeting_bot" then Some(RemoveMeetingBot)
    else None
  }

  /** Every tool is reached by its own name, so a name is routed exactly
      when it names a tool. */
  lemma RouteName(t: Tool)
    ensures Route(Name(t)) == Some(t)
  {
  }

  /** A declared parameter of a tool: its name, JSON type and description. */
  datatype ParamDef = ParamDef(name: string, kind: string, description: string)

  /** A catalog entry: the tool's name, its description and its input
      schema (an object with these properties and required names). */
  datatype ToolDef = ToolDef(name: string, description: string, properties: seq<ParamDef>, required: seq<string>)

  /** The list the `tools/list` request answers with. */
  const Catalog: seq<ToolDef> := [
    ToolDef("create_meeting_bot", "Create a bot to join a meeting and record/transcribe it",
            [ParamDef("meeting_url", "string", "URL of the meeting (Zoom, Google Meet, or Teams)"),
             ParamDef("bot_name", "string", "Name for the bot (optional, defaults to 'Go Bot')")],
            ["meeting_url"]),
    ToolDef("get_bot_status", "Get the current status of a meeting bot",
            [ParamDef("bot_id", "string", "ID of the bot to check")],
            ["bot_id"]),
    ToolDef("get_meeting_transcript", "Get the transcript from a meeting bot",
            [ParamDef("bot_id", "string", "ID of the bot whose transcript to retrieve")],
            ["bot_id"]),
    ToolDef("list_meeting_bots", "List all active meeting bots", [], []),
    ToolDef("remove_meeting_bot", "Remove a bot from a meeting",
            [ParamDef("bot_id", "string", "ID of the bot to remove")],
            ["bot_id"])
  ]

  /** The argument a tool's handler insists on, if any. */
  function RequiredParam(t: Tool): Option<string> {
    match t
    case CreateMeetingBot => Some("meeting_url")
    case ListMeetingBots => None
    case _ => Some("bot_id")
  }

  /** The catalog and the switch agree: the catalog lists five distinct
      names, and the entry at each tool's position carries that tool's name,
      which the switch routes back to the tool. */
  lemma CatalogMatchesRoutes()
    ensures |Catalog| == 5
    ensures forall i, j :: 0 <= i < j < |Catalog| ==> Catalog[i].name != Catalog[j].name
    ensures forall t: Tool :: Catalog[CatalogIndex(t)].name == Name(t)
    ensures forall t: Tool :: Route(Catalog[CatalogIndex(t)].name) == Some(t)
    ensures forall i :: 0 <= i < |Catalog| ==> Route(Catalog[i].name).Some?
  {
    forall t: Tool
      ensures Route(Catalog[CatalogIndex(t)].name) == Some(t)
    {
      RouteName(t);
    }
  }

  /** Each catalog entry requires exactly the argument its handler checks,
      and declares it first among its properties. */
  lemma CatalogRequired()
    ensures forall t: Tool ::
              var d := Catalog[CatalogIndex(t)];
              && (RequiredParam(t).None? ==> d.required == [] && d.properties == [])
              && (RequiredParam(t).Some? ==>
                    d.required == [RequiredParam(t).value] && |d.properties| >= 1
                    && d.properties[0].name == RequiredParam(t).value)
  {
  }

  /** The position of a tool in the catalog. */
  function CatalogIndex(t: Tool): (i: nat)
    ensures i < |Catalog|
  {
    match t
    case CreateMeetingBot => 0
    case GetBotStatus => 1
    case GetMeetingTranscript => 2
    case ListMeetingBots => 3
    case RemoveMeetingBot => 4
  }

  /** The check each handler makes of a required argument: it must be a
      non-empty string. */
  function RequireString(args: map<string, Value>, key: string): (r: Fallible<string>)
    ensures r.Ok? <==> key in args && args[key].Str? && args[key].s != ""
    ensures r.Ok? ==> args[key] == Str(r.value)
    ensures r.Err? ==> r.error == MissingParam(key)
  {
    if key in args && args[key].Str? && args[key].s != "" then Ok(args[key].s)
    else Err(MissingParam(key))
  }

  const DefaultBotName := "Claude Bot"

  /** `args.bot_name || "Claude Bot"`: the cast checks nothing, so any
      truthy value is passed on as it is. */
  function BotName(args: map<string, Value>): (v: Value)
    ensures Truthy(v)
    ensures "bot_name" in args && Truthy(args["bot_name"]) ==> v == args["bot_name"]
    ensures !("bot_name" in args && Truthy(args["bot_name"])) ==> v == Str(DefaultBotName)
  {
    if "bot_name" in args && Truthy(args["bot_name"]) then args["bot_name"] else Str(DefaultBotName)
  }

  /** What one handler did: the request it issued, if it got that far, and
      its text or the failure it threw. */
  datatype Call = Call(request: Option<Request>, result: Fallible<string>)

  /** One request, then the reply's payload handed to `format`. */
  function Fetch(cfg: Config, endpoint: string, verb: string, body: Option<Value>, up: Upstream,
                 format: Value -> Fallible<string>): (c: Call)
    ensures c.request == Some(ApiRequest(cfg, endpoint, verb, body))
    ensures ApiResponse(up).Err? ==> c.result == Err(ApiResponse(up).error)
    ensures ApiResponse(up).Ok? ==> c.result == format(ApiResponse(up).value)
  {
    Call(Some(ApiRequest(cfg, endpoint, verb, body)),
         match ApiResponse(up)
         case Err(f) => Err(f)
         case Ok(data) => format(data))
  }

  const BotsEndpoint := "/api/v1/bots"

  function RemovedText(botId: string): string {
    "✅ Successfully removed bot " + botId + " from the meeting."
  }

  /** The handler of each tool. */
  function Handle(cfg: Config, t: Tool, args: map<string, Value>, up: Upstream): (c: Call)
    ensures RequiredParam(t).Some? && RequireString(args, RequiredParam(t).value).Err? ==>
              c == Call(None, Err(MissingParam(RequiredParam(t).value)))
  {
    match t
    case CreateMeetingBot =>
      var botName := BotName(args);
      (match RequireString(args, "meeting_url")
       case Err(f) => Call(None, Err(f))
       case Ok(url) =>
         Fetch(cfg, BotsEndpoint, "POST", Some(Obj(map["meeting_url" := Str(url), "bot_name" := botName])), up,
               FormatBotCreated))
    case GetBotStatus =>
      (match RequireString(args, "bot_id")
       case Err(f) => Call(None, Err(f))
       case Ok(id) => Fetch(cfg, BotsEndpoint + "/" + id, "GET", None, up, FormatBotStatus))
    case GetMeetingTranscript =>
      (match RequireString(args, "bot_id")
       case Err(f) => Call(None, Err(f))
       case Ok(id) =>
         Fetch(cfg, BotsEndpoint + "/" + id + "/transcript", "GET", None, up, data => TranscriptText(data, id)))
    case ListMeetingBots =>
      Fetch(cfg, BotsEndpoint, "GET", None, up, FormatBotList)
    case RemoveMeetingBot =>
      (match RequireString(args, "bot_id")
       case Err(f) => Call(None, Err(f))
       case Ok(id) => Fetch(cfg, BotsEndpoint + "/" + id, "DELETE", None, up, _ => Ok(RemovedText(id))))
  }

  /** A content block of the answer; every block this layer produces has
      type "text". */
  datatype Block = TextBlock(text: string)

  datatype Envelope = Envelope(content: seq<Block>)

  const ErrorMarker := "❌ Error: "

  /** The answer for a handler's outcome: its text, or the error marker
      followed by the thrown error's message. */
  function EnvelopeOf(r: Fallible<string>): (e: Envelope)
    ensures |e.content| == 1
    ensures r.Err? ==> e.content[0].text == ErrorMarker + Message(r.error)
    ensures r.Ok? ==> e.content[0].text == r.value
  {
    Envelope([TextBlock(if r.Ok? then r.value else ErrorMarker + Message(r.error))])
  }

  /** What the call handler answers, with the request it issued. */
  datatype Outcome = Outcome(envelope: Envelope, request: Option<Request>)

  /** The call handler: missing arguments count as an empty object, the
      name picks the handler, and whatever the handler throws becomes the
      text of the single block. */
  function Dispatch(cfg: Config, name: string, arguments: Option<map<string, Value>>, up: Upstream): (o: Outcome)
    ensures |o.envelope.content| == 1
    ensures Route(name).None? ==> o == Outcome(EnvelopeOf(Err(UnknownTool(name))), None)
    ensures Route(name).None? ==> o.envelope.content[0].text == ErrorMarker + ("Unknown tool: " + name)
    ensures Route(name).Some? ==>
              var c := Handle(cfg, Route(name).value, if arguments.Some? then arguments.value else map[], up);
              o == Outcome(EnvelopeOf(c.result), c.request)
  {
    var args := if arguments.Some? then arguments.value else map[];
    match Route(name)
    case None => Outcome(EnvelopeOf(Err(UnknownTool(name))), None)
    case Some(t) =>
      var c := Handle(cfg, t, args, up);
      Outcome(EnvelopeOf(c.result), c.request)
  }

  /** A call without arguments is handled as one with an empty object. */
  lemma AbsentArguments(cfg: Config, name: string, up: Upstream)
    ensures Dispatch(cfg, name, None, up) == Dispatch(cfg, name, Some(map[]), up)
  {
  }

  /** A tool whose required argument is missing, empty or not a string
      answers with the parameter error and issues no request. */
  lemma MissingParameter(cfg: Config, t: Tool, args: map<string, Value>, up: Upstream)
    requires RequiredParam(t).Some?
    requires var p := RequiredParam(t).value;
             !(p in args && args[p].Str? && args[p].s != "")
    ensures var o := Dispatch(cfg, Name(t), Some(args), up);
            && o.request.None?
            && o.envelope.content[0].text
               == ErrorMarker + ("Missing or invalid required parameter: " + RequiredParam(t).value)
  {
    RouteName(t);
    var p := RequiredParam(t).value;
    assert Dispatch(cfg, Name(t), Some(args), up).envelope.content[0].text == ErrorMarker + Message(MissingParam(p));
  }

  /** The upstream route of each tool, with the bot id where the path
      takes one. */
  function RouteTable(t: Tool, id: string): (string, string) {
    match t
    case CreateMeetingBot => ("POST", "/api/v1/bots")
    case GetBotStatus => ("GET", "/api/v1/bots/" + id)
    case GetMeetingTranscript => ("GET", "/api/v1/bots/" + id + "/transcript")
    case ListMeetingBots => ("GET", "/api/v1/bots")
    case RemoveMeetingBot => ("DELETE", "/api/v1/bots/" + id)
  }

  /** With valid arguments each tool issues exactly one request, on its
      route; only creation sends a body, holding the meeting URL and the
      bot name. */
  lemma RequestIssued(cfg: Config, t: Tool, args: map<string, Value>, up: Upstream)
    requires ValidArguments(t, args)
    ensures var id := if t == ListMeetingBots || t == CreateMeetingBot then "" else args["bot_id"].s;
            var body := if t == CreateMeetingBot
                        then Some(Obj(map["meeting_url" := args["meeting_url"], "bot_name" := BotName(args)]))
                        else None;
            Dispatch(cfg, Name(t), Some(args), up).request
            == Some(ApiRequest(cfg, RouteTable(t, id).1, RouteTable(t, id).0, body))
  {
    RouteName(t);
    if t != ListMeetingBots && t != CreateMeetingBot {
      var id := args["bot_id"].s;
      assert BotsEndpoint + "/" + id == "/api/v1/bots/" + id;
      assert BotsEndpoint + "/" + id + "/transcript" == "/api/v1/bots/" + id + "/transcript";
    }
  }

  /** Without a truthy `bot_name` the created bot is named "Claude Bot". */
  lemma DefaultName(cfg: Config, args: map<string, Value>, up: Upstream)
    requires RequireString(args, "meeting_url").Ok?
    requires "bot_name" !in args || !Truthy(args["bot_name"])
    ensures var req := Dispatch(cfg, "create_meeting_bot", Some(args), up).request;
            && req.Some? && req.value.body.Some?
            && req.value.body.value == Obj(map["meeting_url" := args["meeting_url"], "bot_name" := Str("Claude Bot")])
  {
    RequestIssued(cfg, CreateMeetingBot, args, up);
  }

  /** The argument check a tool makes passes. */
  predicate ValidArguments(t: Tool, args: map<string, Value>) {
    RequiredParam(t).Some? ==> RequireString(args, RequiredParam(t).value).Ok?
  }

  /** Once its arguments are valid, a tool's outcome is the gateway's
      failure whenever the gateway fails. */
  lemma GatewayFailurePassedOn(cfg: Config, t: Tool, args: map<string, Value>, up: Upstream)
    requires ValidArguments(t, args) && ApiResponse(up).Err?
    ensures Handle(cfg, t, args, up).request.Some?
    ensures Handle(cfg, t, args, up).result == Err(ApiResponse(up).error)
  {
  }

  /** Once its arguments are valid and the gateway returns a payload, each
      tool answers with its own rendering of that payload; removal answers
      with a fixed sentence naming the bot. */
  lemma ReplyRendered(cfg: Config, t: Tool, args: map<string, Value>, up: Upstream)
    requires ValidArguments(t, args) && ApiResponse(up).Ok?
    ensures var data := ApiResponse(up).value;
            Handle(cfg, t, args, up).result ==
              match t
              case CreateMeetingBot => FormatBotCreated(data)
              case GetBotStatus => FormatBotStatus(data)
              case GetMeetingTranscript => TranscriptText(data, args["bot_id"].s)
              case ListMeetingBots => FormatBotList(data)
              case RemoveMeetingBot => Ok(RemovedText(args["bot_id"].s))
  {
  }

  /** Whatever a known tool's handler throws, a formatter's runtime error
      included, reaches the caller as the error marker followed by the
      error's message, with the request the handler issued. */
  lemma HandlerFailureSurfaces(cfg: Config, t: Tool, args: map<string, Value>, up: Upstream)
    requires Handle(cfg, t, args, up).result.Err?
    ensures var o := Dispatch(cfg, Name(t), Some(args), up);
            && o.envelope.content[0].text == ErrorMarker + Message(Handle(cfg, t, args, up).result.error)
            && o.request == Handle(cfg, t, args, up).request
  {
    RouteName(t);
  }

  /** A status request whose reply parses to `null` answers with the
      TypeError of reading `state` on null. */
  lemma NullStatusPayload(cfg: Config, botId: string, body: string)
    requires botId != ""
    ensures Dispatch(cfg, "get_bot_status", Some(map["bot_id" := Str(botId)]), Reply(200, body, Ok(Null)))
              .envelope.content[0].text
            == ErrorMarker + "Cannot read properties of null (reading 'state')"
  {
    var args := map["bot_id" := Str(botId)];
    var up := Reply(200, body, Ok(Null));
    ReplyRendered(cfg, GetBotStatus, args, up);
    assert Handle(cfg, GetBotStatus, args, up).result == Err(ReadFailure(Null, "state"));
    HandlerFailureSurfaces(cfg, GetBotStatus, args, up);
    NullStateMessage();
  }

  lemma NullStateMessage()
    ensures Message(ReadFailure(Null, "state")) == "Cannot read properties of null (reading 'state')"
  {
  }

  /** An upstream status outside 200..299 reaches the caller as the error
      marker, "Network error: API error", the status and the body; the
      status and the body read back from the text. */
  lemma UpstreamStatusSurfaces(cfg: Config, t: Tool, args: map<string, Value>, status: nat, body: string,
                               parsed: Result<Value, string>)
    requires ValidArguments(t, args) && !IsOkStatus(status)
    ensures var text := Dispatch(cfg, Name(t), Some(args), Reply(status, body, parsed)).envelope.content[0].text;
            && text == ErrorMarker + (NetworkPrefix + ApiErrorText(status, body))
            && ParseApiStatusMessage(text[|ErrorMarker|..]) == Some((status, body))
  {
    var up := Reply(status, body, parsed);
    GatewayFailurePassedOn(cfg, t, args, up);
    HandlerFailureSurfaces(cfg, t, args, up);
    assert Message(ApiStatus(status, body)) == NetworkPrefix + ApiErrorText(status, body);
    MarkedStatusReadsBack(status, body);
  }

  /** Status and body read back from the marked status error. */
  lemma MarkedStatusReadsBack(status: nat, body: string)
    ensures var m := Message(ApiStatus(status, body));
            ParseApiStatusMessage((ErrorMarker + m)[|ErrorMarker|..]) == Some((status, body))
  {
    AfterPrefix(ErrorMarker, Message(ApiStatus(status, body)));
    ApiStatusMessageReadsBack(status, body);
  }

  /** A failure of the network call itself reaches the caller as the error
      marker, "Network error: " and its cause. */
  lemma TransportFailureSurfaces(cfg: Config, t: Tool, args: map<string, Value>, cause: string)
    requires ValidArguments(t, args)
    ensures Dispatch(cfg, Name(t), Some(args), TransportErr(cause)).envelope.content[0].text
            == ErrorMarker + (NetworkPrefix + cause)
  {
    RouteName(t);
    GatewayFailurePassedOn(cfg, t, args, TransportErr(cause));
  }

  /** The error marker opens the answer exactly when the call failed: no
      successful rendering starts with it, and the handler's failures are
      never passed on as anything but that text. */
  lemma ErrorMarkerIffFailure(cfg: Config, name: string, arguments: Option<map<string, Value>>, up: Upstream)
    ensures var o := Dispatch(cfg, name, arguments, up);
            var args := if arguments.Some? then arguments.value else map[];
            var failed := Route(name).None? || Handle(cfg, Route(name).value, args, up).result.Err?;
            StartsWith(o.envelope.content[0].text, ErrorMarker) <==> failed
  {
    var args := if arguments.Some? then arguments.value else map[];
    if Route(name).Some? {
      var c := Handle(cfg, Route(name).value, args, up);
      if c.result.Ok? {
        SuccessUnmarked(cfg, Route(name).value, args, up);
      }
    }
  }

  /** No text a handler returns on success starts with the error marker. */
  lemma SuccessUnmarked(cfg: Config, t: Tool, args: map<string, Value>, up: Upstream)
    requires Handle(cfg, t, args, up).result.Ok?
    ensures !StartsWith(Handle(cfg, t, args, up).result.value, ErrorMarker)
  {
    var text := Handle(cfg, t, args, up).result.value;
    var data := ApiResponse(up).value;
    match t
    case CreateMeetingBot =>
      Differ(text, "✅ Successfully created meeting bot!", 0);
    case GetBotStatus =>
      Differ(text, "🤖 Bot Status for ", 0);
    case GetMeetingTranscript =>
      var id := RequireString(args, "bot_id").value;
      TranscriptUnmarked(data, id);
    case ListMeetingBots =>
      if text == NoBotsMessage {
        Differ(text, NoBotsMessage, 0);
      } else {
        Differ(text, "📋 Active Meeting Bots (", 0);
      }
    case RemoveMeetingBot =>
      var id := RequireString(args, "bot_id").value;
      assert text == RemovedText(id);
      Differ(text, "✅ Successfully removed bot ", 0);
  }

  /** A successful transcript rendering never starts with the marker. */
  lemma TranscriptUnmarked(data: Value, botId: string)
    requires TranscriptText(data, botId).Ok?
    ensures !StartsWith(TranscriptText(data, botId).value, ErrorMarker)
  {
    if data.Arr? {
      ArrayUnmarked(data.items, botId);
    } else {
      LegacyFirstChar(data, botId);
      assert TranscriptText(data, botId).value[0] != ErrorMarker[0];
    }
  }

  lemma ArrayUnmarked(entries: seq<Value>, botId: string)
    requires TranscriptArrayText(entries, botId).Ok?
    ensures !StartsWith(TranscriptArrayText(entries, botId).value, ErrorMarker)
  {
    if |entries| == 0 {
      NoTranscriptUnmarked(botId);
    } else {
      var body := EntriesText(entries).value;
      Regroup(Opening(botId), body, Closing(|entries|));
      OpeningUnmarked(botId, body + Closing(|entries|));
    }
  }

  lemma NoTranscriptUnmarked(botId: string)
    ensures !StartsWith(NoTranscript(botId), ErrorMarker)
  {
    assert NoTranscript(botId)[2] == 'N';
  }

  lemma OpeningUnmarked(botId: string, rest: string)
    ensures !StartsWith(Opening(botId) + rest, ErrorMarker)
  {
    assert (Opening(botId) + rest)[0] == '📝';
  }

  /** A text that starts with `p` does not start with the marker when `p`
      and the marker differ at position `k`. */
  lemma Differ(text: string, p: string, k: nat)
    requires StartsWith(text, p) && k < |p| && k < |ErrorMarker| && p[k] != ErrorMarker[k]
    ensures !StartsWith(text, ErrorMarker)
  {
    assert text[k] == p[k];
  }
}

/** The status, creation and list renderings (`formatBotStatus`,
    `formatBotCreated` and the list built inside `listMeetingBots`). Each
    reads fields of an upstream payload and builds display text; a read on a
    null payload throws, as it does at run time. */
module Formatters {
  import opened Wrappers
  import opened Strings
  import opened Errors
  import opened JsValues

  /** A bot counts as active only in the states "joining" and "joined". */
  predicate IsActive(state: Value)
    ensures IsActive(state) <==> state.Str? && (state.s == "joining" || state.s == "joined")
  {
    state == Str("joining") || state == Str("joined")
  }

  /** A transcript counts as ready only in the state "complete". */
  predicate IsTranscriptReady(transcriptionState: Value)
    ensures IsTranscriptReady(transcriptionState) <==> transcriptionState.Str? && transcriptionState.s == "complete"
  {
    transcriptionState == Str("complete")
  }

  function ActiveIcon(active: bool): char {
    if active then '✅' else '❌'
  }

  function ReadyIcon(ready: bool): char {
    if ready then '✅' else '⏳'
  }

  /** The eight lines of a status report, from the texts of the bot's
      fields and its two flags. */
  function StatusLinesOf(id: string, state: string, ts: string, url: string, active: bool, ready: bool): seq<string>
  {
    [ "🤖 Bot Status for " + id + ":",
      "",
      "📊 State: " + state + " " + [ActiveIcon(active)],
      "📝 Transcription State: " + ts + " " + [ReadyIcon(ready)],
      "🔗 Meeting URL: " + url,
      "",
      ActiveLine(active),
      ReadyLine(ready) ]
  }

  /** The closing line about the bot. */
  function ActiveLine(active: bool): string {
    [ActiveIcon(active)] + " Bot is " + (if active then "active and recording" else "not active")
  }

  /** The closing line about the transcript. */
  function ReadyLine(ready: bool): string {
    [ReadyIcon(ready)] + " Transcript is " + (if ready then "ready" else "not ready yet")
  }

  /** The lines `formatBotStatus` joins, for a payload it can read. */
  function StatusLines(data: Value): seq<string>
    requires !Nullish(data)
  {
    var state := Get(data, "state");
    var ts := Get(data, "transcription_state");
    StatusLinesOf(ToText(Get(data, "id")), ToText(state), ToText(ts), ToText(Get(data, "meeting_url")),
                  IsActive(state), IsTranscriptReady(ts))
  }

  function FormatBotStatus(data: Value): (r: Fallible<string>)
    ensures r.Ok? <==> !Nullish(data)
    ensures r.Err? ==> r.error == ReadFailure(data, "state")
    ensures r.Ok? ==> StartsWith(r.value, "🤖 Bot Status for ")
  {
    if Nullish(data) then Err(ReadFailure(data, "state"))
    else Ok(JoinWith("\n", StatusLines(data)))
  }

  /** Whether the text a field renders to is free of line breaks. */
  predicate SingleLine(v: Value) {
    '\n' !in ToText(v)
  }

  /** The fields a report shows render without line breaks. */
  predicate SingleLineFields(data: Value)
    requires !Nullish(data)
  {
    && SingleLine(Get(data, "id")) && SingleLine(Get(data, "state"))
    && SingleLine(Get(data, "transcription_state")) && SingleLine(Get(data, "meeting_url"))
  }

  /** Splitting a joined status report at line breaks gives back its lines. */
  lemma StatusLinesSplit(id: string, state: string, ts: string, url: string, active: bool, ready: bool)
    requires '\n' !in id && '\n' !in state && '\n' !in ts && '\n' !in url
    ensures Split(JoinWith("\n", StatusLinesOf(id, state, ts, url, active, ready)), '\n')
            == StatusLinesOf(id, state, ts, url, active, ready)
  {
    StatusLinesUnbroken(id, state, ts, url, active, ready);
    EightLinesSplit(StatusLinesOf(id, state, ts, url, active, ready));
  }

  lemma StatusLinesUnbroken(id: string, state: string, ts: string, url: string, active: bool, ready: bool)
    requires '\n' !in id && '\n' !in state && '\n' !in ts && '\n' !in url
    ensures var lines := StatusLinesOf(id, state, ts, url, active, ready);
            && |lines| == 8
            && '\n' !in lines[0] && '\n' !in lines[1] && '\n' !in lines[2] && '\n' !in lines[3]
            && '\n' !in lines[4] && '\n' !in lines[5] && '\n' !in lines[6] && '\n' !in lines[7]
  {
    FlagLinesUnbroken(active, ready);
  }

  lemma FlagLinesUnbroken(active: bool, ready: bool)
    ensures '\n' !in ActiveLine(active) && '\n' !in ReadyLine(ready)
  {
  }

  /** The status text has eight lines. The bot line shows ✅ "active and
      recording" exactly when the state is "joining" or "joined" (so not for
      "joined_recording"), and ❌ "not active" otherwise; the transcript line
      shows ✅ "ready" exactly when the transcription state is "complete",
      and ⏳ "not ready yet" otherwise. */
  lemma StatusReport(data: Value)
    requires !Nullish(data) && SingleLineFields(data)
    ensures FormatBotStatus(data).Ok?
    ensures var lines := Split(FormatBotStatus(data).value, '\n');
            var state := Get(data, "state");
            var ts := Get(data, "transcription_state");
            && |lines| == 8
            && lines[0] == "🤖 Bot Status for " + ToText(Get(data, "id")) + ":"
            && lines[2] == "📊 State: " + ToText(state) + " " + [StateIcon(state)]
            && lines[3] == "📝 Transcription State: " + ToText(ts) + " " + [TranscriptIcon(ts)]
            && (lines[6] == "✅ Bot is active and recording" <==> state == Str("joining") || state == Str("joined"))
            && (lines[6] == "❌ Bot is not active" <==> state != Str("joining") && state != Str("joined"))
            && (lines[7] == "✅ Transcript is ready" <==> ts == Str("complete"))
            && (lines[7] == "⏳ Transcript is not ready yet" <==> ts != Str("complete"))
  {
    var state := Get(data, "state");
    var ts := Get(data, "transcription_state");
    var id := ToText(Get(data, "id"));
    var url := ToText(Get(data, "meeting_url"));
    var lines := StatusLinesOf(id, ToText(state), ToText(ts), url, IsActive(state), IsTranscriptReady(ts));
    assert FormatBotStatus(data).value == JoinWith("\n", lines);
    StatusLinesSplit(id, ToText(state), ToText(ts), url, IsActive(state), IsTranscriptReady(ts));
    StatusFlagLines(id, ToText(state), ToText(ts), url, IsActive(state), IsTranscriptReady(ts));
  }

  /** Whatever the field texts hold, a readable payload's status text ends
      with the bot line and the transcript line, which show ✅ "active and
      recording" exactly for "joining" and "joined", and ✅ "ready" exactly
      for "complete". */
  lemma StatusClosingLines(data: Value)
    requires !Nullish(data)
    ensures FormatBotStatus(data).Ok?
    ensures var state := Get(data, "state");
            var ts := Get(data, "transcription_state");
            var botLine := ActiveLine(IsActive(state));
            var readyLine := ReadyLine(IsTranscriptReady(ts));
            && EndsWith(FormatBotStatus(data).value, "\n" + botLine + "\n" + readyLine)
            && (botLine == "✅ Bot is active and recording" <==> state == Str("joining") || state == Str("joined"))
            && (botLine == "❌ Bot is not active" <==> state != Str("joining") && state != Str("joined"))
            && (readyLine == "✅ Transcript is ready" <==> ts == Str("complete"))
            && (readyLine == "⏳ Transcript is not ready yet" <==> ts != Str("complete"))
  {
    var state := Get(data, "state");
    var ts := Get(data, "transcription_state");
    var lines := StatusLines(data);
    assert lines[6] == ActiveLine(IsActive(state)) && lines[7] == ReadyLine(IsTranscriptReady(ts));
    JoinEndsWith("\n", lines);
    ActiveLineFlag(IsActive(state));
    ReadyLineFlag(IsTranscriptReady(ts));
  }

  /** The two closing lines of a status report tell the flags apart. */
  lemma StatusFlagLines(id: string, state: string, ts: string, url: string, active: bool, ready: bool)
    ensures var lines := StatusLinesOf(id, state, ts, url, active, ready);
            && (lines[6] == "✅ Bot is active and recording" <==> active)
            && (lines[6] == "❌ Bot is not active" <==> !active)
            && (lines[7] == "✅ Transcript is ready" <==> ready)
            && (lines[7] == "⏳ Transcript is not ready yet" <==> !ready)
  {
    ActiveLineFlag(active);
    ReadyLineFlag(ready);
  }

  lemma ActiveLineFlag(active: bool)
    ensures ActiveLine(active) == "✅ Bot is active and recording" <==> active
    ensures ActiveLine(active) == "❌ Bot is not active" <==> !active
  {
    ActiveLineTexts();
    assert "✅ Bot is active and recording"[0] != "❌ Bot is not active"[0];
  }

  lemma ActiveLineTexts()
    ensures ActiveLine(true) == "✅ Bot is active and recording"
    ensures ActiveLine(false) == "❌ Bot is not active"
  {
  }

  lemma ReadyLineFlag(ready: bool)
    ensures ReadyLine(ready) == "✅ Transcript is ready" <==> ready
    ensures ReadyLine(ready) == "⏳ Transcript is not ready yet" <==> !ready
  {
    ReadyLineTexts();
    assert "✅ Transcript is ready"[0] != "⏳ Transcript is not ready yet"[0];
  }

  lemma ReadyLineTexts()
    ensures ReadyLine(true) == "✅ Transcript is ready"
    ensures ReadyLine(false) == "⏳ Transcript is not ready yet"
  {
    NotReadyLineText();
  }

  lemma NotReadyLineText()
    ensures ReadyLine(false) == "⏳ Transcript is not ready yet"
  {
    var lead := "⏳ Transcript is ";
    assert ReadyLine(false) == lead + "not ready yet";
  }

  function StateIcon(state: Value): char {
    ActiveIcon(IsActive(state))
  }

  function TranscriptIcon(transcriptionState: Value): char {
    ReadyIcon(IsTranscriptReady(transcriptionState))
  }

  /** The closing hint of a creation report, ahead of the bot id. */
  const CheckHint := "💡 You can check the bot status using bot ID: "

  /** The eight lines of a creation report, from the texts of the new
      bot's fields. */
  function CreatedLinesOf(id: string, url: string, state: string, ts: string): seq<string>
  {
    [ "✅ Successfully created meeting bot!",
      "",
      "🤖 Bot ID: " + id,
      "🔗 Meeting URL: " + url,
      "📊 State: " + state,
      "📝 Transcription State: " + ts,
      "",
      CheckHint + id ]
  }

  /** The lines `formatBotCreated` joins, for a payload it can read. */
  function CreatedLines(data: Value): seq<string>
    requires !Nullish(data)
  {
    CreatedLinesOf(ToText(Get(data, "id")), ToText(Get(data, "meeting_url")),
                   ToText(Get(data, "state")), ToText(Get(data, "transcription_state")))
  }

  function FormatBotCreated(data: Value): (r: Fallible<string>)
    ensures r.Ok? <==> !Nullish(data)
    ensures r.Err? ==> r.error == ReadFailure(data, "id")
    ensures r.Ok? ==> StartsWith(r.value, "✅ Successfully created meeting bot!")
  {
    if Nullish(data) then Err(ReadFailure(data, "id"))
    else Ok(JoinWith("\n", CreatedLines(data)))
  }

  /** Splitting a joined creation report at line breaks gives back its lines. */
  lemma CreatedLinesSplit(id: string, url: string, state: string, ts: string)
    requires '\n' !in id && '\n' !in state && '\n' !in ts && '\n' !in url
    ensures Split(JoinWith("\n", CreatedLinesOf(id, url, state, ts)), '\n') == CreatedLinesOf(id, url, state, ts)
  {
    CreatedLinesUnbroken(id, url, state, ts);
    EightLinesSplit(CreatedLinesOf(id, url, state, ts));
  }

  lemma CreatedLinesUnbroken(id: string, url: string, state: string, ts: string)
    requires '\n' !in id && '\n' !in state && '\n' !in ts && '\n' !in url
    ensures var lines := CreatedLinesOf(id, url, state, ts);
            && |lines| == 8
            && '\n' !in lines[0] && '\n' !in lines[1] && '\n' !in lines[2] && '\n' !in lines[3]
            && '\n' !in lines[4] && '\n' !in lines[5] && '\n' !in lines[6] && '\n' !in lines[7]
  {
    HintUnbroken(id);
  }

  lemma HintUnbroken(id: string)
    requires '\n' !in id
    ensures '\n' !in CheckHint + id
  {
    var lead := "💡 You can check the bot ";
    var rest := "status using bot ID: ";
    assert CheckHint == lead + rest;
    assert '\n' !in lead && '\n' !in rest;
  }

  /** The creation text has eight lines and names the new bot's id twice:
      on its own line and in the closing hint. */
  lemma CreatedReport(data: Value)
    requires !Nullish(data) && SingleLineFields(data)
    ensures FormatBotCreated(data).Ok?
    ensures var lines := Split(FormatBotCreated(data).value, '\n');
            && |lines| == 8
            && lines[0] == "✅ Successfully created meeting bot!"
            && lines[2] == "🤖 Bot ID: " + ToText(Get(data, "id"))
            && lines[3] == "🔗 Meeting URL: " + ToText(Get(data, "meeting_url"))
            && lines[7] == CheckHint + ToText(Get(data, "id"))
  {
    var id := ToText(Get(data, "id"));
    var url := ToText(Get(data, "meeting_url"));
    var lines := CreatedLinesOf(id, url, ToText(Get(data, "state")), ToText(Get(data, "transcription_state")));
    assert FormatBotCreated(data).value == JoinWith("\n", lines);
    CreatedLinesSplit(id, url, ToText(Get(data, "state")), ToText(Get(data, "transcription_state")));
  }

  /** Whatever the field texts hold, a readable payload's creation text
      ends with the hint naming the new bot's id. */
  lemma CreatedClosingHint(data: Value)
    requires !Nullish(data)
    ensures FormatBotCreated(data).Ok?
    ensures EndsWith(FormatBotCreated(data).value, "\n\n" + CheckHint + ToText(Get(data, "id")))
  {
    var id := ToText(Get(data, "id"));
    var url, state, ts := ToText(Get(data, "meeting_url")),
                          ToText(Get(data, "state")), ToText(Get(data, "transcription_state"));
    assert FormatBotCreated(data).value == JoinWith("\n", CreatedLinesOf(id, url, state, ts));
    CreatedLinesClose(id, url, state, ts);
  }

  /** A joined creation report ends with a blank line and the hint. */
  lemma CreatedLinesClose(id: string, url: string, state: string, ts: string)
    ensures EndsWith(JoinWith("\n", CreatedLinesOf(id, url, state, ts)), "\n\n" + CheckHint + id)
  {
    var lines := CreatedLinesOf(id, url, state, ts);
    var last := CheckHint + id;
    assert |lines| == 8 && lines[6] == "" && lines[7] == last;
    BlankThenLast(lines, last);
    assert "\n\n" + last == "\n\n" + CheckHint + id;
  }

  const NoBotsMessage := "📋 No active meeting bots found."

  /** `Array.isArray(data) ? data : (data.bots || [])`. */
  function BotsValue(data: Value): (r: Fallible<Value>)
    ensures r.Err? <==> Nullish(data)
    ensures r.Err? ==> r.error == ReadFailure(data, "bots")
    ensures r.Ok? ==> !Nullish(r.value)
    ensures data.Arr? ==> r == Ok(data)
    ensures data.Obj? && "bots" in data.fields && Truthy(data.fields["bots"]) ==> r == Ok(data.fields["bots"])
    ensures data.Obj? && ("bots" !in data.fields || !Truthy(data.fields["bots"])) ==> r == Ok(Arr([]))
    ensures !data.Arr? && !data.Obj? && !Nullish(data) ==> r == Ok(Arr([]))
  {
    if data.Arr? then Ok(data)
    else if Nullish(data) then Err(ReadFailure(data, "bots"))
    else
      var b := Get(data, "bots");
      Ok(if Truthy(b) then b else Arr([]))
  }

  /** The first `n` characters of `s`, as `s.substring(0, n)`. */
  function Truncate(s: string, n: nat): (r: string)
    ensures |r| <= n && StartsWith(s, r)
    ensures |s| <= n <==> r == s
    ensures |s| > n ==> r == s[..n]
  {
    if |s| <= n then s else s[..n]
  }

  /** The first line of an entry: its one-based number and the bot id. */
  function EntryHead(index: nat, id: string): string {
    NatToDecimal(index + 1) + ". Bot ID: " + id
  }

  /** The state and transcription lines of an entry. */
  function EntryMiddle(state: Value, ts: Value): string {
    "\n   📊 State: " + ToText(state) + " " + [StateIcon(state)]
    + "\n   📝 Transcription: " + ToText(ts) + " " + [TranscriptIcon(ts)]
  }

  /** The meeting line of an entry: at most 50 characters of the URL. */
  function EntryTail(url: string): string {
    "\n   🔗 Meeting: " + Truncate(url, 50) + "..."
  }

  /** The entry for one bot at zero-based position `index`. Reading `state`
      of a null bot throws first; `substring` exists only on strings. */
  function BotEntry(bot: Value, index: nat): (r: Fallible<string>)
    ensures r.Ok? <==> Listable(bot)
    ensures r.Err? ==> r.error.TypeError?
  {
    if Nullish(bot) then Err(ReadFailure(bot, "state"))
    else
      var url := Get(bot, "meeting_url");
      if Nullish(url) then Err(ReadFailure(url, "substring"))
      else if !url.Str? then Err(TypeError("bot.meeting_url.substring is not a function"))
      else
        Ok(EntryHead(index, ToText(Get(bot, "id")))
           + EntryMiddle(Get(bot, "state"), Get(bot, "transcription_state"))
           + EntryTail(url.s))
  }

  /** A bot `listMeetingBots` can render: readable, with a string URL. */
  predicate Listable(bot: Value) {
    !Nullish(bot) && Get(bot, "meeting_url").Str?
  }

  /** An entry starts with its one-based number and the bot id, and ends
      with at most the first 50 characters of the meeting URL followed by
      "..." whatever the URL's length. */
  lemma BotEntryShape(bot: Value, index: nat)
    requires Listable(bot)
    ensures var r := BotEntry(bot, index);
            var url := Get(bot, "meeting_url").s;
            && r.Ok?
            && StartsWith(r.value, EntryHead(index, ToText(Get(bot, "id"))))
            && EndsWith(r.value, "\n   🔗 Meeting: " + Truncate(url, 50) + "...")
            && |Truncate(url, 50)| == (if |url| < 50 then |url| else 50)
  {
    var head := EntryHead(index, ToText(Get(bot, "id")));
    var middle := EntryMiddle(Get(bot, "state"), Get(bot, "transcription_state"));
    var tail := EntryTail(Get(bot, "meeting_url").s);
    var v := BotEntry(bot, index).value;
    assert v == head + middle + tail;
    assert v[..|head|] == head;
    assert v[|v| - |tail|..] == tail;
  }

  /** A listable bot's entry is its numbered head, then its state and
      transcription lines, then its meeting line. */
  lemma EntryParts(bot: Value, index: nat)
    requires Listable(bot)
    ensures BotEntry(bot, index).value
            == EntryHead(index, ToText(Get(bot, "id")))
               + EntryMiddle(Get(bot, "state"), Get(bot, "transcription_state"))
               + EntryTail(Get(bot, "meeting_url").s)
  {
  }

  /** The state line of an entry shows ✅ exactly when the state is
      "joining" or "joined", and ❌ otherwise. With `EntryParts`, this is
      the character at `|EntryHead(...)| + |pre|` of `BotEntry(bot, i).value`. */
  lemma EntryStateIcon(state: Value, ts: Value)
    ensures var m := EntryMiddle(state, ts);
            var pre := "\n   📊 State: " + ToText(state) + " ";
            && StartsWith(m, pre) && |pre| < |m|
            && (m[|pre|] == '✅' <==> state == Str("joining") || state == Str("joined"))
            && (m[|pre|] == '❌' <==> state != Str("joining") && state != Str("joined"))
  {
    var pre := "\n   📊 State: " + ToText(state) + " ";
    var rest := "\n   📝 Transcription: " + ToText(ts) + " " + [TranscriptIcon(ts)];
    assert EntryMiddle(state, ts) == pre + [StateIcon(state)] + rest;
    CharAt(pre, StateIcon(state), rest);
  }

  /** The transcription line of an entry ends with ✅ exactly when the
      transcription state is "complete", and with ⏳ otherwise. With
      `EntryParts`, this is the character just before `EntryTail(...)` in
      `BotEntry(bot, i).value`. */
  lemma EntryTranscriptIcon(state: Value, ts: Value)
    ensures var m := EntryMiddle(state, ts);
            var pre := "\n   📊 State: " + ToText(state) + " " + [StateIcon(state)]
                       + "\n   📝 Transcription: " + ToText(ts) + " ";
            && StartsWith(m, pre) && |m| == |pre| + 1
            && (m[|pre|] == '✅' <==> ts == Str("complete"))
            && (m[|pre|] == '⏳' <==> ts != Str("complete"))
  {
    var pre := "\n   📊 State: " + ToText(state) + " " + [StateIcon(state)]
               + "\n   📝 Transcription: " + ToText(ts) + " ";
    assert EntryMiddle(state, ts) == pre + [TranscriptIcon(ts)] + "";
    CharAt(pre, TranscriptIcon(ts), "");
  }

  /** `bots.map(...)` with positions counted from `start`: the entries in
      input order, or the error of the first bot whose entry throws. */
  function BotEntries(bots: seq<Value>, start: nat): (r: Fallible<seq<string>>)
    ensures r.Ok? <==> forall i :: 0 <= i < |bots| ==> Listable(bots[i])
    ensures r.Ok? ==> |r.value| == |bots|
    decreases |bots|
  {
    if |bots| == 0 then Ok([])
    else
      var rest := BotEntries(bots[1..], start + 1);
      assert forall i :: 1 <= i < |bots| ==> bots[1..][i - 1] == bots[i];
      Prepend(BotEntry(bots[0], start), rest)
  }

  /** Entry `i` of a rendered list is bot `i`'s entry, numbered from the
      start index: one entry per bot, in input order. */
  lemma {:induction false} BotEntriesAt(bots: seq<Value>, start: nat, i: nat)
    requires BotEntries(bots, start).Ok? && i < |bots|
    ensures BotEntries(bots, start).value[i] == BotEntry(bots[i], start + i).value
    decreases i
  {
    var rest := BotEntries(bots[1..], start + 1);
    EntriesCons(bots, start);
    if i > 0 {
      assert bots[1..][i - 1] == bots[i];
      BotEntriesAt(bots[1..], start + 1, i - 1);
      assert BotEntries(bots, start).value[i] == rest.value[i - 1];
    }
  }

  /** The first bot's entry ahead of the others'. */
  lemma EntriesCons(bots: seq<Value>, start: nat)
    requires |bots| > 0
    ensures BotEntries(bots, start) == Prepend(BotEntry(bots[0], start), BotEntries(bots[1..], start + 1))
  {
  }

  /** One entry ahead of the others, or the first failure. */
  function Prepend(x: Fallible<string>, y: Fallible<seq<string>>): (r: Fallible<seq<string>>)
    ensures r.Ok? <==> x.Ok? && y.Ok?
    ensures r.Ok? ==> r.value == [x.value] + y.value
  {
    if x.Err? then Err(x.error) else if y.Err? then y else Ok([x.value] + y.value)
  }

  const ListLead := "📋 Active Meeting Bots ("

  function ListHeader(count: nat): string {
    ListLead + NatToDecimal(count) + "):\n\n"
  }

  /** The text `listMeetingBots` returns for the payload of `GET /bots`. */
  function FormatBotList(data: Value): (r: Fallible<string>)
    ensures data.Arr? && |data.items| == 0 ==> r == Ok(NoBotsMessage)
    ensures r.Ok? && r.value != NoBotsMessage ==> StartsWith(r.value, ListLead)
    ensures data.Arr? && |data.items| > 0 ==> (r.Ok? <==> forall i :: 0 <= i < |data.items| ==> Listable(data.items[i]))
    ensures BotsValue(data).Ok? && !BotsValue(data).value.Arr? && Get(BotsValue(data).value, "length") != Num(0)
            ==> r == Err(TypeError("bots.map is not a function"))
  {
    match BotsValue(data)
    case Err(f) => Err(f)
    case Ok(bots) =>
      if Get(bots, "length") == Num(0) then Ok(NoBotsMessage)
      else if !bots.Arr? then Err(TypeError("bots.map is not a function"))
      else
        match BotEntries(bots.items, 0)
        case Err(f) => Err(f)
        case Ok(lines) => Ok(ListHeader(|bots.items|) + JoinWith("\n\n", lines))
  }

  /** A bare empty array, an object whose `bots` is an empty array, and an
      object without `bots` all give the same "no bots" message. */
  lemma EmptyListShapes()
    ensures FormatBotList(Arr([])) == Ok(NoBotsMessage)
    ensures FormatBotList(Obj(map["bots" := Arr([])])) == Ok(NoBotsMessage)
    ensures FormatBotList(Obj(map[])) == Ok(NoBotsMessage)
  {
    assert Get(Arr([]), "length") == Num(0);
  }

  /** The text depends only on the normalised list: any payload whose
      `bots` normalise to an array renders exactly as that bare array. */
  lemma ListNormalised(data: Value, items: seq<Value>)
    requires BotsValue(data) == Ok(Arr(items))
    ensures FormatBotList(data) == FormatBotList(Arr(items))
  {
  }

  /** For a non-empty list of readable bots, the header states the number
      of bots, followed by entries numbered 1..n in input order joined by
      blank lines; the digits after the header's lead read back as the
      list's length. */
  lemma NonEmptyList(items: seq<Value>)
    requires |items| > 0
    requires forall i :: 0 <= i < |items| ==> Listable(items[i])
    ensures var r := FormatBotList(Arr(items));
            && r.Ok?
            && r.value == ListHeader(|items|) + JoinWith("\n\n", BotEntries(items, 0).value)
            && |BotEntries(items, 0).value| == |items|
            && (forall i :: 0 <= i < |items| ==>
                  StartsWith(BotEntries(items, 0).value[i], NatToDecimal(i + 1) + ". Bot ID: "
                             + ToText(Get(items[i], "id"))))
            && StartsWith(r.value, ListLead)
            && LeadsWithNumber(r.value[|ListLead|..], |items|)
  {
    ListJoined(items);
    EntryHeads(items);
    HeaderCount(|items|, JoinWith("\n\n", BotEntries(items, 0).value));
  }

  /** A non-empty list of listable bots is the header and the joined entries. */
  lemma ListJoined(items: seq<Value>)
    requires |items| > 0
    requires forall i :: 0 <= i < |items| ==> Listable(items[i])
    ensures BotEntries(items, 0).Ok?
    ensures FormatBotList(Arr(items)) == Ok(ListHeader(|items|) + JoinWith("\n\n", BotEntries(items, 0).value))
  {
  }

  /** Each entry of a listable list opens with its number and its bot's id. */
  lemma EntryHeads(items: seq<Value>)
    requires forall i :: 0 <= i < |items| ==> Listable(items[i])
    ensures BotEntries(items, 0).Ok?
    ensures forall i :: 0 <= i < |items| ==>
              StartsWith(BotEntries(items, 0).value[i], NatToDecimal(i + 1) + ". Bot ID: "
                         + ToText(Get(items[i], "id")))
  {
    forall i | 0 <= i < |items|
      ensures StartsWith(BotEntries(items, 0).value[i], EntryHead(i, ToText(Get(items[i], "id"))))
    {
      EntryHeadAt(items, i);
    }
  }

  /** Entry i of a listable list opens with number i+1 and bot i's id. */
  lemma EntryHeadAt(items: seq<Value>, i: nat)
    requires BotEntries(items, 0).Ok? && i < |items|
    ensures StartsWith(BotEntries(items, 0).value[i], EntryHead(i, ToText(Get(items[i], "id"))))
  {
    var bot := items[i];
    assert Listable(bot);
    BotEntriesAt(items, 0, i);
    var entry := BotEntry(bot, i).value;
    assert BotEntries(items, 0).value[i] == entry;
    EntryOpens(bot, i);
    assert StartsWith(entry, EntryHead(i, ToText(Get(bot, "id"))));
  }

  /** A listable bot's entry opens with its number and id. */
  lemma EntryOpens(bot: Value, index: nat)
    requires Listable(bot)
    ensures BotEntry(bot, index).Ok?
    ensures StartsWith(BotEntry(bot, index).value, EntryHead(index, ToText(Get(bot, "id"))))
  {
    BotEntryShape(bot, index);
  }

  /** The count in a list header reads back from the text after the lead. */
  lemma HeaderCount(n: nat, body: string)
    ensures var t := ListHeader(n) + body;
            StartsWith(t, ListLead) && LeadsWithNumber(t[|ListLead|..], n)
  {
    var d := NatToDecimal(n);
    var close := "):\n\n";
    Reassociate(ListLead, d, close, body);
    AfterPrefix(ListLead, d + close + body);
    Regroup(d, close, body);
    LeadingNumberOf(n, close + body);
  }

  /** `map` stops at the first bot whose entry throws, and that entry's
      error is the outcome. */
  lemma {:induction false} FirstUnlistableEntry(bots: seq<Value>, start: nat, k: nat)
    requires k < |bots| && !Listable(bots[k])
    requires forall j :: 0 <= j < k ==> Listable(bots[j])
    ensures BotEntries(bots, start) == Err(BotEntry(bots[k], start + k).error)
    decreases k
  {
    if k > 0 {
      assert forall j :: 0 <= j < k - 1 ==> bots[1..][j] == bots[j + 1];
      FirstUnlistableEntry(bots[1..], start + 1, k - 1);
    }
  }

  /** A list with a bot that cannot be listed answers with the error of the
      first such bot. */
  lemma FirstUnlistableBot(items: seq<Value>, k: nat)
    requires k < |items| && !Listable(items[k])
    requires forall j :: 0 <= j < k ==> Listable(items[j])
    ensures FormatBotList(Arr(items)) == Err(BotEntry(items[k], k).error)
  {
    FirstUnlistableEntry(items, 0, k);
  }
}

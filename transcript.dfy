/** The transcript rendering (`formatTranscriptResponse`). The upstream
    answers either with a bare array of transcript entries, rendered one
    block per entry under a header, or with a legacy object carrying
    `ready`, `transcript` and `transcription_state`. */
module Transcript {
  import opened Wrappers
  import opened Strings
  import opened Errors
  import opened JsValues

  /** The rule drawn above and below a transcript: 50 box-drawing dashes. */
  const Divider := Repeat('─', 50)

  function Header(botId: string): string {
    "📝 Meeting Transcript for bot " + botId + ":"
  }

  function NoTranscript(botId: string): string {
    "❌ No transcript available for bot " + botId
  }

  /** JavaScript's `%` on integers: the remainder of the division truncated
      toward zero, which takes the sign of the dividend. */
  function JsRem(a: int, b: int): (r: int)
    requires b > 0
    ensures -b < r < b
    ensures a >= 0 ==> 0 <= r && r == a % b
    ensures a <= 0 ==> r <= 0 && -r == (-a) % b
  {
    if a >= 0 then a % b else -((-a) % b)
  }

  /** `Math.floor(ms / 1000 / 60)` for an integral `ms`. */
  function Minutes(ms: int): (m: int)
    ensures m * 60000 <= ms < m * 60000 + 60000
  {
    ms / 60000
  }

  /** `Math.floor(ms / 1000 % 60)` for an integral `ms`: the truncated
      remainder of the seconds, rounded down. */
  function Seconds(ms: int): (s: int)
    ensures s * 1000 <= JsRem(ms, 60000) < s * 1000 + 1000
    ensures -60 <= s < 60
    ensures ms >= 0 ==> 0 <= s
  {
    JsRem(ms, 60000) / 1000
  }

  /** The `MM:SS` stamp of an entry: each field is `String(n)` padded with
      zeros to at least two characters; a timestamp that is not a number
      renders as "NaN:NaN". */
  function TimeStr(t: Numeric): (r: string)
    ensures t.NaN? ==> r == "NaN:NaN"
    ensures t.Int? ==> |r| >= 5
  {
    match t
    case NaN => "NaN:NaN"
    case Int(ms) => PadStart(IntToDecimal(Minutes(ms)), 2, '0') + ":" + PadStart(IntToDecimal(Seconds(ms)), 2, '0')
  }

  /** For a non-negative millisecond count, the minutes are the whole
      minutes, and the seconds are the whole seconds modulo 60. */
  lemma TimestampFields(ms: int)
    requires ms >= 0
    ensures Minutes(ms) == ms / 60000 >= 0
    ensures Seconds(ms) == (ms / 1000) % 60
    ensures 0 <= Seconds(ms) < 60
    ensures Minutes(ms) * 60 + Seconds(ms) == ms / 1000
  {
    var q := ms / 60000;
    var r := ms % 60000;
    var s := r / 1000;
    var u := r % 1000;
    assert ms == 60000 * q + r;
    assert r == 1000 * s + u && 0 <= s < 60 && 0 <= u < 1000;
    assert ms == 1000 * (60 * q + s) + u;
    assert ms / 1000 == 60 * q + s;
    assert (60 * q + s) % 60 == s;
  }

  /** A stamp for a non-negative time is minutes, a colon, and exactly two
      seconds digits; both fields read back as the minutes and seconds. */
  lemma TimeStrReadsBack(ms: int)
    requires ms >= 0
    ensures var s := TimeStr(Int(ms));
            && |s| >= 5
            && s[|s| - 3] == ':'
            && AllDigits(s[..|s| - 3]) && ParseDecimal(s[..|s| - 3]) == Minutes(ms)
            && AllDigits(s[|s| - 2..]) && ParseDecimal(s[|s| - 2..]) == Seconds(ms)
  {
    assert Minutes(ms) >= 0 && 0 <= Seconds(ms) < 60;
    var m := PadStart(NatToDecimal(Minutes(ms)), 2, '0');
    var sec := PadStart(NatToDecimal(Seconds(ms)), 2, '0');
    BelowHundred(Seconds(ms));
    assert TimeStr(Int(ms)) == m + ":" + sec;
    AroundColon(m, sec);
    PaddedDecimalReadsBack(Minutes(ms), 2);
    PaddedDecimalReadsBack(Seconds(ms), 2);
  }

  /** A number below 100 has at most two digits. */
  lemma BelowHundred(n: nat)
    requires n < 100
    ensures |NatToDecimal(n)| <= 2
  {
    if n >= 10 {
      assert NatToDecimal(n) == NatToDecimal(n / 10) + [DigitChar(n % 10)];
    }
  }

  /** The two fields of a stamp sit on either side of its colon. */
  lemma AroundColon(m: string, sec: string)
    requires |sec| == 2
    ensures var s := m + ":" + sec;
            && s[|s| - 3] == ':' && s[..|s| - 3] == m && s[|s| - 2..] == sec
  {
    var s := m + ":" + sec;
    assert s[..|s| - 3] == m;
    assert s[|s| - 2..] == sec;
  }

  /** 65 seconds render as one minute and five seconds. */
  lemma TimeStrExample()
    ensures TimeStr(Int(65000)) == "01:05"
  {
    assert Minutes(65000) == 1;
    assert Seconds(65000) == 5;
    assert NatToDecimal(1) == "1";
    assert NatToDecimal(5) == "5";
    assert PadStart("1", 2, '0') == "01";
    assert PadStart("5", 2, '0') == "05";
  }

  /** The block one entry adds: `[MM:SS] speaker:`, the text, a blank line.
      Reading `timestamp_ms` of a null entry throws. */
  function EntryBlock(entry: Value): (r: Fallible<string>)
    ensures r.Ok? <==> !Nullish(entry)
    ensures r.Err? ==> r.error == ReadFailure(entry, "timestamp_ms")
  {
    if Nullish(entry) then Err(ReadFailure(entry, "timestamp_ms"))
    else
      Ok(BlockText(TimeStr(ToNumber(Get(entry, "timestamp_ms"))),
                   ToText(Get(entry, "speaker_name")), ToText(Get(entry, "transcription"))))
  }

  /** `[MM:SS] speaker:`, a line break, the text and a blank line. */
  function BlockText(stamp: string, speaker: string, text: string): string {
    "[" + stamp + "] " + speaker + ":\n" + text + "\n\n"
  }

  /** A stamp is on one line. */
  lemma TimeStrUnbroken(t: Numeric)
    ensures '\n' !in TimeStr(t)
  {
    if t.Int? {
      DecimalUnbroken(Minutes(t.n));
      DecimalUnbroken(Seconds(t.n));
      PadStartUnbroken(IntToDecimal(Minutes(t.n)), 2, '0');
      PadStartUnbroken(IntToDecimal(Seconds(t.n)), 2, '0');
    }
  }

  /** A block splits at line breaks into the stamp-and-speaker line, the
      text, and two empty lines: the text is followed by a blank line. */
  lemma BlockLines(stamp: string, speaker: string, text: string)
    requires '\n' !in stamp && '\n' !in speaker && '\n' !in text
    ensures Split(BlockText(stamp, speaker, text), '\n')
            == ["[" + stamp + "] " + speaker + ":", text, "", ""]
  {
    var nl := "\n";
    var first := "[" + stamp + "] " + speaker + ":";
    var lines := [first, text, "", ""];
    assert lines[1..] == [text, "", ""];
    assert lines[2..] == ["", ""];
    assert lines[3..] == [""];
    assert JoinWith(nl, lines[2..]) == "" + nl + "";
    assert JoinWith(nl, lines[1..]) == text + nl + ("" + nl + "");
    assert JoinWith(nl, lines) == first + nl + (text + nl + ("" + nl + ""));
    assert BlockText(stamp, speaker, text) == JoinWith(nl, lines);
    LinesSplit(lines);
  }

  /** The block of a readable entry whose speaker and text are one line
      each: `[MM:SS] speaker:`, the text, then a blank line. */
  lemma EntryLines(entry: Value)
    requires !Nullish(entry)
    requires '\n' !in ToText(Get(entry, "speaker_name")) && '\n' !in ToText(Get(entry, "transcription"))
    ensures EntryBlock(entry).Ok?
    ensures Split(EntryBlock(entry).value, '\n')
            == ["[" + TimeStr(ToNumber(Get(entry, "timestamp_ms"))) + "] "
                  + ToText(Get(entry, "speaker_name")) + ":",
                ToText(Get(entry, "transcription")), "", ""]
  {
    var stamp := TimeStr(ToNumber(Get(entry, "timestamp_ms")));
    TimeStrUnbroken(ToNumber(Get(entry, "timestamp_ms")));
    BlockLines(stamp, ToText(Get(entry, "speaker_name")), ToText(Get(entry, "transcription")));
  }

  /** An entry at 65000 ms by Alice saying "hi". */
  lemma EntryBlockExample()
    ensures EntryBlock(Obj(map["timestamp_ms" := Num(65000), "speaker_name" := Str("Alice"),
                               "transcription" := Str("hi")]))
            == Ok("[01:05] Alice:\nhi\n\n")
  {
    var e := Obj(map["timestamp_ms" := Num(65000), "speaker_name" := Str("Alice"), "transcription" := Str("hi")]);
    assert Get(e, "timestamp_ms") == Num(65000);
    assert Get(e, "speaker_name") == Str("Alice");
    assert Get(e, "transcription") == Str("hi");
    TimeStrExample();
    assert ToNumber(Get(e, "timestamp_ms")) == Int(65000);
    assert EntryBlock(e) == Ok(BlockText("01:05", "Alice", "hi"));
    BlockTextExample();
  }

  lemma BlockTextExample()
    ensures BlockText("01:05", "Alice", "hi") == "[01:05] Alice:\nhi\n\n"
  {
    assert "[" + "01:05" + "] " == "[01:05] ";
    assert "[01:05] " + "Alice" + ":\n" == "[01:05] Alice:\n";
  }

  /** Two renderings one after the other: the texts concatenated, or the
      first failure. */
  function Then(x: Fallible<string>, y: Fallible<string>): (r: Fallible<string>)
    ensures r.Ok? <==> x.Ok? && y.Ok?
  {
    if x.Err? then x else if y.Err? then y else Ok(x.value + y.value)
  }

  lemma ThenAssociative(x: Fallible<string>, y: Fallible<string>, z: Fallible<string>)
    ensures Then(Then(x, y), z) == Then(x, Then(y, z))
  {
    if x.Ok? && y.Ok? && z.Ok? {
      assert x.value + y.value + z.value == x.value + (y.value + z.value);
    }
  }

  /** The blocks of `entries` in order, or the failure of the first entry
      that cannot be read. */
  function EntriesText(entries: seq<Value>): (r: Fallible<string>)
    ensures r.Ok? <==> forall i :: 0 <= i < |entries| ==> !Nullish(entries[i])
    ensures r.Err? ==> r.error.TypeError?
    decreases |entries|
  {
    if |entries| == 0 then Ok("")
    else
      var init, last := entries[..|entries| - 1], entries[|entries| - 1];
      assert forall i :: 0 <= i < |init| ==> init[i] == entries[i];
      assert (forall i :: 0 <= i < |entries| ==> !Nullish(entries[i]))
             <==> (forall i :: 0 <= i < |init| ==> !Nullish(init[i])) && !Nullish(last);
      Then(EntriesText(init), EntryBlock(last))
  }

  /** Rendering splits over concatenation: the text of `a + b` is the text
      of `a` followed by the text of `b`, and a failure in `a` wins. */
  lemma {:induction false} EntriesAppend(a: seq<Value>, b: seq<Value>)
    ensures EntriesText(a + b) == Then(EntriesText(a), EntriesText(b))
    decreases |b|
  {
    if |b| == 0 {
      assert a + b == a;
      if EntriesText(a).Ok? {
        assert EntriesText(a).value + "" == EntriesText(a).value;
      }
    } else {
      var b0 := b[..|b| - 1];
      assert (a + b)[..|a + b| - 1] == a + b0;
      assert (a + b)[|a + b| - 1] == b[|b| - 1];
      EntriesAppend(a, b0);
      assert EntriesText(a + b) == Then(EntriesText(a + b0), EntryBlock(b[|b| - 1]));
      assert EntriesText(b) == Then(EntriesText(b0), EntryBlock(b[|b| - 1]));
      ThenAssociative(EntriesText(a), EntriesText(b0), EntryBlock(b[|b| - 1]));
    }
  }

  /** One block per entry in input order: the text of entry `i` sits
      between the text of the entries before it and of those after it. */
  lemma EntryInPlace(entries: seq<Value>, i: nat)
    requires i < |entries|
    requires EntriesText(entries).Ok?
    ensures EntryBlock(entries[i]).Ok?
    ensures EntriesText(entries).value ==
            EntriesText(entries[..i]).value + EntryBlock(entries[i]).value + EntriesText(entries[i + 1..]).value
  {
    SplitAround(entries, i);
  }

  /** The text of `entries` seen around position `i`. */
  lemma SplitAround(entries: seq<Value>, i: nat)
    requires i < |entries|
    ensures EntriesText(entries) ==
            Then(Then(EntriesText(entries[..i]), EntryBlock(entries[i])), EntriesText(entries[i + 1..]))
  {
    var front, e, back := entries[..i], entries[i], entries[i + 1..];
    TakeOneMore(entries, i);
    assert entries == (front + [e]) + back;
    EntriesAppend(front + [e], back);
    EntriesSnoc(front, e);
  }

  /** The first entry that is null or undefined decides the failure. */
  lemma FirstUnreadableEntry(entries: seq<Value>, k: nat)
    requires k < |entries| && Nullish(entries[k])
    requires forall j :: 0 <= j < k ==> !Nullish(entries[j])
    ensures EntriesText(entries) == Err(ReadFailure(entries[k], "timestamp_ms"))
  {
    SplitAround(entries, k);
    assert EntriesText(entries[..k]).Ok?;
  }

  const TotalLabel := "\n📊 Total entries: "

  /** The header and divider above the entries. */
  function Opening(botId: string): string {
    Header(botId) + "\n\n" + Divider + "\n"
  }

  /** The divider and entry count below the entries. */
  function Closing(count: nat): string {
    Divider + TotalLabel + NatToDecimal(count)
  }

  /** The text for a bare entry array. */
  function TranscriptArrayText(entries: seq<Value>, botId: string): (r: Fallible<string>)
    ensures |entries| == 0 ==> r == Ok(NoTranscript(botId))
    ensures r.Ok? <==> forall i :: 0 <= i < |entries| ==> !Nullish(entries[i])
  {
    if |entries| == 0 then Ok(NoTranscript(botId))
    else
      match EntriesText(entries)
      case Err(f) => Err(f)
      case Ok(body) =>
        Ok(Opening(botId) + body + Closing(|entries|))
  }

  /** A non-empty array of readable entries renders as the header, a
      divider, the entry blocks, a closing divider and the entry count; the
      digits that close the text read back as the array's length. */
  lemma ArrayTranscriptShape(entries: seq<Value>, botId: string)
    requires |entries| > 0
    requires forall i :: 0 <= i < |entries| ==> !Nullish(entries[i])
    ensures var r := TranscriptArrayText(entries, botId);
            var opening := Opening(botId);
            var closing := Closing(|entries|);
            && r.Ok?
            && StartsWith(r.value, Header(botId) + "\n\n" + Divider + "\n")
            && EndsWith(r.value, Divider + "\n📊 Total entries: " + NatToDecimal(|entries|))
            && |opening| + |closing| <= |r.value|
            && r.value[|opening|..|r.value| - |closing|] == EntriesText(entries).value
            && TrailsWithNumber(r.value, |entries|)
  {
    Framed(Opening(botId), EntriesText(entries).value, Closing(|entries|));
    ClosingCount(Opening(botId) + EntriesText(entries).value, |entries|);
  }

  /** The count that closes the text reads back from its final digits. */
  lemma ClosingCount(front: string, n: nat)
    ensures TrailsWithNumber(front + Closing(n), n)
  {
    var tally := Divider + TotalLabel;
    var d := NatToDecimal(n);
    Regroup(front, tally, d);
    var head := front + tally;
    assert TotalLabel[|TotalLabel| - 1] == ' ';
    assert head[|head| - 1] == TotalLabel[|TotalLabel| - 1];
    TrailingNumberOf(head, n);
  }

  /** Rendering one more entry appends its block. */
  lemma EntriesSnoc(init: seq<Value>, e: Value)
    ensures EntriesText(init + [e]) == Then(EntriesText(init), EntryBlock(e))
  {
    assert (init + [e])[..|init|] == init;
  }

  /** Appending the block of one more entry to a text that ends with the
      rendering of the entries before it keeps that correspondence. */
  lemma GrowsByBlock(init: seq<Value>, e: Value, opening: string, t: string)
    requires EntriesText(init).Ok? && EntryBlock(e).Ok?
    requires t == opening + EntriesText(init).value
    ensures EntriesText(init + [e]).Ok?
    ensures t + EntryBlock(e).value == opening + EntriesText(init + [e]).value
  {
    EntriesSnoc(init, e);
    ThenExtends(opening, t, EntriesText(init), EntryBlock(e));
  }

  /** A text that ends with the first of two renderings, extended by the
      second, ends with both. */
  lemma ThenExtends(opening: string, t: string, x: Fallible<string>, y: Fallible<string>)
    requires x.Ok? && y.Ok? && t == opening + x.value
    ensures Then(x, y).Ok? && t + y.value == opening + Then(x, y).value
  {
    Regroup(opening, x.value, y.value);
  }

  lemma TakeOneMore<T>(s: seq<T>, i: nat)
    requires i < |s|
    ensures s[..i + 1] == s[..i] + [s[i]]
  {
  }

  lemma PrefixReadable(entries: seq<Value>, i: nat)
    requires i <= |entries| && EntriesText(entries[..i]).Ok?
    ensures forall j :: 0 <= j < i ==> !Nullish(entries[j])
  {
    forall j | 0 <= j < i
      ensures !Nullish(entries[j])
    {
      assert entries[..i][j] == entries[j];
    }
  }

  /** The array branch as the source writes it: the text grows by `+=`,
      one block per entry. */
  method FormatTranscriptArray(entries: seq<Value>, botId: string) returns (r: Fallible<string>)
    ensures r == TranscriptArrayText(entries, botId)
  {
    if |entries| == 0 {
      return Ok(NoTranscript(botId));
    }
    var transcript := Header(botId) + "\n\n";
    transcript := transcript + Divider + "\n";
    assert entries[..0] == [];
    var i := 0;
    while i < |entries|
      invariant 0 <= i <= |entries|
      invariant EntriesText(entries[..i]).Ok?
      invariant transcript == Opening(botId) + EntriesText(entries[..i]).value
    {
      var block := EntryBlock(entries[i]);
      if block.Err? {
        PrefixReadable(entries, i);
        FirstUnreadableEntry(entries, i);
        return Err(block.error);
      }
      TakeOneMore(entries, i);
      GrowsByBlock(entries[..i], entries[i], Opening(botId), transcript);
      transcript := transcript + block.value;
      i := i + 1;
    }
    assert entries[..i] == entries;
    transcript := transcript + Closing(|entries|);
    return Ok(transcript);
  }

  /** The hint under a transcript that is not ready yet, one line of text
      written here in four pieces so that each can be checked for line
      breaks on its own. */
  const PendingHint := "💡 The transcript will be " + "available after the "
                       + "meeting ends and " + "processing completes."

  /** 🔄 while the transcription is in progress, ⏳ otherwise. */
  function PendingIcon(transcriptionState: Value): (c: char)
    ensures c == '🔄' <==> transcriptionState == Str("in_progress")
    ensures c == '🔄' || c == '⏳'
  {
    if transcriptionState == Str("in_progress") then '🔄' else '⏳'
  }

  /** The text for a legacy transcript object. Reading `ready` of a null
      payload throws. */
  function LegacyTranscript(data: Value, botId: string): (r: Fallible<string>)
    ensures r.Ok? <==> !Nullish(data)
    ensures r.Err? ==> r.error == ReadFailure(data, "ready")
  {
    if Nullish(data) then Err(ReadFailure(data, "ready"))
    else if Truthy(Get(data, "ready")) && Truthy(Get(data, "transcript")) then
      Ok(JoinWith("\n", [Header(botId), "", Divider, ToText(Get(data, "transcript")), Divider]))
    else
      var ts := Get(data, "transcription_state");
      Ok(JoinWith("\n", [[PendingIcon(ts)] + " Transcript not ready for bot " + botId,
                         "Current transcription state: " + ToText(ts),
                         "",
                         PendingHint]))
  }

  /** A ready legacy transcript is the header and the transcript text
      wrapped between two dividers. */
  lemma LegacyReady(data: Value, botId: string)
    requires !Nullish(data) && Truthy(Get(data, "ready")) && Truthy(Get(data, "transcript"))
    ensures var r := LegacyTranscript(data, botId);
            var opening := Opening(botId);
            var closing := "\n" + Divider;
            && r.Ok?
            && StartsWith(r.value, Header(botId) + "\n\n" + Divider + "\n")
            && EndsWith(r.value, closing)
            && |opening| + |closing| <= |r.value|
            && r.value[|opening|..|r.value| - |closing|] == ToText(Get(data, "transcript"))
  {
    var t := ToText(Get(data, "transcript"));
    ReadyJoin(Header(botId), Divider, t);
    Framed(Opening(botId), t, "\n" + Divider);
  }

  /** The five ready lines joined: header, blank line, divider, text, divider. */
  lemma ReadyJoin(header: string, divider: string, t: string)
    ensures JoinWith("\n", [header, "", divider, t, divider])
            == header + "\n\n" + divider + "\n" + t + ("\n" + divider)
  {
    var nl := "\n";
    var lines := [header, "", divider, t, divider];
    assert lines[1..] == ["", divider, t, divider];
    assert lines[2..] == [divider, t, divider];
    assert lines[3..] == [t, divider];
    assert lines[4..] == [divider];
    assert JoinWith(nl, lines[3..]) == t + nl + divider;
    assert JoinWith(nl, lines[2..]) == divider + nl + (t + nl + divider);
    assert JoinWith(nl, lines[1..]) == "" + nl + (divider + nl + (t + nl + divider));
    assert nl + nl == "\n\n";
  }

  /** The waiting hint is one line. */
  lemma PendingHintUnbroken()
    ensures '\n' !in PendingHint
  {
    var a, b := "💡 The transcript will be ", "available after the ";
    var c, d := "meeting ends and ", "processing completes.";
    assert '\n' !in a && '\n' !in b && '\n' !in c && '\n' !in d;
  }

  /** A legacy payload that is not ready renders four lines: the icon with
      the bot id, the transcription state, a blank line, and the hint. */
  lemma PendingLines(data: Value, botId: string)
    requires !Nullish(data) && !(Truthy(Get(data, "ready")) && Truthy(Get(data, "transcript")))
    requires '\n' !in botId && '\n' !in ToText(Get(data, "transcription_state"))
    ensures LegacyTranscript(data, botId).Ok?
    ensures var ts := Get(data, "transcription_state");
            Split(LegacyTranscript(data, botId).value, '\n')
            == [[PendingIcon(ts)] + " Transcript not ready for bot " + botId,
                "Current transcription state: " + ToText(ts),
                "",
                PendingHint]
  {
    var ts := Get(data, "transcription_state");
    var icon := PendingIcon(ts);
    var lead, caption := " Transcript not ready for bot ", "Current transcription state: ";
    var first, second := [icon] + lead + botId, caption + ToText(ts);
    assert '\n' !in [icon] && '\n' !in lead && '\n' !in caption;
    OneLine([icon] + lead, botId);
    OneLine(caption, ToText(ts));
    assert LegacyTranscript(data, botId).value == JoinWith("\n", [first, second, "", PendingHint]);
    PendingSplit(first, second);
  }

  /** Two texts without line breaks put together have none. */
  lemma OneLine(x: string, y: string)
    requires '\n' !in x && '\n' !in y
    ensures '\n' !in x + y
  {
  }

  /** Two one-line texts above a blank line and the hint split back apart. */
  lemma PendingSplit(first: string, second: string)
    requires '\n' !in first && '\n' !in second
    ensures var lines := [first, second, "", PendingHint];
            Split(JoinWith("\n", lines), '\n') == lines
  {
    var lines := [first, second, "", PendingHint];
    PendingHintUnbroken();
    assert '\n' !in lines[0] && '\n' !in lines[1] && '\n' !in lines[2] && '\n' !in lines[3];
    LinesSplit(lines);
  }

  /** The first character of a legacy rendering tells the three outcomes
      apart: 📝 for a ready transcript, 🔄 while transcription is in
      progress, ⏳ in every other case. */
  lemma LegacyFirstChar(data: Value, botId: string)
    requires !Nullish(data)
    ensures var r := LegacyTranscript(data, botId);
            var ready := Truthy(Get(data, "ready")) && Truthy(Get(data, "transcript"));
            var ts := Get(data, "transcription_state");
            && r.Ok? && |r.value| > 0
            && (r.value[0] == '📝' <==> ready)
            && (r.value[0] == '🔄' <==> !ready && ts == Str("in_progress"))
            && (r.value[0] == '⏳' <==> !ready && ts != Str("in_progress"))
  {
    var v := LegacyTranscript(data, botId).value;
    if Truthy(Get(data, "ready")) && Truthy(Get(data, "transcript")) {
      assert StartsWith(v, Header(botId));
      assert v[0] == Header(botId)[0] == '📝';
    } else {
      var first := [PendingIcon(Get(data, "transcription_state"))] + " Transcript not ready for bot " + botId;
      assert StartsWith(v, first);
      assert v[0] == first[0];
    }
  }

  /** `formatTranscriptResponse`: an array payload is a list of entries,
      anything else is read as a legacy object. */
  function TranscriptText(data: Value, botId: string): (r: Fallible<string>)
    ensures r.Ok? <==> if data.Arr? then forall i :: 0 <= i < |data.items| ==> !Nullish(data.items[i])
                       else !Nullish(data)
    ensures r.Err? ==> r.error.TypeError?
  {
    if data.Arr? then TranscriptArrayText(data.items, botId) else LegacyTranscript(data, botId)
  }

  /** `formatTranscriptResponse` with its array branch run as a loop. */
  method FormatTranscriptResponse(data: Value, botId: string) returns (r: Fallible<string>)
    ensures r == TranscriptText(data, botId)
  {
    if data.Arr? {
      r := FormatTranscriptArray(data.items, botId);
    } else {
      r := LegacyTranscript(data, botId);
    }
  }
}

/**
  The chat session client (frontend/streamlit_app.py): the session transcript,
  the history it sends for direct chat, the typing reveal, the shaping of each
  endpoint's reply into a transcript payload, the source listing and the
  choice of bubble for each transcript entry.

  The gateway's three endpoints are parameters (`Backend`), and so are two
  formatting routines of Python that the model does not reimplement: `show`,
  `str()` of a decoded JSON value that is not a string, and `score3`, the
  `:.3f` rendering of a score.
*/
module ChatClient {
  import opened Results
  import opened Text
  import opened Json

  const You := "You"
  const Bot := "Bot"

  /** "❌", the mark of every failure text. */
  const ErrorMark := "\U{274C}"
  /** "🌤️" (sun behind cloud and a variation selector), the weather header. */
  const WeatherMark := "\U{1F324}\U{FE0F}"

  // ---------------------------------------------------------------------------
  // Transcript

  /** A source of a retrieval-augmented answer as the client reads it. */
  datatype Source = Source(content: Option<string>, score: Option<real>, metadata: Option<map<string, Value>>)

  /** What a transcript entry holds: a text, or the `{"answer", "sources"}`
      dictionary of a retrieval-augmented reply. */
  datatype Payload = Plain(text: string) | RagResult(answer: string, sources: seq<Source>)

  /** One `(sender, payload)` pair of `st.session_state.messages`. */
  datatype Entry = Entry(sender: string, payload: Payload)

  /** A `{"role", "content"}` message as the client sends it; the content is
      the entry's payload unchanged. */
  datatype OutMessage = OutMessage(role: string, content: Payload)

  /** What one entry contributes to the backend history. */
  function Converted(e: Entry): Option<OutMessage> {
    if e.sender == You then Some(OutMessage("user", e.payload))
    else if e.sender == Bot && e.payload.Plain? then Some(OutMessage("assistant", e.payload))
    else None
  }

  /** The history `format_messages_for_backend` produces. */
  function History(entries: seq<Entry>): (h: seq<OutMessage>)
    ensures |h| <= |entries|
    ensures forall k :: 0 <= k < |h| ==> h[k].role == "user" || (h[k].role == "assistant" && h[k].content.Plain?)
  {
    if entries == [] then []
    else
      var last := entries[|entries| - 1];
      History(entries[..|entries| - 1]) + match Converted(last) case Some(m) => [m] case None => []
  }

  /** The history of a transcript is the histories of its parts, in order. */
  lemma {:induction false} HistoryAppend(a: seq<Entry>, b: seq<Entry>)
    ensures History(a + b) == History(a) + History(b)
  {
    if b == [] {
      assert a + b == a;
    } else {
      assert (a + b)[..|a + b| - 1] == a + b[..|b| - 1];
      HistoryAppend(a, b[..|b| - 1]);
    }
  }

  /** A single entry: a "You" entry becomes a user message with the same
      content, a "Bot" text becomes an assistant message, anything else is dropped. */
  lemma HistoryOfEntry(e: Entry)
    ensures e.sender == You ==> History([e]) == [OutMessage("user", e.payload)]
    ensures e.sender == Bot && e.payload.Plain? ==> History([e]) == [OutMessage("assistant", e.payload)]
    ensures e.sender != You && !(e.sender == Bot && e.payload.Plain?) ==> History([e]) == []
  {
    assert [e][..0] == [];
  }

  /** No entry is dropped exactly when every entry is a "You" entry or a "Bot" text. */
  lemma {:induction false} HistoryKeepsAll(entries: seq<Entry>)
    ensures |History(entries)| == |entries| <==> forall i :: 0 <= i < |entries| ==> Converted(entries[i]).Some?
  {
    if entries != [] {
      var init := entries[..|entries| - 1];
      HistoryKeepsAll(init);
      if forall i :: 0 <= i < |entries| ==> Converted(entries[i]).Some? {
        assert forall i :: 0 <= i < |init| ==> Converted(init[i]).Some? by {
          forall i | 0 <= i < |init| ensures Converted(init[i]).Some? {
            assert init[i] == entries[i];
          }
        }
      }
      if |History(entries)| == |entries| {
        forall i | 0 <= i < |entries| ensures Converted(entries[i]).Some? {
          if i < |init| {
            assert init[i] == entries[i];
          }
        }
      }
    }
  }

  /** `format_messages_for_backend` */
  method FormatMessagesForBackend(messages: seq<Entry>) returns (backend: seq<OutMessage>)
    ensures backend == History(messages)
  {
    backend := [];
    for i := 0 to |messages|
      invariant backend == History(messages[..i])
    {
      var e := messages[i];
      assert messages[..i + 1][..i] == messages[..i];
      if e.sender == You {
        backend := backend + [OutMessage("user", e.payload)];
      } else if e.sender == Bot && e.payload.Plain? {
        backend := backend + [OutMessage("assistant", e.payload)];
      }
    }
    assert messages[..|messages|] == messages;
  }

  /** A transcript built by submissions: exchanges of a "You" entry followed
      by a "Bot" entry. */
  ghost predicate Paired(entries: seq<Entry>)
    decreases |entries|
  {
    entries == []
    || (&& |entries| >= 2
        && entries[|entries| - 2].sender == You
        && entries[|entries| - 1].sender == Bot
        && Paired(entries[..|entries| - 2]))
  }

  function CountRole(h: seq<OutMessage>, role: string): nat {
    if h == [] then 0 else CountRole(h[..|h| - 1], role) + if h[|h| - 1].role == role then 1 else 0
  }

  lemma {:induction false} CountRoleAppend(a: seq<OutMessage>, b: seq<OutMessage>, role: string)
    ensures CountRole(a + b, role) == CountRole(a, role) + CountRole(b, role)
  {
    if b == [] {
      assert a + b == a;
    } else {
      assert (a + b)[..|a + b| - 1] == a + b[..|b| - 1];
      CountRoleAppend(a, b[..|b| - 1], role);
    }
  }

  /** A single message counts once exactly when it has the role. */
  lemma CountRoleSingle(m: OutMessage, role: string)
    ensures CountRole([m], role) == if m.role == role then 1 else 0
  {
    assert [m][..0] == [];
  }

  /** One exchange contributes exactly one user message. */
  lemma ExchangeUserCount(you: Entry, bot: Entry)
    requires you.sender == You && bot.sender == Bot
    ensures CountRole(History([you, bot]), "user") == 1
  {
    assert [you] + [bot] == [you, bot];
    HistoryAppend([you], [bot]);
    HistoryOfEntry(you);
    HistoryOfEntry(bot);
    CountRoleAppend(History([you]), History([bot]), "user");
    CountRoleSingle(OutMessage("user", you.payload), "user");
    if bot.payload.Plain? {
      assert "assistant"[0] != "user"[0];
      CountRoleSingle(OutMessage("assistant", bot.payload), "user");
    }
  }

  /** An exchange appended to a transcript adds one user message to its history. */
  lemma CountAfterExchange(init: seq<Entry>, you: Entry, bot: Entry)
    requires you.sender == You && bot.sender == Bot
    ensures CountRole(History(init + [you, bot]), "user") == CountRole(History(init), "user") + 1
  {
    HistoryAppend(init, [you, bot]);
    CountRoleAppend(History(init), History([you, bot]), "user");
    ExchangeUserCount(you, bot);
  }

  /** In a transcript built by submissions every user entry reaches the
      history: it holds one user message per exchange. */
  lemma {:induction false} UserMessagesOfPaired(entries: seq<Entry>)
    requires Paired(entries)
    ensures CountRole(History(entries), "user") == |entries| / 2
  {
    if entries != [] {
      var n := |entries|;
      var init := entries[..n - 2];
      var you, bot := entries[n - 2], entries[n - 1];
      UserMessagesOfPaired(init);
      assert entries == init + [you, bot];
      CountAfterExchange(init, you, bot);
    }
  }

  // ---------------------------------------------------------------------------
  // Typing reveal

  /** The revealed text after the given words: each word followed by a space. */
  function Typed(words: seq<string>): string {
    if words == [] then "" else Typed(words[..|words| - 1]) + words[|words| - 1] + " "
  }

  /** The revealed text is the words joined by single spaces, plus one space. */
  lemma {:induction false} TypedIsJoin(words: seq<string>)
    requires |words| >= 1
    ensures Typed(words) == Join(words, ' ') + " "
  {
    var init := words[..|words| - 1];
    var w := words[|words| - 1];
    if |init| == 0 {
      assert words == [w];
    } else {
      TypedIsJoin(init);
      assert init + [w] == words;
      JoinSnoc(init, w, ' ');
    }
  }

  /** Once the last word is revealed the text reads the whole input and a
      trailing space: no word lost, none repeated. */
  lemma TypingRevealsText(text: string)
    ensures Typed(Split(text, ' ')) == text + " "
  {
    TypedIsJoin(Split(text, ' '));
    JoinSplit(text, ' ');
  }

  /** Revealing one more word appends that word and a space. */
  lemma TypedStep(words: seq<string>, i: nat)
    requires i < |words|
    ensures Typed(words[..i + 1]) == Typed(words[..i]) + words[i] + " "
  {
    assert words[..i + 1][..i] == words[..i];
  }

  /** `simulate_typing`: the successive texts shown (each followed on screen by
      the cursor "●"), one per `' '`-separated piece, then the final text. */
  method SimulateTyping(text: string) returns (frames: seq<string>, final: string)
    ensures |frames| == |Split(text, ' ')|
    ensures forall i :: 0 <= i < |frames| ==> frames[i] == Typed(Split(text, ' ')[..i + 1])
    ensures forall i :: 0 < i < |frames| ==> frames[i] == frames[i - 1] + Split(text, ' ')[i] + " "
    ensures frames[|frames| - 1] == text + " "
    ensures final == text
  {
    var words := Split(text, ' ');
    var current := "";
    frames := [];
    for i := 0 to |words|
      invariant current == Typed(words[..i])
      invariant |frames| == i
      invariant forall k :: 0 <= k < i ==> frames[k] == Typed(words[..k + 1])
    {
      TypedStep(words, i);
      current := current + words[i] + " ";
      frames := frames + [current];
    }
    assert words[..|words|] == words;
    TypingRevealsText(text);
    forall i | 0 < i < |frames| ensures frames[i] == frames[i - 1] + words[i] + " " {
      TypedStep(words, i);
    }
    final := text;
  }

  // ---------------------------------------------------------------------------
  // Source listing

  const PreviewLimit := 100

  /** The content preview: at most 100 characters, "..." appended when cut. */
  function Preview(content: string): (p: string)
    ensures |p| <= PreviewLimit + 3
    ensures |content| <= PreviewLimit ==> p == content
    ensures |content| > PreviewLimit ==>
              |p| == PreviewLimit + 3 && StartsWith(content, p[..PreviewLimit]) && p[PreviewLimit..] == "..."
  {
    if |content| > PreviewLimit then content[..PreviewLimit] + "..." else content
  }

  function Min(a: int, b: int): int {
    if a < b then a else b
  }

  /** The line for the source numbered `n`. */
  function SourceLine(n: nat, source: Source, score3: real -> string): string {
    NatToString(n) + ". Score: " + score3(source.score.GetOr(0.0)) + " | " + Preview(source.content.GetOr("")) + "\n"
  }

  /** The lines listed for `sources[:3]`, numbered from 1. */
  function ListedLines(sources: seq<Source>, score3: real -> string): (lines: seq<string>)
    ensures |lines| == Min(3, |sources|)
    ensures forall i :: 0 <= i < |lines| ==> lines[i] == SourceLine(i + 1, sources[i], score3)
  {
    seq(Min(3, |sources|), i requires 0 <= i < Min(3, |sources|) => SourceLine(i + 1, sources[i], score3))
  }

  function Concat(lines: seq<string>): string {
    if lines == [] then "" else Concat(lines[..|lines| - 1]) + lines[|lines| - 1]
  }

  lemma ConcatStep(lines: seq<string>, i: nat)
    requires i < |lines|
    ensures Concat(lines[..i + 1]) == Concat(lines[..i]) + lines[i]
  {
    assert lines[..i + 1][..i] == lines[..i];
  }

  lemma AppendLine(header: string, lines: seq<string>, i: nat, text: string, line: string)
    requires i < |lines| && line == lines[i]
    requires text == header + Concat(lines[..i])
    ensures text + line == header + Concat(lines[..i + 1])
  {
    ConcatStep(lines, i);
  }

  /** The sources loop: the header, then one line per listed source. */
  method SourcesText(header: string, sources: seq<Source>, score3: real -> string) returns (text: string)
    ensures text == header + Concat(ListedLines(sources, score3))
  {
    text := header;
    ghost var lines := ListedLines(sources, score3);
    var shown := sources[..Min(3, |sources|)];
    for i := 0 to |shown|
      invariant text == header + Concat(lines[..i])
    {
      var line := SourceLine(i + 1, shown[i], score3);
      AppendLine(header, lines, i, text, line);
      text := text + line;
    }
    assert lines[..|lines|] == lines;
  }

  /** The listing under an answer: none when there are no sources. */
  method SourcesListing(header: string, sources: seq<Source>, score3: real -> string) returns (r: Option<string>)
    ensures r.Some? <==> sources != []
    ensures r.Some? ==> r.value == header + Concat(ListedLines(sources, score3))
  {
    if sources == [] {
      r := None;
    } else {
      var text := SourcesText(header, sources, score3);
      r := Some(text);
    }
  }

  /** Each listed source keeps its place, is numbered from 1 and shows its preview. */
  lemma ListedLineShape(sources: seq<Source>, score3: real -> string, i: nat)
    requires i < Min(3, |sources|)
    ensures StartsWith(ListedLines(sources, score3)[i], NatToString(i + 1) + ". Score: ")
    ensures Contains(ListedLines(sources, score3)[i], " | " + Preview(sources[i].content.GetOr("")) + "\n")
  {
    var line := ListedLines(sources, score3)[i];
    var head := NatToString(i + 1) + ". Score: ";
    var tail := " | " + Preview(sources[i].content.GetOr("")) + "\n";
    assert line == head + score3(sources[i].score.GetOr(0.0)) + tail;
    assert line[..|head|] == head;
    ContainsPart(line, head + score3(sources[i].score.GetOr(0.0)), tail, "");
  }

  // ---------------------------------------------------------------------------
  // Endpoint replies

  /** The reply to one POST: the status, the body text and the body as the
      client reads it, or the text of an exception raised while sending or
      decoding (a connection failure, a timeout, a 200 whose body is not JSON). */
  datatype Reply<B> = Answered(status: nat, text: string, body: B) | Raised(error: string)

  /** The decoded bodies; the answer fields hold whatever JSON value was sent. */
  datatype ChatBody = ChatBody(response: Option<Value>)
  datatype RagBody = RagBody(answer: Option<Value>, sources: Option<seq<Source>>)
  datatype WeatherBody = WeatherBody(weather: Option<Value>, location: Option<string>)

  predicate Succeeded<B>(reply: Reply<B>) {
    reply.Answered? && reply.status == 200
  }

  /** The failure text of a helper: "❌ <what>Error: <status> - <body text>" or
      "❌ <what>Connection Error: <exception>". */
  function FailureText<B>(what: string, reply: Reply<B>): (r: string)
    requires !Succeeded(reply)
    ensures StartsWith(r, ErrorMark)
  {
    match reply
    case Answered(status, text, _) => ErrorMark + " " + what + "Error: " + NatToString(status) + " - " + text
    case Raised(e) => ErrorMark + " " + what + "Connection Error: " + e
  }

  /** `str(e)` of the AttributeError that `answer.split(' ')` raises in the
      typing reveal when the answer is not a string. */
  function NoSplit(v: Value): string {
    "'" + TypeName(v) + "' object has no attribute 'split'"
  }

  /** The answer a successful chat reply carries, "No response received" by default. */
  function ChatReplyAnswer(body: ChatBody): Value {
    body.response.GetOr(Str("No response received"))
  }

  /** `call_chat_endpoint`: the answer, "No response received" when the reply
      has no `response`, or a failure text; an answer that is not a string
      fails in the typing reveal and is caught as a connection error. */
  function ChatAnswer(reply: Reply<ChatBody>): (r: string)
    ensures Succeeded(reply) && ChatReplyAnswer(reply.body).Str? ==> r == ChatReplyAnswer(reply.body).s
    ensures Succeeded(reply) && !ChatReplyAnswer(reply.body).Str? ==>
              r == ErrorMark + " Connection Error: " + NoSplit(ChatReplyAnswer(reply.body))
    ensures !Succeeded(reply) ==> StartsWith(r, ErrorMark) && r == FailureText("", reply)
  {
    if Succeeded(reply) then
      var answer := ChatReplyAnswer(reply.body);
      if answer.Str? then answer.s else ErrorMark + " Connection Error: " + NoSplit(answer)
    else FailureText("", reply)
  }

  /** The header of the listing the retrieval helper shows under a fresh answer. */
  const LiveListingHeader := "\n\n\U{1F4DA} **Sources:**\n"

  /** The listing `call_rag_endpoint` shows under a fresh answer: only for a
      successful reply that has sources. */
  method LiveListing(reply: Reply<RagBody>, score3: real -> string) returns (r: Option<string>)
    ensures r.Some? <==> Succeeded(reply) && RagReplyAnswer(reply.body).Str? && reply.body.sources.GetOr([]) != []
    ensures r.Some? ==> r.value == LiveListingHeader + Concat(ListedLines(RagOutcome(reply).sources, score3))
  {
    if Succeeded(reply) && RagReplyAnswer(reply.body).Str? {
      r := SourcesListing(LiveListingHeader, reply.body.sources.GetOr([]), score3);
    } else {
      r := None;
    }
  }

  /** The answer a successful retrieval-augmented reply carries, "No answer received" by default. */
  function RagReplyAnswer(body: RagBody): Value {
    body.answer.GetOr(Str("No answer received"))
  }

  /** `call_rag_endpoint`: the answer with its sources; a failure, including an
      answer that is not a string, carries its text as the answer and no sources. */
  function RagOutcome(reply: Reply<RagBody>): (r: Payload)
    ensures r.RagResult?
    ensures Succeeded(reply) && RagReplyAnswer(reply.body).Str? ==>
              r == RagResult(RagReplyAnswer(reply.body).s, reply.body.sources.GetOr([]))
    ensures Succeeded(reply) && !RagReplyAnswer(reply.body).Str? ==>
              r == RagResult(ErrorMark + " RAG Connection Error: " + NoSplit(RagReplyAnswer(reply.body)), [])
    ensures !Succeeded(reply) ==>
              r == RagResult(FailureText("RAG ", reply), []) && StartsWith(r.answer, ErrorMark)
  {
    if Succeeded(reply) then
      var answer := RagReplyAnswer(reply.body);
      if answer.Str? then RagResult(answer.s, reply.body.sources.GetOr([]))
      else RagResult(ErrorMark + " RAG Connection Error: " + NoSplit(answer), [])
    else RagResult(FailureText("RAG ", reply), [])
  }

  /** Python's f-string rendering of a decoded value: a string is itself, any
      other value is rendered by `show`. */
  function Shown(v: Value, show: Value -> string): string {
    if v.Str? then v.s else show(v)
  }

  /** The weather report for a record that has every field. */
  function WeatherReport(location: string, fields: map<string, Value>, show: Value -> string): string
    requires "temperature" in fields && "description" in fields && "humidity" in fields && "wind_speed" in fields
  {
    WeatherMark + " **Weather in " + location + ":**\n"
    + "\U{1F321}\U{FE0F} Temperature: " + Shown(fields["temperature"], show) + "\U{B0}C\n"
    + "\U{1F4DD} Description: " + Shown(fields["description"], show) + "\n"
    + "\U{1F4A7} Humidity: " + Shown(fields["humidity"], show) + "%\n"
    + "\U{1F4A8} Wind Speed: " + Shown(fields["wind_speed"], show) + " km/h"
  }

  /** A dictionary payload that has a temperature. */
  predicate HasTemperature(data: Value) {
    data.Dict? && "temperature" in data.fields
  }

  /** `call_weather_endpoint`: the report, "Weather data for ..." for any other
      payload, or a failure text; a record missing one of the later fields
      raises KeyError inside the helper and becomes a failure text. */
  function WeatherText(reply: Reply<WeatherBody>, show: Value -> string): (r: string)
    ensures !Succeeded(reply) ==> StartsWith(r, ErrorMark) && r == FailureText("Weather ", reply)
    ensures Succeeded(reply) ==>
              var data := reply.body.weather.GetOr(Dict(map[]));
              var location := reply.body.location.GetOr("Unknown");
              && (!HasTemperature(data) ==> r == "Weather data for " + location + ": " + Shown(data, show))
              && ((HasTemperature(data) && "description" in data.fields && "humidity" in data.fields
                   && "wind_speed" in data.fields) ==> r == WeatherReport(location, data.fields, show))
              && (HasTemperature(data) && "description" !in data.fields ==>
                    r == ErrorMark + " Weather Connection Error: 'description'")
              && (HasTemperature(data) && "description" in data.fields && "humidity" !in data.fields ==>
                    r == ErrorMark + " Weather Connection Error: 'humidity'")
              && ((HasTemperature(data) && "description" in data.fields && "humidity" in data.fields
                   && "wind_speed" !in data.fields) ==> r == ErrorMark + " Weather Connection Error: 'wind_speed'")
              && (HasTemperature(data) ==> StartsWith(r, WeatherMark) || StartsWith(r, ErrorMark))
  {
    if !Succeeded(reply) then FailureText("Weather ", reply)
    else
      var data := reply.body.weather.GetOr(Dict(map[]));
      var location := reply.body.location.GetOr("Unknown");
      if HasTemperature(data) then
        var f := data.fields;
        if "description" !in f then ErrorMark + " Weather Connection Error: 'description'"
        else if "humidity" !in f then ErrorMark + " Weather Connection Error: 'humidity'"
        else if "wind_speed" !in f then ErrorMark + " Weather Connection Error: 'wind_speed'"
        else WeatherReport(location, f, show)
      else "Weather data for " + location + ": " + Shown(data, show)
  }

  // ---------------------------------------------------------------------------
  // Rendering

  datatype Bubble = UserBubble | RagBubble | WeatherBubble | ErrorBubble | BotBubble

  /** The CSS class of a bubble; a retrieval-augmented answer uses the plain
      bot style and is followed by its sources. */
  function CssClass(b: Bubble): string {
    match b
    case UserBubble => "user-bubble"
    case RagBubble => "bot-bubble"
    case WeatherBubble => "weather-bubble"
    case ErrorBubble => "error-bubble"
    case BotBubble => "bot-bubble"
  }

  /** The bubble the display loop chooses for an entry. */
  function BubbleOf(e: Entry): Bubble {
    if e.sender == You then UserBubble
    else
      match e.payload
      case RagResult(_, _) => RagBubble
      case Plain(t) =>
        if Contains(t, WeatherMark) then WeatherBubble
        else if Contains(t, ErrorMark) then ErrorBubble
        else BotBubble
  }

  /** A string can only contain a pattern that its first character starts
      somewhere in it. */
  lemma {:induction false} ContainsNeedsFirst(a: string, b: string, p: string)
    requires p != [] && p[0] !in a
    requires !Contains(b, p)
    ensures !Contains(a + b, p)
  {
    if a == [] {
      assert a + b == b;
    } else {
      assert (a + b)[0] == a[0];
      assert (a + b)[1..] == a[1..] + b;
      ContainsNeedsFirst(a[1..], b, p);
    }
  }

  /** A weather report is shown in a weather bubble. */
  lemma ReportIsWeatherBubble(location: string, fields: map<string, Value>, show: Value -> string)
    requires "temperature" in fields && "description" in fields && "humidity" in fields && "wind_speed" in fields
    ensures BubbleOf(Entry(Bot, Plain(WeatherReport(location, fields, show)))) == WeatherBubble
  {
    var report := WeatherReport(location, fields, show);
    assert report[..|WeatherMark|] == WeatherMark;
    StartsWithContains(report, WeatherMark);
  }

  /** A successful weather reply with a complete record is shown in a weather bubble. */
  lemma WeatherReplyIsWeatherBubble(reply: Reply<WeatherBody>, show: Value -> string)
    requires Succeeded(reply)
    requires var data := reply.body.weather.GetOr(Dict(map[]));
             HasTemperature(data) && "description" in data.fields && "humidity" in data.fields
             && "wind_speed" in data.fields
    ensures BubbleOf(Entry(Bot, Plain(WeatherText(reply, show)))) == WeatherBubble
  {
    var data := reply.body.weather.GetOr(Dict(map[]));
    ReportIsWeatherBubble(reply.body.location.GetOr("Unknown"), data.fields, show);
  }

  /** A failed direct-chat call is shown in an error bubble, unless the text it
      reports itself contains the weather mark. */
  lemma ChatFailureIsErrorBubble(reply: Reply<ChatBody>)
    requires !Succeeded(reply)
    requires reply.Answered? ==> !Contains(reply.text, WeatherMark)
    requires reply.Raised? ==> !Contains(reply.error, WeatherMark)
    ensures BubbleOf(Entry(Bot, Plain(ChatAnswer(reply)))) == ErrorBubble
  {
    var r := ChatAnswer(reply);
    StartsWithContains(r, ErrorMark);
    match reply
    case Answered(status, text, _) =>
      var head := ErrorMark + " " + "" + "Error: " + NatToString(status) + " - ";
      assert r == head + text;
      assert WeatherMark[0] !in head;
      ContainsNeedsFirst(head, text, WeatherMark);
    case Raised(e) =>
      var head := ErrorMark + " " + "" + "Connection Error: ";
      assert r == head + e;
      assert WeatherMark[0] !in head;
      ContainsNeedsFirst(head, e, WeatherMark);
  }

  lemma NoSplitHasNoWeatherMark(v: Value)
    ensures WeatherMark[0] !in NoSplit(v)
  {
    var tail := "' object has no attribute 'split'";
    assert NoSplit(v) == "'" + TypeName(v) + tail;
    assert WeatherMark[0] !in tail;
    assert WeatherMark[0] !in TypeName(v);
  }

  /** A chat answer that is not a string fails in the typing reveal and is
      shown in an error bubble. */
  lemma NonStringAnswerIsErrorBubble(reply: Reply<ChatBody>)
    requires Succeeded(reply) && !ChatReplyAnswer(reply.body).Str?
    ensures BubbleOf(Entry(Bot, Plain(ChatAnswer(reply)))) == ErrorBubble
  {
    var v := ChatReplyAnswer(reply.body);
    var head := ErrorMark + " Connection Error: ";
    var r := ChatAnswer(reply);
    assert r == head + NoSplit(v);
    assert r[..|ErrorMark|] == ErrorMark;
    StartsWithContains(r, ErrorMark);
    NoSplitHasNoWeatherMark(v);
    assert WeatherMark[0] !in head;
    ContainsNeedsFirst(head + NoSplit(v), "", WeatherMark);
    assert head + NoSplit(v) + "" == r;
  }

  /** A failed retrieval-augmented call is stored as an answer dictionary, so
      the transcript shows it in the plain bot style, not the error style. */
  lemma RagFailureIsRagBubble(reply: Reply<RagBody>)
    requires !Succeeded(reply)
    ensures BubbleOf(Entry(Bot, RagOutcome(reply))) == RagBubble
    ensures CssClass(BubbleOf(Entry(Bot, RagOutcome(reply)))) == "bot-bubble"
  {
  }

  /** What the display loop draws for one entry: its bubble and, for an answer
      with sources, the listing under it. */
  datatype Rendered = Rendered(bubble: Bubble, sources: Option<string>)

  const ListingHeader := "\U{1F4DA} **Sources:**\n"

  /** The body of the display loop for one entry. */
  method RenderEntry(e: Entry, score3: real -> string) returns (r: Rendered)
    ensures r.bubble == BubbleOf(e)
    ensures r.sources.Some? <==> e.sender != You && e.payload.RagResult? && e.payload.sources != []
    ensures r.sources.Some? ==>
              r.sources.value == ListingHeader + Concat(ListedLines(e.payload.sources, score3))
  {
    if e.sender != You && e.payload.RagResult? {
      var listing := SourcesListing(ListingHeader, e.payload.sources, score3);
      r := Rendered(BubbleOf(e), listing);
    } else {
      r := Rendered(BubbleOf(e), None);
    }
  }

  // ---------------------------------------------------------------------------
  // Session

  datatype Mode = DirectChat | KnowledgeBaseRag | WeatherMode

  /** The sidebar settings sent with a direct chat. */
  datatype Settings = Settings(creativity: real, maxTokens: int)

  /** The `/chat` request body. */
  datatype ChatPayload = ChatPayload(messages: seq<OutMessage>, temperature: real, maxTokens: int)

  /** The gateway's endpoints as the client reaches them. */
  datatype Backend = Backend(
    chat: ChatPayload -> Reply<ChatBody>,
    rag: string -> Reply<RagBody>,
    weather: string -> Reply<WeatherBody>)

  /** The bot entry's payload for a submission in the given mode. */
  function BotPayload(
    mode: Mode, input: string, history: seq<OutMessage>, settings: Settings,
    backend: Backend, show: Value -> string): Payload
  {
    match mode
    case DirectChat =>
      Plain(ChatAnswer(backend.chat(ChatPayload(history, settings.creativity, settings.maxTokens))))
    case KnowledgeBaseRag => RagOutcome(backend.rag(input))
    case WeatherMode => Plain(WeatherText(backend.weather(input), show))
  }

  /** The session state: the transcript. */
  class Session {
    var messages: seq<Entry>

    ghost predicate Valid()
      reads this
    {
      Paired(messages)
    }

    constructor ()
      ensures Valid() && messages == []
    {
      messages := [];
    }

    /** The "Clear Chat" button. */
    method Clear()
      modifies this
      ensures Valid() && messages == []
    {
      messages := [];
    }

    /** A form submission: with non-empty input, the user entry and then
        exactly one bot entry; otherwise nothing. Direct chat sends the
        history that already includes the new user entry. */
    method Submit(
      submitted: bool, input: string, mode: Mode, settings: Settings,
      backend: Backend, show: Value -> string)
      requires Valid()
      modifies this
      ensures Valid()
      ensures !(submitted && input != "") ==> messages == old(messages)
      ensures submitted && input != "" ==>
                var asked := old(messages) + [Entry(You, Plain(input))];
                messages == asked + [Entry(Bot, BotPayload(mode, input, History(asked), settings, backend, show))]
    {
      if submitted && input != "" {
        messages := messages + [Entry(You, Plain(input))];
        var reply: Payload;
        match mode {
          case DirectChat =>
            var history := FormatMessagesForBackend(messages);
            reply := Plain(ChatAnswer(backend.chat(ChatPayload(history, settings.creativity, settings.maxTokens))));
          case KnowledgeBaseRag =>
            reply := RagOutcome(backend.rag(input));
          case WeatherMode =>
            reply := Plain(WeatherText(backend.weather(input), show));
        }
        messages := messages + [Entry(Bot, reply)];
        assert messages[..|messages| - 2] == old(messages);
      }
    }
  }
}

/**
  The inference gateway (backend/main.py): request payloads for the model and
  the knowledge base, the shaping of their answers, retrieval normalisation,
  the retrieval-augmented prompt and the weather lookup.

  The remote services are parameters: `invoke` is the model runtime
  (model id and request dictionary to a decoded reply or a raised exception),
  `retrieve` the knowledge-base runtime and `fetch` the weather service.
*/
module Gateway {
  import opened Results
  import opened Text
  import opened Json

  const Model := "us.anthropic.claude-3-7-sonnet-20250219-v1:0"
  const KnowledgeBaseId := "JGMPKF6VEI"
  const AnthropicVersion := "bedrock-2023-05-31"

  /** An `HTTPException` raised towards the caller. */
  datatype HttpError = HttpError(status: nat, detail: string) {
    /** `str(e)` of a Starlette `HTTPException`: "<status>: <detail>". */
    function Str(): string {
      NatToString(status) + ": " + detail
    }
  }

  /** An endpoint that catches the 500 raised by a helper and re-raises it with
      its own prefix shows the helper's status and detail after that prefix. */
  lemma WrappedDetail(outer: string, inner: string, cause: string)
    ensures outer + HttpError(500, inner + cause).Str() == outer + "500: " + inner + cause
  {
    assert NatToString(500) == "500";
  }

  // ---------------------------------------------------------------------------
  // Message append helpers

  /** A Python list of role/content messages that the helpers append to. */
  class MessageList {
    var items: seq<Message>

    constructor (items: seq<Message>)
      ensures this.items == items
    {
      this.items := items;
    }
  }

  /** `add_user_message`: appends one user message at the end. */
  method AddUserMessage(messages: MessageList, prompt: string)
    modifies messages
    ensures messages.items == old(messages.items) + [Message("user", prompt)]
  {
    messages.items := messages.items + [Message("user", prompt)];
  }

  /** `add_assistant_message`: appends one assistant message at the end. */
  method AddAssistantMessage(messages: MessageList, prompt: string)
    modifies messages
    ensures messages.items == old(messages.items) + [Message("assistant", prompt)]
  {
    messages.items := messages.items + [Message("assistant", prompt)];
  }

  // ---------------------------------------------------------------------------
  // Inference request body

  /** Python truthiness of the optional system text: `None` and `""` are false. */
  predicate Truthy(system: Option<string>) {
    system.Some? && system.value != ""
  }

  /** The system text that reaches the body: a falsy one is dropped. */
  function SystemSent(system: Option<string>): (r: Option<string>)
    ensures r.Some? <==> Truthy(system)
    ensures r.Some? ==> r == system
  {
    if Truthy(system) then system else None
  }

  const ThinkingConfig := Dict(map["type" := Str("enabled"), "budget_tokens" := Int(1024)])

  /** What the model runtime reads out of a request body. */
  datatype InferenceParams = InferenceParams(
    messages: seq<Message>,
    maxTokens: int,
    system: Option<string>,
    temperature: real,
    thinking: bool)

  /** Reads a list of role/content objects back into messages. */
  function ReadMessages(vs: seq<Value>): Option<seq<Message>> {
    if vs == [] then Some([])
    else
      var v := vs[0];
      if v.Dict? && "role" in v.fields && v.fields["role"].Str?
         && "content" in v.fields && v.fields["content"].Str?
      then
        match ReadMessages(vs[1..])
        case Some(rest) => Some([Message(v.fields["role"].s, v.fields["content"].s)] + rest)
        case None => None
      else None
  }

  /** Messages read back from their JSON objects are the messages. */
  lemma {:induction false} ReadMessagesJson(messages: seq<Message>)
    ensures ReadMessages(MessagesJson(messages)) == Some(messages)
  {
    if messages != [] {
      assert MessagesJson(messages)[1..] == MessagesJson(messages[1..]);
      ReadMessagesJson(messages[1..]);
      assert [messages[0]] + messages[1..] == messages;
    }
  }

  /** The request as the model runtime reads it from a body dictionary. */
  function ReadBody(body: map<string, Value>): Option<InferenceParams> {
    if && "anthropic_version" in body && body["anthropic_version"] == Str(AnthropicVersion)
       && "max_tokens" in body && body["max_tokens"].Int?
       && "temperature" in body && body["temperature"].Float?
       && "messages" in body && body["messages"].List?
       && ReadMessages(body["messages"].items).Some?
       && ("system" in body ==> body["system"].Str?)
       && ("thinking" in body ==> body["thinking"] == ThinkingConfig)
    then
      Some(InferenceParams(
             ReadMessages(body["messages"].items).value,
             body["max_tokens"].i,
             if "system" in body then Some(body["system"].s) else None,
             body["temperature"].r,
             "thinking" in body))
    else None
  }

  /** `create_body_json`: the request dictionary (its `json.dumps` text is not
      modelled). The four fixed keys are always there; `system` only when the
      system text is truthy, `thinking` only when asked for. */
  method CreateBodyJson(
    messages: seq<Message>,
    maxTokens: int := 1024,
    system: Option<string> := None,
    temperature: real := 0.5,
    thinking: bool := false)
    returns (body: map<string, Value>)
    ensures body.Keys == {"anthropic_version", "max_tokens", "temperature", "messages"}
                         + (if Truthy(system) then {"system"} else {})
                         + (if thinking then {"thinking"} else {})
    ensures body["anthropic_version"] == Str(AnthropicVersion)
    ensures "thinking" in body ==> body["thinking"] == ThinkingConfig
    ensures ReadBody(body) == Some(InferenceParams(messages, maxTokens, SystemSent(system), temperature, thinking))
  {
    body := map[
      "anthropic_version" := Str(AnthropicVersion),
      "max_tokens" := Int(maxTokens),
      "temperature" := Float(temperature),
      "messages" := List(MessagesJson(messages))
    ];
    if Truthy(system) {
      body := body["system" := Str(system.value)];
    }
    if thinking {
      body := body["thinking" := ThinkingConfig];
    }
    ReadMessagesJson(messages);
  }

  // ---------------------------------------------------------------------------
  // Direct chat

  /** What the model runtime call produced: the decoded reply body, or the
      text of the exception raised while calling it or decoding its body. */
  datatype Invocation = Responded(message: Value) | Raised(error: string)

  /** `message['content'][0]['text']`, or `str(e)` of what was raised. */
  function ModelText(outcome: Invocation): Result<Value, string> {
    match outcome
    case Raised(e) => Err(e)
    case Responded(m) =>
      match Path(m, [Field("content"), Index(0), Field("text")])
      case Ok(t) => Ok(t)
      case Err(e) => Err(e.text)
  }

  /** A reply whose first content block carries text yields that text. */
  lemma ModelTextOfReply(reply: map<string, Value>, block: map<string, Value>, more: seq<Value>)
    requires "content" in reply && reply["content"] == List([Dict(block)] + more)
    requires "text" in block
    ensures ModelText(Responded(Dict(reply))) == Ok(block["text"])
  {
    var keys := [Field("content"), Index(0), Field("text")];
    PathThrough(Dict(reply), keys[0], keys[1..]);
    PathThrough(List([Dict(block)] + more), keys[1], keys[2..]);
    PathThrough(Dict(block), keys[2], []);
  }

  /** A reply with no content blocks fails with Python's IndexError text. */
  lemma ModelTextNoBlocks(reply: map<string, Value>)
    requires "content" in reply && reply["content"] == List([])
    ensures ModelText(Responded(Dict(reply))) == Err("list index out of range")
  {
    var keys := [Field("content"), Index(0), Field("text")];
    PathThrough(Dict(reply), keys[0], keys[1..]);
  }

  /** `chat`: builds the body without `thinking`, invokes the model and returns
      the first text block; any failure becomes HTTP 500 "Error invoking model: ...".
      `body` is the dictionary handed to the runtime. */
  method Chat(
    messages: seq<Message>,
    invoke: (string, map<string, Value>) -> Invocation,
    modelId: string := Model,
    system: Option<string> := None,
    temperature: real := 0.5,
    maxTokens: int := 1024)
    returns (r: Result<Value, HttpError>, body: map<string, Value>)
    ensures ReadBody(body) == Some(InferenceParams(messages, maxTokens, SystemSent(system), temperature, false))
    ensures "thinking" !in body
    ensures ModelText(invoke(modelId, body)).Ok? ==> r == Ok(ModelText(invoke(modelId, body)).value)
    ensures ModelText(invoke(modelId, body)).Err? ==>
              r == Err(HttpError(500, "Error invoking model: " + ModelText(invoke(modelId, body)).error))
    ensures r.Err? ==> r.error.status == 500 && StartsWith(r.error.detail, "Error invoking model: ")
  {
    var b := CreateBodyJson(messages, maxTokens, system, temperature);
    body := b;
    match ModelText(invoke(modelId, b))
    case Ok(text) =>
      r := Ok(text);
    case Err(e) =>
      r := Err(HttpError(500, "Error invoking model: " + e));
  }

  /** The `/chat` request after validation. */
  datatype ChatRequest = ChatRequest(
    messages: seq<Message>,
    system: Option<string>,
    temperature: real,
    maxTokens: int)

  /** `/chat`: `{"response": text}`, or HTTP 500 "Error in chat: " followed by
      the string form of the exception `chat` raised. `body` is the dictionary
      handed to the model runtime. */
  method ChatEndpoint(request: ChatRequest, invoke: (string, map<string, Value>) -> Invocation)
    returns (r: Result<map<string, Value>, HttpError>, body: map<string, Value>)
    ensures ReadBody(body) == Some(InferenceParams(request.messages, request.maxTokens,
                                                   SystemSent(request.system), request.temperature, false))
    ensures ModelText(invoke(Model, body)).Ok? ==> r == Ok(map["response" := ModelText(invoke(Model, body)).value])
    ensures ModelText(invoke(Model, body)).Err? ==>
              r == Err(HttpError(500, "Error in chat: " + "500: " + "Error invoking model: " + ModelText(invoke(Model, body)).error))
  {
    var messages := request.messages;
    var answer;
    answer, body := Chat(messages, invoke, Model, request.system, request.temperature, request.maxTokens);
    match answer
    case Ok(text) =>
      r := Ok(map["response" := text]);
    case Err(e) =>
      var cause := ModelText(invoke(Model, body)).error;
      assert e == HttpError(500, "Error invoking model: " + cause);
      WrappedDetail("Error in chat: ", "Error invoking model: ", cause);
      r := Err(HttpError(500, "Error in chat: " + e.Str()));
  }

  // ---------------------------------------------------------------------------
  // Weather lookup

  /** What the weather request produced: the decoded JSON, or the text of a
      `RequestException` (connection failure, an error status reported by
      `raise_for_status`, a body that is not JSON). */
  datatype Fetch = Fetched(data: Value) | RequestFailed(error: string)

  /** The result of `get_current_weather`: the four-field record, or the plain
      string it returns instead when the lookup fails. */
  datatype Weather =
    | Snapshot(temperature: Value, description: Value, humidity: Value, windSpeed: Value)
    | Note(text: string)
  {
    /** The value as it is put into the endpoint's JSON response. */
    function ToJson(): (v: Value)
      ensures Snapshot? ==> v.Dict? && v.fields.Keys == {"temperature", "description", "humidity", "wind_speed"}
      ensures Snapshot? ==> && v.fields["temperature"] == temperature && v.fields["description"] == description
                            && v.fields["humidity"] == humidity && v.fields["wind_speed"] == windSpeed
      ensures Note? ==> v == Str(text)
    {
      match this
      case Snapshot(t, d, h, w) =>
        Dict(map["temperature" := t, "description" := d, "humidity" := h, "wind_speed" := w])
      case Note(s) => Str(s)
    }
  }

  const CouldNotParse := "Could not parse weather data."

  function WeatherUrl(location: string): string {
    "https://wttr.in/" + location + "?format=j1"
  }

  /** The `except KeyError` clause: a missing key turns into the fixed text,
      any other exception escapes. */
  function CatchKeyError(e: PyError): (r: Result<Weather, PyError>)
    ensures e.kind == KeyError <==> r == Ok(Note(CouldNotParse))
    ensures e.kind != KeyError <==> r == Err(e)
  {
    if e.kind == KeyError then Ok(Note(CouldNotParse)) else Err(e)
  }

  const CurrentCondition := [Field("current_condition"), Index(0)]

  /** The record read out of the decoded weather JSON, field by field in the
      order the source evaluates them. */
  function ExtractWeather(data: Value): Result<Weather, PyError> {
    var current := Path(data, CurrentCondition);
    if current.Err? then CatchKeyError(current.error) else
    var c := current.value;
    var t := Path(c, [Field("temp_C")]);
    if t.Err? then CatchKeyError(t.error) else
    var d := Path(c, [Field("weatherDesc"), Index(0), Field("value")]);
    if d.Err? then CatchKeyError(d.error) else
    var h := Path(c, [Field("humidity")]);
    if h.Err? then CatchKeyError(h.error) else
    var w := Path(c, [Field("windspeedKmph")]);
    if w.Err? then CatchKeyError(w.error) else
    Ok(Snapshot(t.value, d.value, h.value, w.value))
  }

  /** `get_current_weather`: a record on success, "Request failed: ..." when the
      request fails, exactly "Could not parse weather data." on a missing key;
      any other exception (an empty list, a wrong type) escapes. */
  function GetCurrentWeather(location: string, fetch: string -> Fetch): (r: Result<Weather, PyError>)
    ensures fetch(WeatherUrl(location)).RequestFailed? ==>
              r == Ok(Note("Request failed: " + fetch(WeatherUrl(location)).error))
    ensures r.Ok? && r.value.Note? ==>
              StartsWith(r.value.text, "Request failed: ") || r.value.text == CouldNotParse
    ensures r.Err? ==> r.error.kind != KeyError
  {
    match fetch(WeatherUrl(location))
    case RequestFailed(e) => Ok(Note("Request failed: " + e))
    case Fetched(data) => ExtractWeather(data)
  }

  /** A well-formed wttr.in reply gives the record of its first current condition. */
  lemma WeatherOfReport(
    data: map<string, Value>, current: map<string, Value>, others: seq<Value>,
    desc: map<string, Value>, moreDescs: seq<Value>)
    requires "current_condition" in data && data["current_condition"] == List([Dict(current)] + others)
    requires "temp_C" in current && "humidity" in current && "windspeedKmph" in current
    requires "weatherDesc" in current && current["weatherDesc"] == List([Dict(desc)] + moreDescs)
    requires "value" in desc
    ensures ExtractWeather(Dict(data))
            == Ok(Snapshot(current["temp_C"], desc["value"], current["humidity"], current["windspeedKmph"]))
  {
    PathThrough(Dict(data), CurrentCondition[0], CurrentCondition[1..]);
    PathThrough(List([Dict(current)] + others), CurrentCondition[1], []);
    var descPath := [Field("weatherDesc"), Index(0), Field("value")];
    PathThrough(Dict(current), descPath[0], descPath[1..]);
    PathThrough(List([Dict(desc)] + moreDescs), descPath[1], descPath[2..]);
    PathThrough(Dict(desc), descPath[2], []);
  }

  /** A reply whose current condition lacks a key reads as the fixed text. */
  lemma WeatherMissingKey(data: map<string, Value>, current: map<string, Value>, others: seq<Value>)
    requires "current_condition" in data && data["current_condition"] == List([Dict(current)] + others)
    requires "temp_C" !in current
    ensures ExtractWeather(Dict(data)) == Ok(Note(CouldNotParse))
  {
    PathThrough(Dict(data), CurrentCondition[0], CurrentCondition[1..]);
    PathThrough(List([Dict(current)] + others), CurrentCondition[1], []);
  }

  /** An empty list of current conditions raises IndexError, which escapes. */
  lemma WeatherNoConditions(data: map<string, Value>)
    requires "current_condition" in data && data["current_condition"] == List([])
    ensures ExtractWeather(Dict(data)) == Err(PyError(IndexError, "list index out of range"))
  {
    PathThrough(Dict(data), CurrentCondition[0], CurrentCondition[1..]);
  }

  /** `/weather`: `{"weather": record or text, "location": location}`, or HTTP 500
      "Error getting weather: ..." for an exception that escaped the lookup. */
  function WeatherEndpoint(location: string, fetch: string -> Fetch): (r: Result<map<string, Value>, HttpError>)
    ensures r.Ok? <==> GetCurrentWeather(location, fetch).Ok?
    ensures r.Ok? ==> r.value == map["weather" := GetCurrentWeather(location, fetch).value.ToJson(),
                                     "location" := Str(location)]
    ensures r.Err? ==> r.error == HttpError(500, "Error getting weather: " + GetCurrentWeather(location, fetch).error.text)
  {
    match GetCurrentWeather(location, fetch)
    case Ok(w) => Ok(map["weather" := w.ToJson(), "location" := Str(location)])
    case Err(e) => Err(HttpError(500, "Error getting weather: " + e.text))
  }

  // ---------------------------------------------------------------------------
  // Knowledge base retrieval

  /** `create_kb_request`: the nested retrieval request. */
  function CreateKbRequest(kbId: string, query: string, numResults: int := 3): (req: map<string, Value>)
    ensures req.Keys == {"knowledgeBaseId", "retrievalQuery", "retrievalConfiguration"}
    ensures Path(Dict(req), [Field("knowledgeBaseId")]) == Ok(Str(kbId))
    ensures Path(Dict(req), [Field("retrievalQuery"), Field("text")]) == Ok(Str(query))
    ensures Path(Dict(req), [Field("retrievalConfiguration"), Field("vectorSearchConfiguration"),
                            Field("numberOfResults")]) == Ok(Int(numResults))
  {
    var req := map[
      "knowledgeBaseId" := Str(kbId),
      "retrievalQuery" := Dict(map["text" := Str(query)]),
      "retrievalConfiguration" := Dict(map[
        "vectorSearchConfiguration" := Dict(map["numberOfResults" := Int(numResults)])])
    ];
    var cfg := [Field("retrievalConfiguration"), Field("vectorSearchConfiguration"), Field("numberOfResults")];
    PathThrough(Dict(req), cfg[0], cfg[1..]);
    PathThrough(req["retrievalConfiguration"], cfg[1], cfg[2..]);
    var q := [Field("retrievalQuery"), Field("text")];
    PathThrough(Dict(req), q[0], q[1..]);
    req
  }

  /** One match as the retrieval runtime returns it; every part may be absent. */
  datatype RawContent = RawContent(text: Option<string>)
  datatype RawResult = RawResult(content: Option<RawContent>, score: Option<real>, metadata: Option<map<string, Value>>)
  datatype RetrieveResponse = RetrieveResponse(retrievalResults: Option<seq<RawResult>>)

  /** What the retrieval runtime call produced: a response, a `ClientError`,
      or another exception. */
  datatype Retrieval =
    | Retrieved(response: RetrieveResponse)
    | ClientFailure(error: string)
    | OtherFailure(error: string)

  /** A retrieved document with its defaults filled in. */
  datatype Doc = Doc(content: string, score: real, metadata: map<string, Value>)

  /** `kb_response.get('retrievalResults', [])` */
  function Upstream(response: RetrieveResponse): (rs: seq<RawResult>)
    ensures response.retrievalResults.None? ==> rs == []
  {
    response.retrievalResults.GetOr([])
  }

  /** One result with defaults: content `''`, score 0, metadata `{}`. */
  function Normalize(raw: RawResult): (d: Doc)
    ensures raw.content.Some? && raw.content.value.text.Some? ==> d.content == raw.content.value.text.value
    ensures raw.content.None? || raw.content.value.text.None? ==> d.content == ""
    ensures d.score == raw.score.GetOr(0.0)
    ensures d.metadata == raw.metadata.GetOr(map[])
  {
    Doc(raw.content.GetOr(RawContent(None)).text.GetOr(""), raw.score.GetOr(0.0), raw.metadata.GetOr(map[]))
  }

  /** The raw form of a document that carries every field. */
  function Raw(d: Doc): RawResult {
    RawResult(Some(RawContent(Some(d.content))), Some(d.score), Some(d.metadata))
  }

  /** Normalising a complete result changes nothing. */
  lemma NormalizeRaw(d: Doc)
    ensures Normalize(Raw(d)) == d
  {
  }

  /** The normalised results, one per upstream result, in the same order. */
  function NormalizeAll(raws: seq<RawResult>): (docs: seq<Doc>)
    ensures |docs| == |raws|
    ensures forall i :: 0 <= i < |raws| ==> docs[i] == Normalize(raws[i])
  {
    if raws == [] then [] else NormalizeAll(raws[..|raws| - 1]) + [Normalize(raws[|raws| - 1])]
  }

  datatype KbRetrievalResponse = KbRetrievalResponse(results: seq<Doc>, query: string)

  /** `/kb-retrieve`: the normalised results of one retrieval call; a
      `ClientError` and any other exception become distinct HTTP 500 details. */
  method KbRetrieve(query: string, retrieve: map<string, Value> -> Retrieval, numResults: int := 3)
    returns (r: Result<KbRetrievalResponse, HttpError>)
    ensures var outcome := retrieve(CreateKbRequest(KnowledgeBaseId, query, numResults));
            && (outcome.ClientFailure? ==> r == Err(HttpError(500, "AWS Bedrock error: " + outcome.error)))
            && (outcome.OtherFailure? ==>
                  r == Err(HttpError(500, "Error retrieving from knowledge base: " + outcome.error)))
            && (outcome.Retrieved? ==>
                  r.Ok? && r.value.query == query
                  && |r.value.results| == |Upstream(outcome.response)|
                  && forall i :: 0 <= i < |r.value.results| ==>
                                   r.value.results[i] == Normalize(Upstream(outcome.response)[i]))
  {
    var request := CreateKbRequest(KnowledgeBaseId, query, numResults);
    match retrieve(request)
    case ClientFailure(e) =>
      r := Err(HttpError(500, "AWS Bedrock error: " + e));
    case OtherFailure(e) =>
      r := Err(HttpError(500, "Error retrieving from knowledge base: " + e));
    case Retrieved(response) =>
      var raws := Upstream(response);
      var results: seq<Doc> := [];
      for i := 0 to |raws|
        invariant |results| == i
        invariant forall k :: 0 <= k < i ==> results[k] == Normalize(raws[k])
      {
        results := results + [Normalize(raws[i])];
      }
      r := Ok(KbRetrievalResponse(results, query));
  }

  // ---------------------------------------------------------------------------
  // Retrieval-augmented answer

  /** One document's part of the context: `f"Document: {content}\n\n"`. */
  function Block(d: Doc): string {
    "Document: " + d.content + "\n\n"
  }

  /** The context block: the documents' parts in order. */
  function ContextText(docs: seq<Doc>): string {
    if docs == [] then "" else ContextText(docs[..|docs| - 1]) + Block(docs[|docs| - 1])
  }

  /** The context of two runs of documents is the two contexts in order. */
  lemma {:induction false} ContextTextAppend(a: seq<Doc>, b: seq<Doc>)
    ensures ContextText(a + b) == ContextText(a) + ContextText(b)
  {
    if b != [] {
      assert (a + b)[..|a + b| - 1] == a + b[..|b| - 1];
      ContextTextAppend(a, b[..|b| - 1]);
    } else {
      assert a + b == a;
    }
  }

  /** The context splits into the contexts of a prefix and the rest. */
  lemma ContextTextSplit(docs: seq<Doc>, i: nat)
    requires i <= |docs|
    ensures ContextText(docs) == ContextText(docs[..i]) + ContextText(docs[i..])
  {
    assert docs == docs[..i] + docs[i..];
    ContextTextAppend(docs[..i], docs[i..]);
  }

  /** The context splits around any one document's block. */
  lemma ContextSplitAt(docs: seq<Doc>, i: nat)
    requires i < |docs|
    ensures ContextText(docs) == ContextText(docs[..i]) + Block(docs[i]) + ContextText(docs[i + 1..])
  {
    var init := docs[..i + 1];
    ContextTextSplit(docs, i + 1);
    assert init[..i] == docs[..i] && init[i] == docs[i];
    assert ContextText(init) == ContextText(docs[..i]) + Block(docs[i]);
  }

  /** Every retrieved document appears, framed, in the context. */
  lemma ContextMentionsDoc(docs: seq<Doc>, i: nat)
    requires i < |docs|
    ensures Contains(ContextText(docs), "Document: " + docs[i].content + "\n\n")
  {
    ContextSplitAt(docs, i);
    ContainsPart(ContextText(docs), ContextText(docs[..i]), Block(docs[i]), ContextText(docs[i + 1..]));
  }

  const RagSystemPrompt :=
    "You are a helpful assistant that answers questions based on the provided context. \n"
    + "        Use the retrieved documents to provide accurate and informative answers. \n"
    + "        If the information is not available in the context, say so clearly."

  /** The user prompt that wraps the context and the question. */
  function UserPrompt(context: string, query: string): string {
    "Context from knowledge base:\n" + context + "\n\nQuestion: " + query
    + "\n\nPlease provide a comprehensive answer based on the context provided."
  }

  /** The prompt carries the whole context and the question unchanged. */
  lemma PromptEmbeds(context: string, query: string)
    ensures Contains(UserPrompt(context, query), context)
    ensures Contains(UserPrompt(context, query), "Question: " + query)
  {
    var head := "Context from knowledge base:\n";
    var tail := "\n\nPlease provide a comprehensive answer based on the context provided.";
    var gap, question := "\n\n", "Question: ";
    assert "\n\nQuestion: " == gap + question;
    assert UserPrompt(context, query) == head + context + (gap + question) + query + tail;
    Regroup(head, context, gap, question, query, tail);
    ContainsInfix(head, context, gap + question + query + tail);
    ContainsInfix(head + context + gap, question + query, tail);
  }

  /** The one message the retrieval-augmented answer sends. */
  function RagMessages(docs: seq<Doc>, query: string): seq<Message> {
    [Message("user", UserPrompt(ContextText(docs), query))]
  }

  /** The retrieval loop of `kb_rag_query`: normalised documents and the
      context accumulated alongside them. */
  method CollectDocs(raws: seq<RawResult>) returns (docs: seq<Doc>, context: string)
    ensures docs == NormalizeAll(raws)
    ensures context == ContextText(docs)
  {
    docs, context := [], "";
    for i := 0 to |raws|
      invariant docs == NormalizeAll(raws[..i])
      invariant context == ContextText(docs)
    {
      var d := Normalize(raws[i]);
      assert raws[..i + 1][..i] == raws[..i];
      assert (docs + [d])[..|docs|] == docs;
      docs := docs + [d];
      context := context + Block(d);
    }
    assert raws[..|raws|] == raws;
  }

  datatype RagResponse = RagResponse(answer: string, sources: seq<Doc>, query: string)

  /** `RAGResponse` validation of a model reply that is not a string. */
  const AnswerNotString := "1 validation error for RAGResponse\nanswer\n  Input should be a valid string"

  /** The model step of `kb_rag_query`: one call with the context prompt at
      temperature 0.3 and 1024 tokens, and its reply turned into the response
      or into the error the endpoint raises. `body` is what the model runtime is
      handed. */
  method AnswerFromContext(
    docs: seq<Doc>,
    context: string,
    query: string,
    invoke: (string, map<string, Value>) -> Invocation)
    returns (r: Result<RagResponse, HttpError>, body: map<string, Value>)
    requires context == ContextText(docs)
    ensures ReadBody(body) == Some(InferenceParams(RagMessages(docs, query), 1024, Some(RagSystemPrompt), 0.3, false))
    ensures var reply := ModelText(invoke(Model, body));
            && (reply.Ok? && reply.value.Str? ==> r == Ok(RagResponse(reply.value.s, docs, query)))
            && (reply.Ok? && !reply.value.Str? ==>
                  r == Err(HttpError(500, "Error processing RAG query: " + AnswerNotString)))
            && (reply.Err? ==>
                  r == Err(HttpError(500, "Error processing RAG query: " + "500: "
                                          + "Error invoking model: " + reply.error)))
  {
    var messages := [Message("user", UserPrompt(context, query))];
    var answer;
    answer, body := Chat(messages, invoke, Model, Some(RagSystemPrompt), 0.3, 1024);
    ghost var reply := ModelText(invoke(Model, body));
    match answer {
      case Ok(text) =>
        if text.Str? {
          r := Ok(RagResponse(text.s, docs, query));
        } else {
          r := Err(HttpError(500, "Error processing RAG query: " + AnswerNotString));
        }
      case Err(e) =>
        assert e == HttpError(500, "Error invoking model: " + reply.error);
        WrappedDetail("Error processing RAG query: ", "Error invoking model: ", reply.error);
        r := Err(HttpError(500, "Error processing RAG query: " + e.Str()));
    }
  }

  /** `/kb-rag-query`: retrieves with the default count, asks the model once with
      the context prompt, and answers with the normalised documents and the query
      unchanged. `sent` is the body handed to the model runtime, when the
      retrieval succeeded. */
  method KbRagQuery(
    query: string,
    retrieve: map<string, Value> -> Retrieval,
    invoke: (string, map<string, Value>) -> Invocation)
    returns (r: Result<RagResponse, HttpError>, sent: Option<map<string, Value>>)
    ensures var outcome := retrieve(CreateKbRequest(KnowledgeBaseId, query));
            && (outcome.ClientFailure? ==>
                  sent == None && r == Err(HttpError(500, "AWS Bedrock error: " + outcome.error)))
            && (outcome.OtherFailure? ==>
                  sent == None && r == Err(HttpError(500, "Error processing RAG query: " + outcome.error)))
            && (outcome.Retrieved? ==>
                  var docs := NormalizeAll(Upstream(outcome.response));
                  && sent.Some?
                  && ReadBody(sent.value) == Some(InferenceParams(RagMessages(docs, query), 1024,
                                                                  Some(RagSystemPrompt), 0.3, false))
                  && var reply := ModelText(invoke(Model, sent.value));
                     && (reply.Ok? && reply.value.Str? ==> r == Ok(RagResponse(reply.value.s, docs, query)))
                     && (reply.Ok? && !reply.value.Str? ==>
                           r == Err(HttpError(500, "Error processing RAG query: " + AnswerNotString)))
                     && (reply.Err? ==>
                           r == Err(HttpError(500, "Error processing RAG query: " + "500: "
                                                   + "Error invoking model: " + reply.error))))
  {
    var request := CreateKbRequest(KnowledgeBaseId, query);
    match retrieve(request) {
      case ClientFailure(e) =>
        r, sent := Err(HttpError(500, "AWS Bedrock error: " + e)), None;
      case OtherFailure(e) =>
        r, sent := Err(HttpError(500, "Error processing RAG query: " + e)), None;
      case Retrieved(response) =>
        var docs, context := CollectDocs(Upstream(response));
        var body;
        r, body := AnswerFromContext(docs, context, query, invoke);
        sent := Some(body);
    }
  }
}
